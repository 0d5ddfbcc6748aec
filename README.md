# Leaf disease predictor: request rules, lazy model loading and knowledge base

A Dafny model of the deterministic layer of a Flask front-end around a
pretrained leaf-disease classifier. The classifier itself (a CNN feature
extractor, an XGBoost classifier and a label encoder) is only ever called
through libraries. What the model covers:

- **Upload validation** (`Upload`): the extension rule `allowed_file` and
  the three ordered early-return checks of `POST /api/predict`. Each of these
  checks answers 400 before anything is saved.
- **Lazy model loading** (`Models`): the module globals `cnn_feature_extractor`,
  `xgb_classifier`, `label_encoder` and `MODELS_LOADED`, the three loading
  steps that assign them, and the fixed message prefixes a failure gets.
  `Load` and `Predict` are pure specification functions over the globals.
  The class `ModelStore` holds the same globals as fields and updates them in
  place. Its methods are proved equal to those functions.
- **Knowledge base** (`KnowledgeBase`, `Pages`): the literal ten-entry
  `DISEASE_INFO` table in its insertion order; the `home` listing (a loop
  that skips `healthy`); and the `disease_detail` lookup by lower-cased name,
  which answers 404 when the name is unknown.
- **Response assembly** (`Api`): the JSON body built with `.get` defaults, and
  the whole `/api/predict` route as a method over the model store.
- **Browser check** (`Client`): `validateImage` in `static/js/script.js`, a size
  bound followed by a MIME-type membership test.
- `Ascii` models `str.lower()` and `str.title()` on ASCII text. `Wrappers`
  holds `Option` and `Result`.

The outcomes of the library calls are parameters of the model: each of the
three loading steps, decoding and classifying the image, `secure_filename`,
the timestamp and `file.save`.

Four behaviours of the code are easy to misread:
- A failed model load is not fatal. The next request tries the load again.
- An image that cannot be decoded fails the prediction, so the route answers
  500, not 4xx.
- A predicted label missing from the table is not a configuration error. The
  response keeps the label and leaves the descriptive fields empty.
- A request body longer than `MAX_CONTENT_LENGTH` does not get the 413 of the
  error handler from `/api/predict`. Werkzeug raises `RequestEntityTooLarge`
  when the route first reads `request.files`, inside the route's `try`, and
  the bare `except Exception` answers 500 with the exception's text. A file of
  exactly 16 MiB passes the browser check but its multipart body is longer than
  the limit, so it takes this path.

## Model

| member | source | states |
|---|---|---|
| `Ascii.Lower` | app.py:331 | `.lower()` keeps the length and lower-cases each character on its own |
| `Ascii.Title` | app.py:317 | `.title()` keeps the length and upper-cases the first character |
| `Ascii.TitleSpec` | app.py:317 | `str.title()` upper-cases each character that starts a word (it is first or follows an uncased character) and lowers every other character; the length is unchanged |
| `Ascii.LowerOfTitle` | app.py:331-335 | lower-casing a title-cased name gives the same result as lower-casing the name |
| `Ascii.TitleIdempotent` | app.py:317 | title-casing an already title-cased name changes nothing |
| `Ascii.LowerOfLowerCase` | app.py:331 | `.lower()` leaves a string without upper-case letters unchanged |
| `Upload.LastIndexOf` | app.py:266 | finds the last occurrence of the separator: nothing iff it does not occur, otherwise an index holding it with none after it |
| `Upload.Extension` | app.py:266 | `rsplit('.', 1)[1]`: absent iff the name has no dot, otherwise the dot-free suffix that follows the name's last dot |
| `Upload.AllowedFile` | app.py:265-266 | an allowed name contains a dot, and the text after its last dot has three or four characters, as every allowed extension does |
| `Upload.AllowedFileIff` | app.py:265-266 | a name is allowed iff some dot has no dot after it and the lower-cased text after it is one of png, jpg, jpeg, gif, bmp |
| `Upload.AllowedFileIgnoresCase` | app.py:266 | two names equal up to letter case are both allowed or both rejected |
| `Upload.UpperCaseExtensionAccepted` | app.py:15 | `a.PNG` is accepted |
| `Upload.LastOfSeveralDotsDecides` | app.py:266 | `x.tar.jpg` is accepted and `a.png.txt` is rejected: only the text after the last dot counts |
| `Upload.MissingOrEmptyExtensionRejected` | app.py:265-266 | `png`, `a.` and the empty name are rejected |
| `Upload.RejectionMessage` | app.py:344-352 | every rejection carries a non-empty error text; `Upload.CheckUpload` decides which rejection applies, and the three texts of app.py:344, 349 and 352 are given only by this function's body |
| `Upload.CheckUpload` | app.py:343-352 | the checks run in order: no `file` field gives "No file provided"; otherwise an empty name gives "No file selected"; otherwise a disallowed extension gives "Invalid file format..."; only a file with an allowed, non-empty name passes |
| `KnowledgeBase.Lookup` | app.py:362 | `.get(key)` returns nothing iff no entry has the key, and otherwise a record that the table stores under that key |
| `KnowledgeBase.LookupFindsEntry` | app.py:332-333 | when keys are distinct, looking up an entry's key gives that entry's record |
| `KnowledgeBase.DiseaseInfoKeys` | app.py:47-263 | the table's keys, in insertion order, are the ten disease names |
| `KnowledgeBase.DiseaseInfoDistinct` | app.py:47-263 | no key occurs twice |
| `KnowledgeBase.DiseaseInfoLowerCase` | app.py:47-263 | no key contains an upper-case letter |
| `KnowledgeBase.DiseaseInfoDescribed` | app.py:47-263 | every record has a non-empty description and four symptoms |
| `KnowledgeBase.HealthyIsThird` | app.py:92 | `healthy` is the third key and no other key equals it |
| `Pages.Card` | app.py:316-320 | the card's name is title-cased and lower-cases back to the key; its description and symptom count are the record's |
| `Pages.Listed` | app.py:314-315 | no listed entry is keyed `healthy`, and the listing is never longer than the table |
| `Pages.ListedMembers` | app.py:314-315 | `home` lists an entry iff it is in the table and is not keyed `healthy` |
| `Pages.ListedConcat` | app.py:314-320 | listing keeps table order: listing two consecutive parts gives the first part's listing followed by the second's |
| `Pages.ListedSkipsHealthy` | app.py:314-316 | a table whose only `healthy` entry is at position h is listed as the table with that entry removed |
| `Pages.Home` | app.py:311-321 | the loop appends one card per listed entry, in order, with the title-cased name, the description and `len(symptoms)` |
| `Pages.HomeListsNine` | app.py:313-320 | on the shipped table `home` lists nine entries, none of them `healthy`, each with a symptom count of 4 |
| `Pages.DiseaseDetail` | app.py:329-337 | 404 "Disease not found" iff the lower-cased name is not a key; otherwise the record stored under the lower-cased name, shown with the title-cased name |
| `Pages.DetailIgnoresCase` | app.py:331-333 | in a table with distinct lower-case keys, any casing of a key renders that key's record |
| `Pages.DetailFindsAnyCasing` | app.py:329-336 | any casing of a shipped disease name renders that disease's record |
| `Pages.CardNameFindsDetail` | app.py:317 | the title-cased name on a home card leads back to the same record through `disease_detail` |
| `Pages.UnknownDiseaseNotFound` | app.py:337 | `/disease/unknown-disease` answers ("Disease not found", 404) |
| `Models.Load` | app.py:285-293 | a load that reports no failure leaves the flag set with all three handles present and the classifier fitted; a load started with the flag unset never sets it without them |
| `Models.LoadSucceedsIffAllSteps` | app.py:285-293 | a load succeeds iff all three steps succeed; it then holds exactly the three new artifacts, with the flag set |
| `Models.FailedLoadKeepsFlag` | app.py:293-295 | a failed load reports a failure and never changes `MODELS_LOADED` |
| `Models.PartialLoad` | app.py:287-289 | if the CNN loads and the XGBoost file fails, the new CNN handle and an unfitted classifier stay assigned; the encoder and the flag are unchanged |
| `Models.Message` | app.py:295-308 | the text of a re-raised failure is at least as long as "Prediction error: " and ends with the cause, or with the image path when the image is missing |
| `Models.Classify` | app.py:270-306 | classification succeeds iff inference produced a prediction, and returns exactly that prediction; an unreadable image fails with the image-not-found error for that path, and a failing library call with an inference error carrying its message; it never reports a load failure |
| `Models.Predict` | app.py:278-308 | from consistent globals a successful call leaves all three handles present; afterwards the flag is set iff it was set before or the guard held and all three loading steps succeeded |
| `Models.MessagePrefixes` | app.py:272-308 | every failure message is "Prediction error: " followed by: "Failed to load models: " and the cause for a load failure; "Image not found at path: " and the path for a missing image; exactly the cause for any other failure |
| `Models.GuardIsFlag` | app.py:283 | when the globals are consistent, the load guard holds iff `MODELS_LOADED` is false |
| `Models.LoadedSkipsLoad` | app.py:283 | when the guard is false, a call leaves the globals unchanged and goes straight to classification |
| `Models.LoadErrorIff` | app.py:283-295 | a call reports a load failure iff the guard held and some loading step failed |
| `Models.PredictKeepsConsistent` | app.py:281-293 | every call keeps the invariant that the flag is set only with all three handles loaded |
| `Models.FailedLoadRetries` | app.py:283-295 | after a failed load the flag is still false, so the next call tries to load again |
| `Models.PartialLoadThenFullReload` | app.py:283-293 | a load that assigns the CNN and then fails on XGBoost leaves the flag false; the next successful call reloads all three artifacts, the CNN included |
| `Models.LoadedIsFinal` | app.py:283 | once loaded, no sequence of later calls changes the globals |
| `Models.FlagSetIffSomeLoadSucceeded` | app.py:293 | after any sequence of calls the flag is set iff it was set before or some call had all three loading steps succeed |
| `Models.ModelStore.constructor` | app.py:24-41 | the import-time load runs from all-`None` handles; the flag ends true iff all three steps succeed, and the globals are consistent |
| `Models.ModelStore.LoadArtifacts` | app.py:285-293 | the in-place assignments leave the globals equal to `Load` of the old globals and report its failure |
| `Models.ModelStore.PredictDisease` | app.py:278-308 | the new globals and the result are those of `Predict` on the old globals: load when the guard holds, wrap a load failure, then classify |
| `Api.BuildResponse` | app.py:364-374 | the body always carries the title-cased label, the raw label as `disease_key`, the confidence and `/uploads/` followed by the saved name |
| `Api.UnknownLabelDegrades` | app.py:362-374 | for a label absent from the table the body has description `''`, symptoms `[]`, causes `''`, prevention `[]` and treatment `[]` |
| `Api.KnownLabelUsesRecord` | app.py:362-372 | for a label that is a key, every descriptive field comes from that key's record |
| `Api.KnownLabelsDescribed` | app.py:362-368 | every shipped label is answered with a non-empty description |
| `Api.JoinPath` | app.py:356 | `os.path.join` keeps an absolute second part as it is; otherwise it gives the folder, then one `/` unless the folder is empty or already ends with `/`, then the name |
| `Api.ApiPredict` | app.py:339-379 | a body over `MAX_CONTENT_LENGTH` answers 500 with werkzeug's "413 Request Entity Too Large: ..." text, saves nothing and leaves the globals unchanged; otherwise a rejected upload answers 400 with its message, saves nothing and leaves the globals unchanged; a failed save answers 500; otherwise the file is saved, `predict_disease` runs, and its failure becomes 500 with its message while success becomes 200 with the assembled body |
| `Client.ValidateImage` | static/js/script.js:57-70 | accepted iff size <= 16 MiB and the MIME type is in the list; the size error iff size > 16 MiB; the type error iff the size passes and the type is not in the list |
| `Client.ExactlyMaxSizeAccepted` | static/js/script.js:61-63 | the bound is inclusive: exactly 16 MiB passes and one byte more does not |
| `Client.SizeReportedBeforeType` | static/js/script.js:61-67 | an oversized file of a wrong type reports the size error |
| `Client.TypeMatchIsExact` | static/js/script.js:65-67 | the type test is exact: `IMAGE/PNG` and `image/jpg` are rejected |
| `Client.FullSizeFileRefusedByServer` | static/js/script.js:58-63 | a 16 MiB file of an allowed type passes the browser check, yet the route, sent that file in a body with any framing on top, answers 500 with werkzeug's 413 text, saves nothing and leaves the globals unchanged |
| `Client.SameBoundAsServer` | static/js/script.js:58 | the 16 MiB bound equals the server's `MAX_CONTENT_LENGTH`, so an accepted file is never larger than it |

## Left out

- `process_image` (OpenCV decoding, resizing and scaling by 255.0) uses a foreign library and floating point. Only its "image not found" failure and message are modelled.
- Inference is left out: CNN `predict`, XGBoost `predict` and `predict_proba`, `inverse_transform`, and the confidence as `np.max` times 100. These are opaque library and float computations. Their outcome is the input `Inference`.
- Api.BuildResponse: does not model `round(confidence, 2)`, because it is floating-point rounding. The confidence is passed through unchanged as a `real`.
- The loading calls are inputs. A failed `from tensorflow.keras.models import load_model` counts as a failure of the CNN step, since both happen before the CNN global is assigned.
- After a failed `load_model`, the XGBoost classifier is assumed to stay unfitted. The library's internal state after that failure is not modelled.
- `secure_filename`, the `datetime` timestamp and `file.save` are inputs. The folder is named by an input too. `send_from_directory`, `render_template`, Flask routing, the `/predictor` page and the 404/500 page handlers are framework plumbing.
- The request body's length is an input of `Api.ApiPredict`. The text of the caught `RequestEntityTooLarge` is werkzeug's, not the application's. The `errorhandler(413)` that answers "File too large. Maximum size is 16MB" is not modelled: on `/api/predict` the route's own `except Exception` catches the exception first, and no other modelled route reads a body.
- Concurrent first requests can race on the lazy load. The model is sequential.
- `str.lower()` and `str.title()` are modelled for ASCII only. Non-ASCII characters count as uncased and stay unchanged. The extension set and the table keys are ASCII.
- The import-time `print` calls that report whether the models loaded are console output only.
- `project_info.py` prints static banners. `verify_setup.py` probes files on disk.
- The rest of `static/js/script.js` is DOM event handling: the menu, scrolling, animations and the ripple effect.
