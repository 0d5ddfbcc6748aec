/**
 * The `/api/predict` route: the early upload checks, saving the upload under
 * a timestamped name, one call of `predict_disease`, and the JSON body built
 * from the prediction and the knowledge base. Any exception becomes a 500
 * response carrying its message.
 */
module Api {
  import opened Wrappers
  import Ascii
  import opened KnowledgeBase
  import opened Upload
  import opened Models

  const Ok := 200
  const InternalServerError := 500

  /** `MAX_CONTENT_LENGTH`: the largest request body the framework admits. */
  const MaxContentLength := 16 * 1024 * 1024

  /**
   * A body longer than `MAX_CONTENT_LENGTH` makes werkzeug raise
   * `RequestEntityTooLarge` when the route first reads `request.files`. That
   * read is inside the route's `try`, so the exception is caught like any
   * other and its `str()` (code, name and werkzeug's description) becomes the
   * error of a 500 response; the 413 error handler never sees it.
   */
  predicate BodyTooLarge(contentLength: nat) {
    contentLength > MaxContentLength
  }

  const RequestTooLargeMessage := "413 Request Entity Too Large: The data value transmitted exceeds the capacity limit."

  /** The JSON object the route returns. */
  datatype Body =
    | ErrorBody(error: string)
    | PredictionBody(
        disease: string,
        diseaseKey: string,
        confidence: real,
        description: string,
        symptoms: seq<string>,
        causes: string,
        prevention: seq<string>,
        treatment: Treatment,
        imagePath: string)

  datatype Response = Response(status: int, body: Body)

  /**
   * The success body: the record stored under the predicted label, with an
   * empty default for every descriptive field when the label is not in the table.
   */
  function BuildResponse(t: Table, p: Prediction, filename: string): (r: Body)
    ensures r.PredictionBody?
    ensures r.disease == Ascii.Title(p.disease) && r.diseaseKey == p.disease
    ensures r.confidence == p.confidence
    ensures r.imagePath == "/uploads/" + filename
  {
    var info := Lookup(t, p.disease);
    PredictionBody(
      Ascii.Title(p.disease),
      p.disease,
      p.confidence,
      if info.Some? then info.value.description else "",
      if info.Some? then info.value.symptoms else [],
      if info.Some? then info.value.causes else "",
      if info.Some? then info.value.prevention else [],
      if info.Some? then info.value.treatment else Steps([]),
      "/uploads/" + filename)
  }

  /** A label absent from the table degrades to empty descriptive fields instead of failing. */
  lemma UnknownLabelDegrades(t: Table, p: Prediction, filename: string)
    requires forall i :: 0 <= i < |t| ==> t[i].key != p.disease
    ensures BuildResponse(t, p, filename) ==
              PredictionBody(Ascii.Title(p.disease), p.disease, p.confidence, "", [], "", [], Steps([]),
                             "/uploads/" + filename)
  {
  }

  /** A label that is a key of the table is answered with that key's whole record. */
  lemma KnownLabelUsesRecord(t: Table, p: Prediction, filename: string, i: nat)
    requires DistinctKeys(t) && i < |t| && t[i].key == p.disease
    ensures var r := BuildResponse(t, p, filename);
            && r.description == t[i].info.description
            && r.symptoms == t[i].info.symptoms
            && r.causes == t[i].info.causes
            && r.prevention == t[i].info.prevention
            && r.treatment == t[i].info.treatment
  {
  }

  /** Every label of the shipped table is answered with a non-empty description. */
  lemma KnownLabelsDescribed(p: Prediction, filename: string, i: nat)
    requires i < |DiseaseInfo| && p.disease == DiseaseInfo[i].key
    ensures BuildResponse(DiseaseInfo, p, filename).description != ""
  {
    DiseaseInfoDistinct();
    DiseaseInfoDescribed();
    KnownLabelUsesRecord(DiseaseInfo, p, filename, i);
  }

  /** `os.path.join(a, b)` on POSIX for two components. */
  function JoinPath(a: string, b: string): (r: string)
    ensures |b| > 0 && b[0] == '/' ==> r == b
    ensures !(|b| > 0 && b[0] == '/') ==> |r| >= |a| + |b| && r[..|a|] == a && r[|r| - |b|..] == b
    ensures !(|b| > 0 && b[0] == '/') ==>
              r[|a|..|r| - |b|] == (if a == [] || a[|a| - 1] == '/' then "" else "/")
  {
    if |b| > 0 && b[0] == '/' then b
    else if a == [] || a[|a| - 1] == '/' then a + b
    else a + "/" + b
  }

  /**
   * The `/api/predict` route. `contentLength` is the length of the request
   * body, `timestamp` is the formatted clock reading,
   * `secureFilename` stands for werkzeug's `secure_filename`, `saveError` is
   * the message of a failing `file.save`, and `plan` and `inference` are the
   * outcomes of the library calls inside `predict_disease`. `saved` is the name
   * written to the upload folder, if any.
   */
  method ApiPredict(
    store: ModelStore,
    contentLength: nat,
    files: map<string, FileStorage>,
    timestamp: string,
    secureFilename: string -> string,
    uploadFolder: string,
    saveError: Option<string>,
    plan: LoadPlan,
    inference: Inference)
    returns (response: Response, saved: Option<string>)
    modifies store
    ensures BodyTooLarge(contentLength) ==>
              && response == Response(InternalServerError, ErrorBody(RequestTooLargeMessage))
              && saved == None
              && store.State() == old(store.State())
    ensures !BodyTooLarge(contentLength) && CheckUpload(files).Failure? ==>
              && response == Response(BadRequest, ErrorBody(RejectionMessage(CheckUpload(files).error)))
              && saved == None
              && store.State() == old(store.State())
    ensures !BodyTooLarge(contentLength) && CheckUpload(files).Success? && saveError.Some? ==>
              && response == Response(InternalServerError, ErrorBody(saveError.value))
              && saved == None
              && store.State() == old(store.State())
    ensures !BodyTooLarge(contentLength) && CheckUpload(files).Success? && saveError.None? ==>
              var filename := secureFilename(timestamp + "_" + files["file"].filename);
              var outcome := Predict(old(store.State()), plan, JoinPath(uploadFolder, filename), inference);
              && saved == Some(filename)
              && store.State() == outcome.globals
              && response == match outcome.result
                             case Failure(e) => Response(InternalServerError, ErrorBody(Message(e)))
                             case Success(p) => Response(Ok, BuildResponse(DiseaseInfo, p, filename))
  {
    saved := None;
    if BodyTooLarge(contentLength) {
      return Response(InternalServerError, ErrorBody(RequestTooLargeMessage)), None;
    }
    var checked := CheckUpload(files);
    if checked.Failure? {
      return Response(BadRequest, ErrorBody(RejectionMessage(checked.error))), None;
    }
    var filename := secureFilename(timestamp + "_" + checked.value.filename);
    var filepath := JoinPath(uploadFolder, filename);
    if saveError.Some? {
      return Response(InternalServerError, ErrorBody(saveError.value)), None;
    }
    saved := Some(filename);
    var result := store.PredictDisease(plan, filepath, inference);
    match result {
      case Failure(e) => response := Response(InternalServerError, ErrorBody(Message(e)));
      case Success(p) => response := Response(Ok, BuildResponse(DiseaseInfo, p, filename));
    }
  }
}
