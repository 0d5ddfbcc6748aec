/**
 * The lazily loaded classifier of `predict_disease`: the module globals
 * `cnn_feature_extractor`, `xgb_classifier`, `label_encoder` and
 * `MODELS_LOADED`, the three loading steps that assign them, and the
 * re-wrapping of every failure into a message.
 *
 * Loading and inference are library calls; each loading step's outcome and
 * the outcome of decoding and classifying the image are inputs here.
 */
module Models {
  import opened Wrappers

  /** Identities of the artifacts a successful loading step produces. */
  datatype CnnModel = CnnModel(id: nat)
  datatype Booster = Booster(id: nat)

  /** One loading call: the artifact it produced, or the message of the exception it raised. */
  datatype Attempt<T> = Loaded(value: T) | LoadFailed(message: string)

  /**
   * What each loading step does on one attempt: `load_model` of the CNN file,
   * `load_model` of the XGBoost file, `np.load` of the label-encoder classes.
   */
  datatype LoadPlan = LoadPlan(cnn: Attempt<CnnModel>, booster: Attempt<Booster>, classes: Attempt<seq<string>>)

  predicate AllLoaded(plan: LoadPlan) {
    plan.cnn.Loaded? && plan.booster.Loaded? && plan.classes.Loaded?
  }

  /** An `XGBClassifier()`, fitted once `load_model` has succeeded on it. */
  datatype XgbClassifier = XgbClassifier(booster: Option<Booster>)

  datatype LabelEncoder = LabelEncoder(classes: seq<string>)

  /** The four module globals; `None` is Python's `None`. */
  datatype Globals = Globals(
    cnn: Option<CnnModel>,
    xgb: Option<XgbClassifier>,
    encoder: Option<LabelEncoder>,
    modelsLoaded: bool)

  /** The globals before the import-time load. */
  const Unset := Globals(None, None, None, false)

  /** Every handle inference uses is present and the classifier is fitted. */
  predicate Ready(g: Globals) {
    g.cnn.Some? && g.xgb.Some? && g.xgb.value.booster.Some? && g.encoder.Some?
  }

  /** The flag is only ever set with all three handles in place. */
  predicate Consistent(g: Globals) {
    g.modelsLoaded ==> Ready(g)
  }

  /** The guard of the load branch: `not MODELS_LOADED or cnn_feature_extractor is None`. */
  predicate NeedsLoad(g: Globals) {
    !g.modelsLoaded || g.cnn.None?
  }

  /** The globals after a load, and the message of the step that failed, if one did. */
  datatype LoadOutcome = LoadOutcome(globals: Globals, failure: Option<string>)

  /**
   * The three loading steps in order. Each assignment stays in effect when a
   * later step fails: the CNN handle is replaced first, then the classifier by
   * a fresh unfitted one that `load_model` then fits, then the encoder; the
   * flag is set only after the last step.
   */
  function Load(g: Globals, plan: LoadPlan): (r: LoadOutcome)
    ensures r.failure.None? ==> r.globals.modelsLoaded && Ready(r.globals)
    ensures !g.modelsLoaded ==> Consistent(r.globals)
  {
    match plan.cnn
    case LoadFailed(m) => LoadOutcome(g, Some(m))
    case Loaded(c) =>
      var withCnn := g.(cnn := Some(c), xgb := Some(XgbClassifier(None)));
      match plan.booster
      case LoadFailed(m) => LoadOutcome(withCnn, Some(m))
      case Loaded(b) =>
        var withXgb := withCnn.(xgb := Some(XgbClassifier(Some(b))));
        match plan.classes
        case LoadFailed(m) => LoadOutcome(withXgb, Some(m))
        case Loaded(cls) => LoadOutcome(withXgb.(encoder := Some(LabelEncoder(cls)), modelsLoaded := true), None)
  }

  /** The globals after a load in which all three steps succeeded. */
  function FullyLoaded(plan: LoadPlan): Globals
    requires AllLoaded(plan)
  {
    Globals(Some(plan.cnn.value), Some(XgbClassifier(Some(plan.booster.value))),
            Some(LabelEncoder(plan.classes.value)), true)
  }

  /** A load succeeds exactly when all three steps do; it then holds those three artifacts. */
  lemma LoadSucceedsIffAllSteps(g: Globals, plan: LoadPlan)
    ensures Load(g, plan).failure.None? <==> AllLoaded(plan)
    ensures AllLoaded(plan) ==> Load(g, plan).globals == FullyLoaded(plan)
  {
  }

  /** A failed load never touches the flag, so the flag is true afterwards only if it was before. */
  lemma FailedLoadKeepsFlag(g: Globals, plan: LoadPlan)
    requires !AllLoaded(plan)
    ensures Load(g, plan).globals.modelsLoaded == g.modelsLoaded
    ensures Load(g, plan).failure.Some?
  {
  }

  /**
   * The CNN loads and the XGBoost file then fails: the new CNN handle and an
   * unfitted classifier stay assigned, the encoder and flag are untouched.
   */
  lemma PartialLoad(g: Globals, plan: LoadPlan)
    requires plan.cnn.Loaded? && plan.booster.LoadFailed?
    ensures Load(g, plan) == LoadOutcome(
              Globals(Some(plan.cnn.value), Some(XgbClassifier(None)), g.encoder, g.modelsLoaded),
              Some(plan.booster.message))
  {
  }

  datatype Prediction = Prediction(disease: string, confidence: real)

  /**
   * What decoding and classifying the saved image does: `process_image` finds
   * no image, a library call raises, or a label and confidence come back.
   */
  datatype Inference = ImageUnreadable | InferenceFailed(message: string) | Predicted(prediction: Prediction)

  /** The failures `predict_disease` re-raises, each with its fixed message prefix. */
  datatype PredictError = LoadError(cause: string) | ImageNotFound(path: string) | InferenceError(cause: string)

  const PredictionErrorPrefix := "Prediction error: "
  const LoadErrorPrefix := "Failed to load models: "
  const ImageNotFoundPrefix := "Image not found at path: "

  /** `str(e)` of the exception `predict_disease` raises. */
  function Message(e: PredictError): (r: string)
    ensures |r| >= |PredictionErrorPrefix|
    ensures e.ImageNotFound? ==> |r| >= |e.path| && r[|r| - |e.path|..] == e.path
    ensures !e.ImageNotFound? ==> |r| >= |e.cause| && r[|r| - |e.cause|..] == e.cause
  {
    match e
    case LoadError(cause) => PredictionErrorPrefix + LoadErrorPrefix + cause
    case ImageNotFound(path) => PredictionErrorPrefix + ImageNotFoundPrefix + path
    case InferenceError(cause) => PredictionErrorPrefix + cause
  }

  /**
   * Every message is the outer prefix followed by the text of the caught
   * exception: the inner prefix and the cause for a load failure, the
   * `process_image` prefix and the path for a missing image, the bare cause otherwise.
   */
  lemma MessagePrefixes(e: PredictError)
    ensures |PredictionErrorPrefix| <= |Message(e)|
    ensures Message(e)[..|PredictionErrorPrefix|] == PredictionErrorPrefix
    ensures e.LoadError? ==>
              Message(e)[..|PredictionErrorPrefix + LoadErrorPrefix|] == PredictionErrorPrefix + LoadErrorPrefix
              && Message(e)[|PredictionErrorPrefix + LoadErrorPrefix|..] == e.cause
    ensures e.ImageNotFound? ==> Message(e)[|PredictionErrorPrefix|..] == ImageNotFoundPrefix + e.path
    ensures e.InferenceError? ==> Message(e)[|PredictionErrorPrefix|..] == e.cause
  {
  }

  function Classify(imagePath: string, inference: Inference): (r: Result<Prediction, PredictError>)
    ensures r.Success? <==> inference.Predicted?
    ensures r.Success? ==> r.value == inference.prediction
    ensures r.Failure? ==> !r.error.LoadError?
    ensures inference.ImageUnreadable? ==> r == Failure(ImageNotFound(imagePath))
    ensures inference.InferenceFailed? ==> r == Failure(InferenceError(inference.message))
  {
    match inference
    case ImageUnreadable => Failure(ImageNotFound(imagePath))
    case InferenceFailed(m) => Failure(InferenceError(m))
    case Predicted(p) => Success(p)
  }

  datatype PredictOutcome = PredictOutcome(globals: Globals, result: Result<Prediction, PredictError>)

  /** One call of `predict_disease`: load when the guard says so, then classify. */
  function Predict(g: Globals, plan: LoadPlan, imagePath: string, inference: Inference): (r: PredictOutcome)
    ensures Consistent(g) && r.result.Success? ==> Ready(r.globals)
    ensures r.globals.modelsLoaded <==> g.modelsLoaded || (NeedsLoad(g) && AllLoaded(plan))
  {
    if NeedsLoad(g) then
      var loaded := Load(g, plan);
      if loaded.failure.Some? then PredictOutcome(loaded.globals, Failure(LoadError(loaded.failure.value)))
      else PredictOutcome(loaded.globals, Classify(imagePath, inference))
    else PredictOutcome(g, Classify(imagePath, inference))
  }

  /** With consistent globals the guard is just "the flag is not set". */
  lemma GuardIsFlag(g: Globals)
    requires Consistent(g)
    ensures NeedsLoad(g) <==> !g.modelsLoaded
  {
  }

  /** A call that does not need a load leaves the globals alone and never reports a load failure. */
  lemma LoadedSkipsLoad(g: Globals, plan: LoadPlan, imagePath: string, inference: Inference)
    requires !NeedsLoad(g)
    ensures Predict(g, plan, imagePath, inference).globals == g
    ensures Predict(g, plan, imagePath, inference).result == Classify(imagePath, inference)
  {
  }

  /** A call reports a load failure exactly when it needed a load and some loading step failed. */
  lemma LoadErrorIff(g: Globals, plan: LoadPlan, imagePath: string, inference: Inference)
    ensures Predict(g, plan, imagePath, inference).result.Failure?
            && Predict(g, plan, imagePath, inference).result.error.LoadError?
            <==> NeedsLoad(g) && !AllLoaded(plan)
  {
  }

  /** Every call keeps the globals consistent. */
  lemma PredictKeepsConsistent(g: Globals, plan: LoadPlan, imagePath: string, inference: Inference)
    requires Consistent(g)
    ensures Consistent(Predict(g, plan, imagePath, inference).globals)
  {
  }

  /** A call whose load fails leaves the flag unset, so the next call loads again. */
  lemma FailedLoadRetries(g: Globals, plan: LoadPlan, imagePath: string, inference: Inference)
    requires Consistent(g) && NeedsLoad(g) && !AllLoaded(plan)
    ensures !Predict(g, plan, imagePath, inference).globals.modelsLoaded
    ensures NeedsLoad(Predict(g, plan, imagePath, inference).globals)
  {
  }

  /**
   * A load that assigns the CNN and then fails on the XGBoost file leaves the
   * flag unset, so the next call repeats all three steps, the CNN included.
   */
  lemma PartialLoadThenFullReload(g: Globals, first: LoadPlan, second: LoadPlan, imagePath: string, inference: Inference)
    requires !g.modelsLoaded
    requires first.cnn.Loaded? && first.booster.LoadFailed?
    requires AllLoaded(second)
    ensures Predict(g, first, imagePath, inference).globals.cnn == Some(first.cnn.value)
    ensures !Predict(g, first, imagePath, inference).globals.modelsLoaded
    ensures Predict(Predict(g, first, imagePath, inference).globals, second, imagePath, inference).globals
              == FullyLoaded(second)
  {
  }

  /** One call of `predict_disease` in a sequence of calls. */
  datatype Call = Call(plan: LoadPlan, imagePath: string, inference: Inference)

  /** The globals after a sequence of calls. */
  function Run(g: Globals, calls: seq<Call>): Globals
    decreases |calls|
  {
    if calls == [] then g
    else Run(Predict(g, calls[0].plan, calls[0].imagePath, calls[0].inference).globals, calls[1..])
  }

  /** Once loaded, no later call changes the globals. */
  lemma {:induction false} LoadedIsFinal(g: Globals, calls: seq<Call>)
    requires !NeedsLoad(g)
    ensures Run(g, calls) == g
    decreases |calls|
  {
    if calls != [] {
      LoadedSkipsLoad(g, calls[0].plan, calls[0].imagePath, calls[0].inference);
      LoadedIsFinal(g, calls[1..]);
    }
  }

  /**
   * After a sequence of calls the flag is set exactly when it was set before or
   * some call found all three loading steps succeeding.
   */
  lemma {:induction false} FlagSetIffSomeLoadSucceeded(g: Globals, calls: seq<Call>)
    ensures Run(g, calls).modelsLoaded <==>
              g.modelsLoaded || exists k :: 0 <= k < |calls| && AllLoaded(calls[k].plan)
    decreases |calls|
  {
    if calls != [] {
      var c := calls[0];
      var next := Predict(g, c.plan, c.imagePath, c.inference).globals;
      assert next.modelsLoaded <==> g.modelsLoaded || AllLoaded(c.plan);
      FlagSetIffSomeLoadSucceeded(next, calls[1..]);
      if exists k :: 0 <= k < |calls| && AllLoaded(calls[k].plan) {
        var k :| 0 <= k < |calls| && AllLoaded(calls[k].plan);
        if k > 0 {
          assert AllLoaded(calls[1..][k - 1].plan);
        }
      }
      if exists k :: 0 <= k < |calls| - 1 && AllLoaded(calls[1..][k].plan) {
        var k :| 0 <= k < |calls| - 1 && AllLoaded(calls[1..][k].plan);
        assert AllLoaded(calls[k + 1].plan);
      }
    }
  }

  /**
   * The module globals, updated in place. The constructor runs the import-time
   * load; `PredictDisease` is one call of `predict_disease`.
   */
  class ModelStore {
    var cnn: Option<CnnModel>
    var xgb: Option<XgbClassifier>
    var encoder: Option<LabelEncoder>
    var modelsLoaded: bool

    function State(): Globals
      reads this
    {
      Globals(cnn, xgb, encoder, modelsLoaded)
    }

    /** Module import: all handles start as `None` and the three loading steps run once. */
    constructor (plan: LoadPlan)
      ensures State() == Load(Unset, plan).globals
      ensures Consistent(State())
      ensures modelsLoaded <==> AllLoaded(plan)
    {
      cnn, xgb, encoder, modelsLoaded := None, None, None, false;
      new;
      var failure := LoadArtifacts(plan);
    }

    /** The three loading steps, assigning each global as its step succeeds. */
    method LoadArtifacts(plan: LoadPlan) returns (failure: Option<string>)
      modifies this
      ensures State() == Load(old(State()), plan).globals
      ensures failure == Load(old(State()), plan).failure
    {
      match plan.cnn {
        case LoadFailed(m) => return Some(m);
        case Loaded(c) => cnn := Some(c);
      }
      xgb := Some(XgbClassifier(None));
      match plan.booster {
        case LoadFailed(m) => return Some(m);
        case Loaded(b) => xgb := Some(XgbClassifier(Some(b)));
      }
      match plan.classes {
        case LoadFailed(m) => return Some(m);
        case Loaded(cls) => encoder := Some(LabelEncoder(cls));
      }
      modelsLoaded := true;
      return None;
    }

    /** `predict_disease`: load if the guard says so, re-wrap a load failure, then classify. */
    method PredictDisease(plan: LoadPlan, imagePath: string, inference: Inference)
      returns (result: Result<Prediction, PredictError>)
      modifies this
      ensures State() == Predict(old(State()), plan, imagePath, inference).globals
      ensures result == Predict(old(State()), plan, imagePath, inference).result
    {
      if !modelsLoaded || cnn.None? {
        var failure := LoadArtifacts(plan);
        if failure.Some? {
          return Failure(LoadError(failure.value));
        }
      }
      result := Classify(imagePath, inference);
    }
  }
}
