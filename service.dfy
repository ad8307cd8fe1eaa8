/**
 * The HTTP endpoints: `/predict`, `/predict/batch`, `/` and `/health`.
 * A model's `predict` and `predict_proba` are foreign calls; they are given
 * as an `Estimator` whose functions return `None` when the call raises.
 */
module Service {
  import opened Wrappers
  import opened Loader
  import opened Selection
  import opened Features

  /** `model.predict(frame)[0]` and `model.predict_proba(frame)[0][1]`. */
  datatype Estimator = Estimator(
    predict: (Model, Frame) -> Option<int>,
    proba: (Model, Frame) -> Option<real>)

  /** The body of a successful prediction response. */
  datatype Prediction = Prediction(prediction: int, probability: real, modelUsed: string)

  /** What a request handler raises: the 503 `HTTPException`, or an exception out of the model. */
  datatype Raised = Unavailable | InferenceFailed

  /** The status code an exception carries when it reaches the framework uncaught. */
  function Status(e: Raised): int {
    if e == Unavailable then 503 else 500
  }

  datatype Outcome<T> = Done(value: T) | Threw(error: Raised)

  /** What the client receives: a body, or an error status. */
  datatype Response<T> = Success(body: T) | HttpError(status: int)

  /** Both model calls on one frame, with the name of the slot that served it. */
  function Infer(est: Estimator, choice: Choice, frame: Frame): (r: Outcome<Prediction>)
    ensures r.Done? <==> est.predict(choice.model, frame).Some? && est.proba(choice.model, frame).Some?
    ensures r.Done? ==> r.value == Prediction(
      est.predict(choice.model, frame).value, est.proba(choice.model, frame).value, choice.name)
  {
    var predicted := est.predict(choice.model, frame);
    if predicted.None? then Threw(InferenceFailed)
    else
      var positive := est.proba(choice.model, frame);
      if positive.None? then Threw(InferenceFailed)
      else Done(Prediction(predicted.value, positive.value, choice.name))
  }

  /**
   * The `try` block of `/predict` once its table is built: select a model by
   * the preference, raise the 503 when there is none, call the model.
   */
  function PredictBody(modelType: string, lr: Option<Model>, rf: Option<Model>, est: Estimator, features: Frame)
    : (r: Outcome<Prediction>)
    ensures r == Threw(Unavailable) <==> lr.None? && rf.None?
    ensures lr.Some? || rf.Some? ==> r == Infer(est, Select(modelType, lr, rf).value, features)
  {
    var choice := Select(modelType, lr, rf);
    if choice.None? then Threw(Unavailable)
    else Infer(est, choice.value, features)
  }

  /**
   * `/predict`: builds the numeric-first table, and the blanket
   * `except Exception` turns every exception, the 503 included, into a 500.
   */
  function Predict(modelType: string, lr: Option<Model>, rf: Option<Model>, est: Estimator, x: Input)
    : (r: Response<Prediction>)
    ensures r.HttpError? ==> r.status == 500
    ensures r.HttpError? <==> PredictBody(modelType, lr, rf, est, SingleRow(x)).Threw?
    ensures r.Success? ==> PredictBody(modelType, lr, rf, est, SingleRow(x)) == Done(r.body)
    ensures r.Success? ==> r.body.modelUsed == Select(modelType, lr, rf).value.name
  {
    match PredictBody(modelType, lr, rf, est, SingleRow(x))
    case Done(p) => Success(p)
    case Threw(_) => HttpError(500)
  }

  /**
   * `/predict` as the handler evidently means it: each field under its own
   * column name, and the 503 let through to the client.
   */
  function IntendedPredict(modelType: string, lr: Option<Model>, rf: Option<Model>, est: Estimator, x: Input)
    : (r: Response<Prediction>)
    ensures r == HttpError(503) <==> lr.None? && rf.None?
    ensures r.HttpError? ==> r.status == 503 || r.status == 500
    ensures lr.Some? || rf.Some? ==>
      (r.Success? <==> Infer(est, Select(modelType, lr, rf).value, IntendedSingleRow(x)).Done?)
    ensures r.Success? ==> Infer(est, Select(modelType, lr, rf).value, IntendedSingleRow(x)) == Done(r.body)
  {
    match PredictBody(modelType, lr, rf, est, IntendedSingleRow(x))
    case Done(p) => Success(p)
    case Threw(e) => HttpError(Status(e))
  }

  /** With no model loaded, `/predict` raises the 503 but the client receives a 500. */
  lemma PredictReportsUnavailableAs500(modelType: string, est: Estimator, x: Input)
    ensures PredictBody(modelType, None, None, est, SingleRow(x)) == Threw(Unavailable)
    ensures Status(Unavailable) == 503
    ensures Predict(modelType, None, None, est, x) == HttpError(500)
    ensures IntendedPredict(modelType, None, None, est, x) == HttpError(503)
  {
  }

  /** One pass of the batch loop: build the table, select by the batch rule, call the model. */
  function BatchItem(lr: Option<Model>, rf: Option<Model>, est: Estimator, x: Input): (r: Outcome<Prediction>)
    ensures r == Threw(Unavailable) <==> lr.None? && rf.None?
    ensures lr.Some? || rf.Some? ==> r == Infer(est, BatchSelect(lr, rf).value, BatchRow(x))
  {
    var choice := BatchSelect(lr, rf);
    if choice.None? then Threw(Unavailable)
    else Infer(est, choice.value, BatchRow(x))
  }

  /**
   * `/predict/batch`: one result per input, in input order; the first
   * exception aborts the whole batch with a 500.
   */
  method PredictBatch(inputs: seq<Input>, lr: Option<Model>, rf: Option<Model>, est: Estimator)
    returns (r: Response<seq<Prediction>>)
    ensures r.Success? <==> forall i :: 0 <= i < |inputs| ==> BatchItem(lr, rf, est, inputs[i]).Done?
    ensures r.Success? ==> |r.body| == |inputs|
    ensures r.Success? ==> forall i :: 0 <= i < |inputs| ==> r.body[i] == BatchItem(lr, rf, est, inputs[i]).value
    ensures r.HttpError? ==> r.status == 500
    ensures inputs == [] ==> r == Success([])
    ensures inputs != [] && lr.None? && rf.None? ==> r == HttpError(500)
  {
    var results: seq<Prediction> := [];
    var i := 0;
    while i < |inputs|
      invariant 0 <= i <= |inputs|
      invariant |results| == i
      invariant forall j :: 0 <= j < i ==>
        BatchItem(lr, rf, est, inputs[j]).Done? && results[j] == BatchItem(lr, rf, est, inputs[j]).value
    {
      var features := BatchRow(inputs[i]);
      var choice := BatchSelect(lr, rf);
      if choice.None? {
        return HttpError(500);
      }
      var outcome := Infer(est, choice.value, features);
      if outcome.Threw? {
        return HttpError(500);
      }
      results := results + [outcome.value];
      i := i + 1;
    }
    assert inputs != [] ==> BatchItem(lr, rf, est, inputs[0]).Done?;
    return Success(results);
  }

  /** `model_lr is not None or model_rf is not None`. */
  function ModelLoaded(lr: Option<Model>, rf: Option<Model>): bool {
    lr.Some? || rf.Some?
  }

  datatype RootReply = RootReply(message: string, status: string, modelLoaded: bool, modelType: string)
  datatype HealthReply = HealthReply(status: string, modelLoaded: bool)

  /** `GET /`: reports the preference and whether `/predict` can select a model. */
  function Root(modelType: string, lr: Option<Model>, rf: Option<Model>): (r: RootReply)
    ensures r.message == "Heart Disease Prediction API" && r.status == "running"
    ensures r.modelLoaded <==> Select(modelType, lr, rf).Some?
    ensures r.modelType == modelType
  {
    RootReply("Heart Disease Prediction API", "running", ModelLoaded(lr, rf), modelType)
  }

  /** `GET /health`: always "healthy"; `model_loaded` tells whether any model can be selected. */
  function Health(lr: Option<Model>, rf: Option<Model>): (r: HealthReply)
    ensures r.status == "healthy"
    ensures r.modelLoaded <==> BatchSelect(lr, rf).Some?
  {
    HealthReply("healthy", ModelLoaded(lr, rf))
  }

  /** The health flag is false exactly when `/predict` fails for want of a model, whatever the preference. */
  lemma HealthMatchesAvailability(modelType: string, lr: Option<Model>, rf: Option<Model>, est: Estimator, x: Input)
    ensures !Health(lr, rf).modelLoaded <==> PredictBody(modelType, lr, rf, est, SingleRow(x)) == Threw(Unavailable)
  {
  }

  /**
   * After start-up the service reports a model exactly when some candidate
   * file exists, belongs to a category and loads.
   */
  lemma StartupLoaded(env: Environment)
    ensures var cs := Candidates(env);
      ModelLoaded(Scan(cs, Linear, None), Scan(cs, Forest, None)) <==>
      exists k :: 0 <= k < |cs| && (LoadsInto(cs[k], Linear) || LoadsInto(cs[k], Forest))
  {
    var cs := Candidates(env);
    ScanFills(cs, Linear, None);
    ScanFills(cs, Forest, None);
  }

  /**
   * `/predict` and `/predict/batch` use the same model for a record when the
   * preference is linear-first or only one slot is filled; they still hand the
   * model different tables.
   */
  lemma BatchAgreesWithPredictOnModel(modelType: string, lr: Option<Model>, rf: Option<Model>)
    requires PrefersLinear(modelType) || lr.None? || rf.None?
    ensures BatchSelect(lr, rf) == Select(modelType, lr, rf)
  {
  }
}
