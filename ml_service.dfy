/**
 * The response shaping and error mapping of backend/app/services/ml_service.py. The HTTP call to
 * the model service is not modelled: its outcome is either a `ModelOutput` or a `ServiceError`.
 */
module MlService {
  import opened Wrappers
  import opened Types
  import Strings

  /**
   * A metric entry that is present in the reply. `Number(v)` is a value pydantic's `float`
   * accepts, read as `v`; `NotNumber` is one it refuses (`null`, a list, a non-numeric string).
   */
  datatype MetricEntry = Number(value: real) | NotNumber

  /**
   * The JSON object the model service answers with. Each field is `None` when the key is absent
   * (for `accuracy`, also when it is `null`, which `Optional[float]` accepts); `metrics` is the
   * truthiness of the `metrics` entry, the only thing the code asks of it.
   */
  datatype ModelOutput = ModelOutput(
    predictionMap: Option<string>,
    metrics: bool,
    mae: Option<MetricEntry>,
    rmse: Option<MetricEntry>,
    mse: Option<MetricEntry>,
    accuracy: Option<MetricEntry>,
    confidence: Option<real>,
    createdAt: Option<string>,
    completedAt: Option<string>)

  /** The entry is present and `ModelMetrics` refuses it. */
  predicate Refused(e: Option<MetricEntry>) {
    e == Some(NotNumber)
  }

  /** `model_output.get(key, 0.0)` for an accepted `float` field. */
  function ValueOrZero(e: Option<MetricEntry>): real
  {
    if e.Some? && e.value.Number? then e.value.value else 0.0
  }

  /** `model_output.get("accuracy")` for the accepted `Optional[float]` field. */
  function ValueOrNone(e: Option<MetricEntry>): Option<real>
  {
    if e.Some? && e.value.Number? then Some(e.value.value) else None
  }

  /** The fields `ModelMetrics(...)` reports in its `ValidationError`, in declaration order. */
  function RefusedFields(output: ModelOutput): (r: seq<string>)
    ensures |r| <= 4
    ensures "mae" in r <==> Refused(output.mae)
    ensures "rmse" in r <==> Refused(output.rmse)
    ensures "mse" in r <==> Refused(output.mse)
    ensures "accuracy" in r <==> Refused(output.accuracy)
    ensures r == [] <==> !Refused(output.mae) && !Refused(output.rmse) && !Refused(output.mse) && !Refused(output.accuracy)
  {
    (if Refused(output.mae) then ["mae"] else [])
    + (if Refused(output.rmse) then ["rmse"] else [])
    + (if Refused(output.mse) then ["mse"] else [])
    + (if Refused(output.accuracy) then ["accuracy"] else [])
  }

  /**
   * The `ModelMetrics(...) if model_output.get("metrics") else None` expression shared by
   * `format_prediction_response` and the prediction worker: no metrics for a falsy `metrics`;
   * otherwise the record, or the `ValidationError` its constructor raises, naming the refused
   * fields.
   */
  function MetricsFrom(output: ModelOutput): (m: Result<Option<ModelMetrics>, seq<string>>)
    ensures m == Success(None) <==> !output.metrics
    ensures m.Failure? <==>
              output.metrics
              && (Refused(output.mae) || Refused(output.rmse) || Refused(output.mse) || Refused(output.accuracy))
    ensures m.Failure? ==> m.error == RefusedFields(output) && m.error != []
    ensures m.Success? && m.value.Some? ==>
              && m.value.value.mae == (if output.mae.Some? then output.mae.value.value else 0.0)
              && m.value.value.rmse == (if output.rmse.Some? then output.rmse.value.value else 0.0)
              && m.value.value.mse == (if output.mse.Some? then output.mse.value.value else 0.0)
              && m.value.value.accuracy == (if output.accuracy.Some? then Some(output.accuracy.value.value) else None)
  {
    if !output.metrics then Success(None)
    else if RefusedFields(output) != [] then Failure(RefusedFields(output))
    else Success(Some(ModelMetrics(
      ValueOrZero(output.mae), ValueOrZero(output.rmse), ValueOrZero(output.mse), ValueOrNone(output.accuracy))))
  }

  /** A metric the service leaves out is reported as 0.0, never as missing. */
  lemma AbsentMetricsAreZero(output: ModelOutput)
    requires output.metrics && output.mae.None? && output.rmse.None? && output.mse.None?
    requires !Refused(output.accuracy)
    ensures MetricsFrom(output) == Success(Some(ModelMetrics(0.0, 0.0, 0.0, ValueOrNone(output.accuracy))))
  {
  }

  /** A present `null` is not an absent key: `"mae": null` makes the constructor raise. */
  lemma NullMetricIsRefused(output: ModelOutput)
    requires output.metrics && output.mae == Some(NotNumber)
    ensures MetricsFrom(output).Failure? && "mae" in MetricsFrom(output).error
  {
  }

  /**
   * `format_prediction_response(model_output, prediction_id)`: a completed response under the
   * given id, carrying the output's map, metrics and confidence. The creation time defaults to
   * the empty string, the completion time stays optional, and no error is recorded. When
   * `ModelMetrics(...)` refuses a metric, the `ValidationError` escapes instead.
   */
  function FormatPredictionResponse(output: ModelOutput, predictionId: string)
    : (r: Result<PredictionResponse, seq<string>>)
    ensures r.Failure? <==> MetricsFrom(output).Failure?
    ensures r.Failure? ==> r.error == RefusedFields(output)
    ensures r.Success? ==>
              && r.value.id == predictionId && r.value.status == Completed && r.value.error == None
              && r.value.predictionMap == output.predictionMap
              && Success(r.value.metrics) == MetricsFrom(output)
              && r.value.confidence == output.confidence
              && r.value.createdAt == output.createdAt.GetOr("") && r.value.completedAt == output.completedAt
  {
    match MetricsFrom(output)
    case Failure(fields) => Failure(fields)
    case Success(metrics) =>
      Success(PredictionResponse(
        predictionId,
        Completed,
        output.predictionMap,
        metrics,
        output.confidence,
        output.createdAt.GetOr(""),
        output.completedAt,
        None))
  }

  /** How the call to the model service can fail. */
  datatype ServiceError =
    | Timeout
    | UpstreamStatus(code: int, body: string)
    | OtherFailure(message: string)

  /**
   * The `except` clauses of `predict`: a timeout becomes 504, an upstream HTTP error keeps its own
   * status code and quotes the response body, anything else becomes 500.
   */
  function PredictError(e: ServiceError): (r: HttpError)
    ensures e.Timeout? ==> r == HttpError(504, "Model prediction request timed out")
    ensures e.UpstreamStatus? ==> r == HttpError(e.code, "Model service error: " + e.body)
    ensures e.OtherFailure? ==> r == HttpError(500, "Error calling model service: " + e.message)
  {
    match e
    case Timeout => HttpError(504, "Model prediction request timed out")
    case UpstreamStatus(code, body) => HttpError(code, "Model service error: " + body)
    case OtherFailure(message) => HttpError(500, "Error calling model service: " + message)
  }

  /** Any status other than 504 and 500 is one the model service itself sent. */
  lemma PredictErrorStatusOrigin(e: ServiceError)
    ensures PredictError(e).statusCode != 504 && PredictError(e).statusCode != 500 ==>
              e.UpstreamStatus? && e.code == PredictError(e).statusCode
  {
  }

  /** `str(e)` of an `HTTPException`: the status code, a colon and a space, then the detail. */
  function ExceptionText(e: HttpError): string
  {
    Strings.IntToString(e.statusCode) + ": " + e.detail
  }
}
