/**
 * The prediction routes of backend/app/api/routes/predictions.py over the module-level
 * `predictions_store` dict, and the background worker `process_prediction`. The fresh uuid,
 * the `utcnow()` timestamps, the files found on disk, the outcome of loading them and the
 * answer of the model service are parameters.
 */
module Predictions {
  import opened Wrappers
  import opened Types
  import PyDict
  import MlService
  import DataProcessor

  const PredictionNotFound := "Prediction not found"
  const MissingFilesMessage := "One or more data files not found"

  /** The upload subdirectories `get_file_path` searches. */
  const UrbanDir := "urban"
  const ClimateDir := "climate"
  const HistoryDir := "historical-yields"

  /**
   * What the data processor makes of a stored file: the raster of `process_urban_data`, or the
   * grid `process_climate_data` reads for the named variable.
   */
  datatype Dataset = UrbanRaster(path: string) | ClimateGrid(path: string, variable: string)

  /**
   * The upload directory as `get_file_path` sees it: for a file id and a subdirectory, the path
   * of the first file the `<id>.*` glob matches. A missing key is a lookup that returns `None`.
   */
  type FileIndex = map<(string, string), string>

  /** The three lookups the worker cannot do without all succeed. */
  predicate RequiredFilesPresent(request: PredictionRequest, files: FileIndex)
  {
    && (request.urbanDataId, UrbanDir) in files
    && (request.temperatureDataId, ClimateDir) in files
    && (request.precipitationDataId, ClimateDir) in files
  }

  /**
   * The optional historical dataset: looked up only for a truthy id, and `None`, not an error,
   * when nothing is found.
   */
  function HistoryInput(request: PredictionRequest, files: FileIndex): (r: Option<Dataset>)
    ensures r.Some? <==>
              Truthy(request.historicalYieldDataId) && (request.historicalYieldDataId.value, HistoryDir) in files
    ensures r.Some? ==> r.value == ClimateGrid(files[(request.historicalYieldDataId.value, HistoryDir)], "yield")
  {
    if Truthy(request.historicalYieldDataId) && (request.historicalYieldDataId.value, HistoryDir) in files then
      Some(ClimateGrid(files[(request.historicalYieldDataId.value, HistoryDir)], "yield"))
    else None
  }

  /**
   * The record the worker hands to the model service, or `None` when a required file is
   * missing and the worker raises before building one.
   */
  function ModelInput(request: PredictionRequest, files: FileIndex): (r: Option<map<string, Option<Dataset>>>)
    ensures r.Some? <==> RequiredFilesPresent(request, files)
    ensures r.Some? ==>
              && r.value.Keys == {DataProcessor.UrbanExpansionKey, DataProcessor.TemperatureKey,
                                  DataProcessor.PrecipitationKey, DataProcessor.HistoricalYieldsKey}
              && r.value[DataProcessor.UrbanExpansionKey] == Some(UrbanRaster(files[(request.urbanDataId, UrbanDir)]))
              && r.value[DataProcessor.TemperatureKey] ==
                   Some(ClimateGrid(files[(request.temperatureDataId, ClimateDir)], "temperature"))
              && r.value[DataProcessor.PrecipitationKey] ==
                   Some(ClimateGrid(files[(request.precipitationDataId, ClimateDir)], "precipitation"))
              && r.value[DataProcessor.HistoricalYieldsKey] == HistoryInput(request, files)
  {
    if RequiredFilesPresent(request, files) then
      Some(DataProcessor.PrepareModelInput(
             UrbanRaster(files[(request.urbanDataId, UrbanDir)]),
             ClimateGrid(files[(request.temperatureDataId, ClimateDir)], "temperature"),
             ClimateGrid(files[(request.precipitationDataId, ClimateDir)], "precipitation"),
             HistoryInput(request, files)))
    else None
  }

  /**
   * The `try` block of `process_prediction` up to the model call: the output of the model
   * service, or the text `str(e)` of the first exception. `requiredLoadError` is the message of
   * the exception one of the three required loads raises, if one does; `historyLoadError` that of
   * the history load, which happens only when the history file was found; `outcome` is what the
   * model service call returns.
   */
  function PipelineResult(
    request: PredictionRequest, files: FileIndex, requiredLoadError: Option<string>, historyLoadError: Option<string>,
    outcome: Result<MlService.ModelOutput, MlService.ServiceError>): (r: Result<MlService.ModelOutput, string>)
    ensures !RequiredFilesPresent(request, files) ==> r == Failure(MissingFilesMessage)
    ensures RequiredFilesPresent(request, files) && requiredLoadError.Some? ==> r == Failure(requiredLoadError.value)
    ensures RequiredFilesPresent(request, files) && requiredLoadError.None?
              && HistoryInput(request, files).Some? && historyLoadError.Some? ==>
              r == Failure(historyLoadError.value)
    ensures RequiredFilesPresent(request, files) && requiredLoadError.None?
              && (HistoryInput(request, files).None? || historyLoadError.None?) && outcome.Failure? ==>
              r == Failure(MlService.ExceptionText(MlService.PredictError(outcome.error)))
    ensures r.Success? <==>
              && RequiredFilesPresent(request, files) && requiredLoadError.None?
              && (HistoryInput(request, files).None? || historyLoadError.None?) && outcome.Success?
    ensures r.Success? ==> r.value == outcome.value
  {
    if !RequiredFilesPresent(request, files) then Failure(MissingFilesMessage)
    else if requiredLoadError.Some? then Failure(requiredLoadError.value)
    else if HistoryInput(request, files).Some? && historyLoadError.Some? then Failure(historyLoadError.value)
    else if outcome.Failure? then Failure(MlService.ExceptionText(MlService.PredictError(outcome.error)))
    else Success(outcome.value)
  }

  /**
   * The field assignments that end the worker. On success the status and map are set before
   * `ModelMetrics(...)` is built; when it accepts the metrics, the metrics, confidence and
   * completion time follow. When it refuses one, the `except` clause marks the record failed
   * with `validationText`, the text of that `ValidationError`, keeping the map already
   * assigned. On a pipeline failure the status and error are set. Every path sets the
   * completion time; nothing else of the record changes.
   */
  function Settle(
    p: PredictionResponse, result: Result<MlService.ModelOutput, string>, validationText: string, now: string)
    : (q: PredictionResponse)
    ensures q.status == if result.Success? && MlService.MetricsFrom(result.value).Success? then Completed else Failed
    ensures q.id == p.id && q.createdAt == p.createdAt && q.completedAt == Some(now)
    ensures result.Success? && MlService.MetricsFrom(result.value).Success? ==>
              && q.predictionMap == result.value.predictionMap
              && q.metrics == MlService.MetricsFrom(result.value).value
              && q.confidence == result.value.confidence
              && q.error == p.error
    ensures result.Success? && MlService.MetricsFrom(result.value).Failure? ==>
              q == p.(status := Failed, predictionMap := result.value.predictionMap,
                      error := Some(validationText), completedAt := Some(now))
    ensures result.Failure? ==>
              q == p.(status := Failed, error := Some(result.error), completedAt := Some(now))
  {
    match result
    case Success(output) =>
      (match MlService.MetricsFrom(output)
       case Success(metrics) =>
         p.(status := Completed,
            predictionMap := output.predictionMap,
            metrics := metrics,
            confidence := output.confidence,
            completedAt := Some(now))
       case Failure(_) =>
         p.(status := Failed,
            predictionMap := output.predictionMap,
            error := Some(validationText),
            completedAt := Some(now)))
    case Failure(message) =>
      p.(status := Failed, error := Some(message), completedAt := Some(now))
  }

  /**
   * The worker never leaves a record it found pending or processing, and it completes exactly
   * when the pipeline succeeds and the metrics are accepted.
   */
  lemma SettledIsFinal(p: PredictionResponse, result: Result<MlService.ModelOutput, string>, validationText: string, now: string)
    ensures Settle(p, result, validationText, now).status != Pending
    ensures Settle(p, result, validationText, now).status != Processing
    ensures Settle(p, result, validationText, now).status == Completed <==>
              result.Success? && MlService.MetricsFrom(result.value).Success?
  {
  }

  /**
   * A completed record carries the same map, metrics and confidence as the response
   * `format_prediction_response` builds from the same output, and the worker completes exactly
   * when that function does not raise.
   */
  lemma CompletedAgreesWithFormat(p: PredictionResponse, output: MlService.ModelOutput, validationText: string, now: string)
    requires p.error == None
    ensures
      var q := Settle(p, Success(output), validationText, now);
      var f := MlService.FormatPredictionResponse(output, p.id);
      && (q.status == Completed <==> f.Success?)
      && (f.Success? ==> q.(createdAt := f.value.createdAt, completedAt := f.value.completedAt) == f.value)
  {
  }

  /**
   * A failed record can still carry a prediction map: a refused metric fails the record after
   * the map was assigned.
   */
  lemma RefusedMetricKeepsMap(p: PredictionResponse, output: MlService.ModelOutput, validationText: string, now: string)
    requires output.metrics && output.mae == Some(MlService.NotNumber) && output.predictionMap.Some?
    ensures Settle(p, Success(output), validationText, now).status == Failed
    ensures Settle(p, Success(output), validationText, now).predictionMap == output.predictionMap
    ensures Settle(p, Success(output), validationText, now).error == Some(validationText)
  {
    MlService.NullMetricIsRefused(output);
  }

  /**
   * A history file that is absent, or a request without a truthy history id, never changes the
   * outcome: the history load error is not consulted, and the result is the one for the same
   * request with no history id at all.
   */
  lemma HistoryIsOptional(
    request: PredictionRequest, files: FileIndex, requiredLoadError: Option<string>, historyLoadError: Option<string>,
    outcome: Result<MlService.ModelOutput, MlService.ServiceError>)
    requires HistoryInput(request, files).None?
    ensures PipelineResult(request, files, requiredLoadError, historyLoadError, outcome)
         == PipelineResult(request, files, requiredLoadError, None, outcome)
    ensures PipelineResult(request, files, requiredLoadError, historyLoadError, outcome)
         == PipelineResult(request.(historicalYieldDataId := None), files, requiredLoadError, historyLoadError, outcome)
  {
    assert HistoryInput(request.(historicalYieldDataId := None), files).None?;
  }

  /** Without a truthy history id nothing is looked up and the model gets `None` for the history. */
  lemma HistoryNeedsAnId(request: PredictionRequest, files: FileIndex)
    requires !Truthy(request.historicalYieldDataId) && RequiredFilesPresent(request, files)
    ensures ModelInput(request, files).Some?
    ensures ModelInput(request, files).value[DataProcessor.HistoricalYieldsKey] == None
  {
  }

  /** `predictions_store`: the predictions by id, with the insertion order of their ids. */
  class PredictionStore {
    var predictions: map<string, PredictionResponse>
    var order: seq<string>

    ghost predicate Valid()
      reads this
    {
      PyDict.Ordered(predictions, order)
    }

    constructor()
      ensures Valid()
      ensures predictions == map[] && order == []
    {
      predictions := map[];
      order := [];
    }

    /**
     * `create_prediction`: a pending record with only its id and creation time, stored under
     * the fresh id and returned. Scheduling the worker is not part of this step.
     */
    method Create(id: string, now: string) returns (p: PredictionResponse)
      requires Valid()
      modifies this
      ensures Valid()
      ensures p == PredictionResponse(id, Pending, None, None, None, now, None, None)
      ensures predictions == old(predictions)[id := p]
      ensures order == PyDict.InsertKey(old(order), id)
    {
      p := PredictionResponse(id, Pending, None, None, None, now, None, None);
      PyDict.InsertKeepsOrdered(predictions, order, id, p);
      predictions := predictions[id := p];
      order := PyDict.InsertKey(order, id);
    }

    /** `get_prediction`: the stored record, or 404. */
    method Get(id: string) returns (r: Result<PredictionResponse, HttpError>)
      ensures id in predictions ==> r == Success(predictions[id])
      ensures id !in predictions ==> r == Failure(HttpError(404, PredictionNotFound))
    {
      if id !in predictions {
        return Failure(HttpError(404, PredictionNotFound));
      }
      r := Success(predictions[id]);
    }

    /** `list_predictions`: every stored record once, in insertion order. */
    method List() returns (r: seq<PredictionResponse>)
      requires Valid()
      ensures |r| == |order|
      ensures forall i :: 0 <= i < |order| ==> r[i] == predictions[order[i]]
      ensures forall id :: id in predictions ==> predictions[id] in r
    {
      r := PyDict.Values(predictions, order);
      forall id | id in predictions
        ensures predictions[id] in r
      {
        var i := PyDict.IndexOf(order, id);
        assert r[i] == predictions[id];
      }
    }

    /**
     * The worker's first statement. For an absent id the subscript raises `KeyError`, which
     * the handler's own subscript raises again, so nothing changes and the worker ends.
     */
    method StartProcessing(id: string) returns (found: bool)
      requires Valid()
      modifies this
      ensures Valid()
      ensures found <==> old(id in predictions)
      ensures !found ==> predictions == old(predictions) && order == old(order)
      ensures found ==> predictions == old(predictions)[id := old(predictions[id]).(status := Processing)]
      ensures order == old(order)
    {
      if id !in predictions {
        return false;
      }
      predictions := predictions[id := predictions[id].(status := Processing)];
      found := true;
    }

    /** The closing assignments: the record under `id` is settled with the pipeline's result. */
    method Finish(id: string, result: Result<MlService.ModelOutput, string>, validationText: string, now: string)
      requires Valid() && id in predictions
      modifies this
      ensures Valid()
      ensures predictions == old(predictions)[id := Settle(old(predictions[id]), result, validationText, now)]
      ensures order == old(order)
    {
      predictions := predictions[id := Settle(predictions[id], result, validationText, now)];
    }

    /**
     * `process_prediction(prediction_id, request)` run to the end as one step. It returns the
     * record sent to the model service, if the worker got that far. A stored record ends
     * completed or failed, never pending or processing; an absent id changes nothing.
     */
    method ProcessPrediction(
      id: string, request: PredictionRequest, files: FileIndex,
      requiredLoadError: Option<string>, historyLoadError: Option<string>,
      outcome: Result<MlService.ModelOutput, MlService.ServiceError>, validationText: string, now: string)
      returns (sent: Option<map<string, Option<Dataset>>>)
      requires Valid()
      modifies this
      ensures Valid()
      ensures order == old(order)
      ensures old(id !in predictions) ==> predictions == old(predictions) && sent == None
      ensures old(id in predictions) ==>
                predictions == old(predictions)[id := Settle(old(predictions[id]).(status := Processing),
                                                             PipelineResult(request, files, requiredLoadError,
                                                                            historyLoadError, outcome),
                                                             validationText, now)]
      ensures old(id in predictions) ==>
                predictions[id].status == Completed || predictions[id].status == Failed
      ensures sent.Some? <==>
                && old(id in predictions) && RequiredFilesPresent(request, files) && requiredLoadError.None?
                && (HistoryInput(request, files).None? || historyLoadError.None?)
      ensures sent.Some? ==> sent == ModelInput(request, files)
    {
      var found := StartProcessing(id);
      if !found {
        return None;
      }
      var result := PipelineResult(request, files, requiredLoadError, historyLoadError, outcome);
      var reachesModel := RequiredFilesPresent(request, files) && requiredLoadError.None?
                          && (HistoryInput(request, files).None? || historyLoadError.None?);
      sent := if reachesModel then ModelInput(request, files) else None;
      Finish(id, result, validationText, now);
      SettledIsFinal(old(predictions[id]).(status := Processing), result, validationText, now);
    }
  }
}
