/**
 * The records shared by the frontend and the backend: the interfaces of
 * frontend/src/types/index.ts and the pydantic models of backend/app/models/schemas.py.
 * Floating-point fields are reals; optional fields are `Option`s.
 */
module Types {
  import opened Wrappers

  /** The `type` of a map layer. `Unknown(raw)` stands for any runtime string outside the four literals. */
  datatype LayerType = Urban | CropYield | Temperature | Precipitation | Unknown(raw: string)
  {
    /** The string the layer carries at run time. */
    function Name(): string {
      match this
      case Urban => "urban"
      case CropYield => "crop_yield"
      case Temperature => "temperature"
      case Precipitation => "precipitation"
      case Unknown(raw) => raw
    }
  }

  const KnownLayerTypeNames: set<string> := {"urban", "crop_yield", "temperature", "precipitation"}

  /** A layer type is canonical when an `Unknown` does not spell one of the four known names. */
  predicate Canonical(t: LayerType) {
    t.Unknown? ==> t.raw !in KnownLayerTypeNames
  }

  /** Reads a runtime `type` string as a layer type. */
  function ParseLayerType(s: string): (t: LayerType)
    ensures Canonical(t)
    ensures t.Name() == s
  {
    if s == "urban" then Urban
    else if s == "crop_yield" then CropYield
    else if s == "temperature" then Temperature
    else if s == "precipitation" then Precipitation
    else Unknown(s)
  }

  lemma ParseNameRoundTrip(t: LayerType)
    requires Canonical(t)
    ensures ParseLayerType(t.Name()) == t
  {
    if t.Unknown? {
      assert t.raw !in KnownLayerTypeNames;
    }
  }

  /** MapLayer (index.ts). `data` is the raster reference (a prediction map), absent until a result arrives. */
  datatype MapLayer = MapLayer(
    id: string,
    name: string,
    layerType: LayerType,
    visible: bool,
    opacity: real,
    data: Option<string>)

  /** JavaScript truthiness of an optional string: present and non-empty. */
  predicate Truthy(s: Option<string>) {
    s.Some? && s.value != ""
  }

  /**
   * The single-layer overlay both the prediction dashboard and the policy simulator install
   * for a prediction map: a visible crop-yield layer at opacity 0.7.
   */
  function PredictionOverlay(id: string, name: string, predictionMap: string): (l: MapLayer)
    ensures l.id == id && l.name == name && l.data == Some(predictionMap)
    ensures l.layerType == CropYield && l.visible && l.opacity == 0.7
  {
    MapLayer(id, name, CropYield, true, 0.7, Some(predictionMap))
  }

  /** PredictionStatus (schemas.py). */
  datatype PredictionStatus = Pending | Processing | Completed | Failed

  /** ModelMetrics (schemas.py). */
  datatype ModelMetrics = ModelMetrics(mae: real, rmse: real, mse: real, accuracy: Option<real>)

  /** PredictionResponse (schemas.py). */
  datatype PredictionResponse = PredictionResponse(
    id: string,
    status: PredictionStatus,
    predictionMap: Option<string>,
    metrics: Option<ModelMetrics>,
    confidence: Option<real>,
    createdAt: string,
    completedAt: Option<string>,
    error: Option<string>)

  datatype ClimateDataType = TemperatureData | PrecipitationData

  datatype UrbanExpansionData = UrbanExpansionData(
    id: string, filename: string, uploadedAt: string, year: Option<int>, region: Option<string>)

  datatype ClimateData = ClimateData(
    id: string, filename: string, climateType: ClimateDataType, uploadedAt: string, year: Option<int>)

  datatype HistoricalYieldData = HistoricalYieldData(
    id: string, filename: string, uploadedAt: string, years: seq<int>)

  /** The two climate datasets of a scenario, under the keys `temperature` and `precipitation`. */
  datatype ClimateBundle = ClimateBundle(temperature: ClimateData, precipitation: ClimateData)

  /** Scenario (schemas.py, index.ts). */
  datatype Scenario = Scenario(
    id: string,
    name: string,
    description: Option<string>,
    urbanData: UrbanExpansionData,
    climateData: ClimateBundle,
    historicalYields: Option<HistoricalYieldData>,
    predictions: Option<seq<PredictionResponse>>,
    createdAt: string,
    updatedAt: string)

  datatype RegionBounds = RegionBounds(north: real, south: real, east: real, west: real)

  datatype Region = Region(id: Option<string>, name: string, bounds: RegionBounds, code: Option<string>)

  /** PredictionRequest (schemas.py, index.ts). */
  datatype PredictionRequest = PredictionRequest(
    urbanDataId: string,
    temperatureDataId: string,
    precipitationDataId: string,
    historicalYieldDataId: Option<string>,
    year: int,
    region: Option<Region>)

  /** The `differences` of a comparison; both difference maps are always empty. */
  datatype ComparisonDifferences = ComparisonDifferences(
    scenarioCount: int,
    yieldDifferences: map<string, real>,
    urbanExtentDifferences: map<string, real>)

  /** The body of `POST /scenarios/compare`. */
  datatype ComparisonResult = ComparisonResult(scenarios: seq<Scenario>, differences: ComparisonDifferences)

  /** FastAPI's HTTPException: a status code and a detail message. */
  datatype HttpError = HttpError(statusCode: int, detail: string)
}
