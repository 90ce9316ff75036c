# URBAN web app: a Dafny model of its core logic

The URBAN web app estimates how urban expansion and climate affect crop yields. The React
frontend lets a user do four things:
- upload rasters;
- manage and compare scenarios;
- draw urban-growth boundaries on a map;
- view prediction layers.

The FastAPI backend stores uploads, scenarios and predictions in memory, and passes prepared
inputs to an external machine-learning service. This project models the logic behind those
features and proves properties of it. Each module is named after the source file it models.

Frontend:
- **AreaHighlighter** and **GeoJson**:
  - the boundary-drawing state machine, with its click, start, finish and clear events;
  - the GeoJSON FeatureCollection it emits;
  - the conversion that turns the stored boundary back into points for display.
- **LayerControls** and **MapLegends**: operations on the map-layer list and the legend views
  derived from it.
- **ScenarioComparison**, **PredictionDashboard**, **PolicySimulator** and **ScenarioManager**:
  - the state of these components and how they build layers;
  - the selection list and the "compare needs two" gate;
  - the prediction and simulation requests.
- **FileUploadZone**: how the `accept` string is parsed, and the rule that a drop uploads only the
  first file.
- **MapService**: the hue ramp and the clamped colour bucketing.
- **ErrorHandler**: how the message, status and body of a client error are chosen.

Backend:
- **Scenarios** and **Predictions**:
  - the two in-memory stores, each a class whose `map` of records comes with the insertion order
    of its keys (**PyDict**), which is how a Python dict behaves;
  - the 400 and 404 rules of the routes;
  - the prediction status lifecycle pending → processing → completed | failed.
- **MlService**:
  - the shaping of the model service's answer;
  - the mapping from the service's errors to HTTP status codes.
- **Validation** and **Upload**:
  - the extension checks, using `os.path.splitext` on the lower-cased name;
  - the order of the checks in the upload routes and the records they return;
  - the proof that the `unknown.*` filename fallback cannot be reached.
- **DataProcessor**:
  - the tiling of a grid into `segment_size` squares;
  - the fixed-key model input.

Shared modules:
- **Types**: the shared records.
- **Wrappers**: `Option` and `Result`.
- **Strings**: the JavaScript `split` and `trim`, ASCII lower-casing and decimal rendering.

Several values are taken as parameters rather than computed:
- fresh uuids and `utcnow()` timestamps;
- the files found on disk and the outcome of reading them;
- the model service's reply;
- the iteration order of a Python set.

Behaviour of the code worth noting:
- The emitted polygon ring is not closed: no copy of the first position is appended, although
  section 3.1.6 of RFC 7946 asks for a closed ring of at least four positions. `GeoJson.RingClosedOnlyIfUserClosedIt`
  shows the ring is closed only when the user clicks the first point again as the last of four or
  more.
- Finishing a drawing always leaves drawing mode, also with fewer than three points, in which case
  the parent receives no boundary. The Clear button does not reset `isDrawing`.
- The opacity update stores whatever value it is given; only the slider restricts values to [0, 1].
- The comparison view builds a map layer for every compared scenario, including those without a
  prediction map, whose layer then has no data.
- A model-service reply with a truthy `metrics` and a non-number metric fails the prediction,
  but only after its status and map were assigned: the failed record keeps the prediction map
  (`Predictions.RefusedMetricKeepsMap`).
- The set of allowed extensions is joined into the upload error message in set iteration order,
  which Python does not fix; the model takes that order as a parameter (`Validation.SetOrder`).

## Model

| member | source | states |
|---|---|---|
| Types.ParseLayerType | frontend/src/types/index.ts:78 | reading a runtime `type` string gives a canonical layer type whose name is that string |
| Types.ParseNameRoundTrip | frontend/src/types/index.ts:78 | parsing the name of a canonical layer type gives the type back |
| Types.PredictionOverlay | frontend/src/components/Dashboard/PredictionDashboard.tsx:28-36 | the overlay for a prediction map is a visible crop-yield layer at opacity 0.7 carrying that map, with the given id and name |
| GeoJson.SwapAll | frontend/src/components/Policy/AreaHighlighter.tsx:41 | the swap keeps the length and turns each (lat, lng) into (lng, lat) at the same position |
| GeoJson.SwapAllInvolution | frontend/src/components/Policy/AreaHighlighter.tsx:41 | swapping twice gives the points back |
| GeoJson.BoundaryShape | frontend/src/components/Policy/AreaHighlighter.tsx:36-47 | the emitted collection has exactly one Polygon feature with exactly one ring, of the same length and order as the points, each longitude first, with no closing position |
| GeoJson.PolygonCoordinates | frontend/src/components/Policy/AreaHighlighter.tsx:106-110 | absent boundaries, or boundaries without features, give the empty list |
| GeoJson.PolygonCoordinatesInvertsBoundary | frontend/src/components/Policy/AreaHighlighter.tsx:106-110 | the display conversion of an emitted boundary gives back the drawn points |
| GeoJson.RingClosedOnlyIfUserClosedIt | frontend/src/components/Policy/AreaHighlighter.tsx:36-47 | the emitted ring is an RFC 7946 linear ring if and only if at least four points were drawn and the last equals the first |
| GeoJson.SquareExample | frontend/src/components/Policy/AreaHighlighter.tsx:36-47 | four clicks of a square give the ring in lng-lat order, not closed |
| AreaHighlighter.DrawingHandler.constructor | frontend/src/components/Policy/AreaHighlighter.tsx:17-18 | the handler starts with no points and not drawing |
| AreaHighlighter.DrawingHandler.FinishButtonShown | frontend/src/components/Policy/AreaHighlighter.tsx:74-86 | the "Finish Drawing" button is shown exactly while drawing; the handlers' contracts say when that holds |
| AreaHighlighter.DrawingHandler.Click | frontend/src/components/Policy/AreaHighlighter.tsx:20-26 | while drawing a click appends exactly (lat, lng) at the end; otherwise nothing changes; the mode is kept |
| AreaHighlighter.DrawingHandler.StartDrawing | frontend/src/components/Policy/AreaHighlighter.tsx:28-31 | entering drawing mode empties the points |
| AreaHighlighter.DrawingHandler.FinishDrawing | frontend/src/components/Policy/AreaHighlighter.tsx:33-49 | finishing always leaves drawing mode and keeps the points; with three or more points it emits the built boundary, otherwise nothing |
| AreaHighlighter.DrawingHandler.Clear | frontend/src/components/Policy/AreaHighlighter.tsx:51-54 | clearing empties the points and emits `null`, leaving the drawing mode as it was |
| AreaHighlighter.DrawTriangleThenClear | frontend/src/components/Policy/AreaHighlighter.tsx:20-54 | start, three clicks and finish emit a boundary whose display conversion is the three clicks in order; a later clear emits `null` and leaves the handler idle and empty |
| LayerControls.ToggleLayerVisibility | frontend/src/components/Map/LayerControls.tsx:12-17 | the toggle keeps length and order, flips `visible` exactly on matching ids and changes no other field |
| LayerControls.ToggleTwiceIsIdentity | frontend/src/components/Map/LayerControls.tsx:13-15 | toggling the same id twice gives the original list |
| LayerControls.ToggleAbsentIdIsIdentity | frontend/src/components/Map/LayerControls.tsx:13-15 | toggling an id no layer has changes nothing |
| LayerControls.UpdateLayerOpacity | frontend/src/components/Map/LayerControls.tsx:19-24 | the opacity update keeps length and order, sets the given opacity exactly on matching ids and changes no other field |
| LayerControls.UpdateOpacityLastWriteWins | frontend/src/components/Map/LayerControls.tsx:19-24 | a second update of the same id overrides the first |
| LayerControls.OpacityIsNotClamped | frontend/src/components/Map/LayerControls.tsx:19-24 | values outside [0, 1] are stored as given |
| LayerControls.SliderValue | frontend/src/components/Map/LayerControls.tsx:102-109 | every slider position gives a value in [0, 1] |
| LayerControls.ControlsKeepOpacitiesInRange | frontend/src/components/Map/LayerControls.tsx:12-24 | slider updates and toggles keep every opacity in [0, 1] |
| LayerControls.LayerTypeLabel | frontend/src/components/Map/LayerControls.tsx:26-34 | the label lookup is defined exactly on the four layer types, with non-empty labels |
| LayerControls.LayerTypeLabelInjective | frontend/src/components/Map/LayerControls.tsx:26-34 | distinct layer types have distinct labels |
| LayerControls.DisplayName | frontend/src/components/Map/LayerControls.tsx:93 | the shown name is the layer name, or the type label when the name is empty; it is empty exactly for an unnamed layer of unknown type (for a canonical type, as `ParseLayerType` reads every runtime `type` string) |
| MapLegends.VisibleLayers | frontend/src/components/Map/MapLegends.tsx:8 | the legend holds exactly the visible layers and is no longer than the input |
| MapLegends.VisibleLayersOfConcat | frontend/src/components/Map/MapLegends.tsx:8 | the filter keeps the original order (it distributes over concatenation) |
| MapLegends.ShowsAllIffAllVisible | frontend/src/components/Map/MapLegends.tsx:8 | the legend is the whole list if and only if every layer is visible |
| MapLegends.ColorScale | frontend/src/components/Map/MapLegends.tsx:10-23 | every type gets a three-colour ramp, and an unknown type the white ramp of 0.2, 0.4 and 0.6 opacity (for a canonical type, as `ParseLayerType` reads every runtime `type` string) |
| MapLegends.RampRelations | frontend/src/components/Map/MapLegends.tsx:16-19 | temperature and precipitation share a ramp; the urban and yield ramps run in opposite directions |
| MapLegends.Labels | frontend/src/components/Map/MapLegends.tsx:25-38 | urban and unknown types get Low/High; all label pairs are non-empty and distinct (for a canonical type, as `ParseLayerType` reads every runtime `type` string) |
| MapLegends.Heading | frontend/src/components/Map/MapLegends.tsx:56 | the heading is the name, or the raw type when the name is empty, and is non-empty for a known type |
| ScenarioComparison.FirstPredictionMap | frontend/src/components/Scenarios/ScenarioComparison.tsx:29 | the map of the first prediction when the scenario has at least one, and nothing otherwise |
| ScenarioComparison.ScenarioLayer | frontend/src/components/Scenarios/ScenarioComparison.tsx:23-30 | the layer of one scenario: id `scenario-` plus its id, its name, crop-yield type, visible at opacity 0.5, with data exactly when its first prediction has a map |
| ScenarioComparison.ComparisonLayers | frontend/src/components/Scenarios/ScenarioComparison.tsx:23-30 | one layer per scenario in the same order, with id `scenario-` plus the scenario id, the scenario name, crop-yield type, visible, opacity 0.5 and the first prediction map as data |
| ScenarioComparison.PrefixInjective | frontend/src/components/Scenarios/ScenarioComparison.tsx:24 | a common prefix does not make distinct ids equal |
| ScenarioComparison.LayerIdsMatchScenarioIds | frontend/src/components/Scenarios/ScenarioComparison.tsx:24 | two layers share an id if and only if their scenarios do |
| ScenarioComparison.ComparisonView.OnComparison | frontend/src/components/Scenarios/ScenarioComparison.tsx:21-33 | the layers are rebuilt from the scenarios when a comparison arrives and kept otherwise |
| ScenarioComparison.ComparisonView.constructor | frontend/src/components/Scenarios/ScenarioComparison.tsx:14 | the comparison starts with no layers |
| PredictionDashboard.SelectedPrediction | frontend/src/components/Dashboard/PredictionDashboard.tsx:24 | the selection is the first prediction with the selected id, and none exactly when no id matches |
| PredictionDashboard.SelectingCardSelectsItsPrediction | frontend/src/components/Dashboard/PredictionDashboard.tsx:24 | with distinct ids, selecting a card's id selects that card's prediction |
| PredictionDashboard.CardLabel | frontend/src/components/Dashboard/PredictionDashboard.tsx:130 | the label is `Prediction ` followed by the first min(8, length) characters of the id |
| PredictionDashboard.DashboardView.SelectCard | frontend/src/components/Dashboard/PredictionDashboard.tsx:118 | clicking a card selects its id and leaves the layers alone |
| PredictionDashboard.DashboardView.constructor | frontend/src/components/Dashboard/PredictionDashboard.tsx:22 | the dashboard starts with no layers and no selected prediction |
| PredictionDashboard.DashboardView.RefreshLayers | frontend/src/components/Dashboard/PredictionDashboard.tsx:26-39 | a selected prediction with a map replaces the layers by its single overlay; otherwise the layers are kept |
| PolicySimulator.SimulationRequestFor | frontend/src/components/Policy/PolicySimulator.tsx:33-39 | the request name is the entered name or `Policy Simulation` when empty; the boundaries pass through and no impact metrics are sent |
| PolicySimulator.SimulatorView.constructor | frontend/src/components/Policy/PolicySimulator.tsx:9-12 | every state cell starts empty and no request is pending |
| PolicySimulator.SimulatorView.SetSimulationName | frontend/src/components/Policy/PolicySimulator.tsx:59 | typing sets the name and nothing else |
| PolicySimulator.SimulatorView.ReceiveBoundaries | frontend/src/components/Policy/PolicySimulator.tsx:78 | a boundary notification sets the boundaries; silence changes nothing |
| PolicySimulator.SimulatorView.Simulate | frontend/src/components/Policy/PolicySimulator.tsx:33-39 | while a request is pending the disabled button sends nothing; otherwise the request for the current name and boundaries is sent |
| PolicySimulator.SimulatorView.OnSuccess | frontend/src/components/Policy/PolicySimulator.tsx:16-30 | the result is always stored; a prediction map replaces the layers by the single `policy-prediction` overlay, otherwise they are kept |
| PolicySimulator.SimulatorView.OnError | frontend/src/components/Policy/PolicySimulator.tsx:14-31 | a failure only ends the pending state |
| PolicySimulator.HasPredictionMap | frontend/src/components/Policy/PolicySimulator.tsx:18 | `data.prediction?.predictionMap` is truthy; `OnSuccess` states what follows from it |
| ScenarioManager.RemoveId | frontend/src/components/Scenarios/ScenarioManager.tsx:101 | unchecking keeps exactly the other ids |
| ScenarioManager.RemoveIdOfConcat | frontend/src/components/Scenarios/ScenarioManager.tsx:101 | the remaining ids keep their order |
| ScenarioManager.RemoveIdCounts | frontend/src/components/Scenarios/ScenarioManager.tsx:99-102 | every occurrence of the id goes; every other id keeps its number of occurrences |
| ScenarioManager.CheckThenUncheckRestores | frontend/src/components/Scenarios/ScenarioManager.tsx:97-102 | checking an unselected scenario and unchecking it gives the selection back |
| ScenarioManager.RemoveIdAbsent | frontend/src/components/Scenarios/ScenarioManager.tsx:101 | unchecking an unselected id changes nothing |
| ScenarioManager.RemoveIdKeepsNoDuplicates | frontend/src/components/Scenarios/ScenarioManager.tsx:101 | removal keeps a duplicate-free selection duplicate-free |
| ScenarioManager.PredictionRequestFor | frontend/src/components/Scenarios/ScenarioManager.tsx:32-39 | the request copies the three data ids and the optional historical id from the scenario and carries the current year |
| ScenarioManager.ManagerView.OnCheckboxChange | frontend/src/components/Scenarios/ScenarioManager.tsx:95-102 | checking appends the id at the end, unchecking removes it, the flag is kept, and a duplicate-free selection stays duplicate-free |
| ScenarioManager.ManagerView.HandleCompare | frontend/src/components/Scenarios/ScenarioManager.tsx:26-30 | the flag is set exactly when at least two ids are selected, and then the comparison shows |
| ScenarioManager.ManagerView.Back | frontend/src/components/Scenarios/ScenarioManager.tsx:45-52 | Back clears the flag and hides the comparison, keeping the selection |
| ScenarioManager.ManagerView.constructor | frontend/src/components/Scenarios/ScenarioManager.tsx:11-12 | nothing is selected and the comparison flag is off |
| ScenarioManager.ManagerView.IsChecked | frontend/src/components/Scenarios/ScenarioManager.tsx:95 | a checkbox is checked exactly when its id is selected; `OnCheckboxChange` states how that changes |
| ScenarioManager.ManagerView.ShowsComparison | frontend/src/components/Scenarios/ScenarioManager.tsx:45-49 | the comparison replaces the list exactly while the flag is set and two or more ids are selected; `HandleCompare` and `Back` state how that changes |
| FileUploadZone.AcceptRecord | frontend/src/components/Upload/FileUploadZone.tsx:30-33 | the keys are exactly the trimmed comma-separated entries, each mapped to the empty list, with duplicates collapsed |
| FileUploadZone.TrimAll | frontend/src/components/Upload/FileUploadZone.tsx:30-31 | each entry is trimmed in place, and the length is kept |
| FileUploadZone.AddKeys | frontend/src/components/Upload/FileUploadZone.tsx:30-33 | the `reduce` adds exactly the listed keys, each bound to the empty list, and keeps the other entries |
| FileUploadZone.KeyCountBound | frontend/src/components/Upload/FileUploadZone.tsx:30-33 | there are no more keys than entries |
| FileUploadZone.TiffAcceptRecord | frontend/src/components/Upload/DataUpload.tsx:79 | the TIFF zone's accept string gives the keys `.tif` and `.tiff` |
| FileUploadZone.Options | frontend/src/components/Upload/FileUploadZone.tsx:28-36 | the zone is single-file, disabled exactly while loading, with the parsed accept record |
| FileUploadZone.OnDrop | frontend/src/components/Upload/FileUploadZone.tsx:19-26 | an empty drop uploads nothing; otherwise exactly the first file is uploaded, once |
| Strings.Split | frontend/src/components/Upload/FileUploadZone.tsx:30 | `split` yields at least one piece and no piece holds the separator |
| Strings.Lower | backend/app/utils/validation.py:23 | lower-casing keeps the length and maps each character through ASCII lower-casing |
| Strings.JoinSplit | frontend/src/components/Upload/FileUploadZone.tsx:30 | joining the pieces of a split on the separator gives the string back |
| Strings.SplitJoin | frontend/src/components/Upload/FileUploadZone.tsx:30 | splitting a join of separator-free pieces gives the pieces back |
| Strings.TrimIsWhitespaceFreeInfix | frontend/src/components/Upload/FileUploadZone.tsx:31 | the trim is an infix of the string, only whitespace is cut, and it neither starts nor ends with whitespace |
| Strings.TrimIdempotent | frontend/src/components/Upload/FileUploadZone.tsx:31 | trimming twice is trimming once |
| Strings.Trim | frontend/src/components/Upload/FileUploadZone.tsx:31 | `String.prototype.trim`; the cut is stated by `TrimIsWhitespaceFreeInfix` |
| Strings.LowerIdempotent | backend/app/utils/validation.py:23 | lower-casing twice is lower-casing once |
| Strings.NatToStringRoundTrip | backend/app/api/routes/scenarios.py:51 | the decimal rendering used in exception texts reads back as the number |
| MapService.GenerateColorScale | frontend/src/services/mapService.ts:25-33 | the loop yields exactly `steps` colours, the i-th at hue (1 - i/(steps-1)) * 240, independent of min and max |
| MapService.HueAt | frontend/src/services/mapService.ts:28-29 | the hue of position i in a ramp of n steps; its ends and its fall are stated by `RampEnds` and `RampFalls` |
| MapService.RampEnds | frontend/src/services/mapService.ts:28-29 | a ramp of two or more colours starts at hue 240 and ends at hue 0 |
| MapService.RampFalls | frontend/src/services/mapService.ts:28-29 | the hue strictly falls along the ramp and stays in [0, 240] |
| MapService.GetValueColor | frontend/src/services/mapService.ts:35-41 | values at or below min get the first colour, values at or above max the last, any other the colour at the floor of the ratio times n - 1, which is always in range for a non-empty scale; an empty scale yields nothing |
| MapService.ColorIndex | frontend/src/services/mapService.ts:38-40 | the bucket index; its range and monotonicity are stated by `ColorIndexBounds`, `InteriorBucket` and `ColorIndexMonotone` |
| MapService.InteriorBucket | frontend/src/services/mapService.ts:38-40 | a value strictly between min and max lands in a bucket from 0 to n - 2 |
| MapService.ColorIndexBounds | frontend/src/services/mapService.ts:35-41 | the bucket index of a non-empty scale is always in range |
| MapService.ColorIndexMonotone | frontend/src/services/mapService.ts:35-41 | a larger value never gets an earlier bucket |
| ErrorHandler.HandleApiError | frontend/src/utils/errorHandler.ts:9-27 | an Axios error's message is the first truthy one of the detail, the error message and the default; status and body are copied from the response; a plain Error gives only its message; anything else the unexpected-error message |
| ErrorHandler.FormatError | frontend/src/utils/errorHandler.ts:29-32 | the formatted message is empty exactly for a plain Error with an empty message; a plain Error shows its own message, an Axios error a non-empty one, and any other value the unexpected-error message |
| ErrorHandler.StatusOnlyFromResponses | frontend/src/utils/errorHandler.ts:10-16 | a status is reported if and only if an Axios error carries a response, and a body only then |
| PyDict.InsertKey | backend/app/api/routes/scenarios.py:48 | assigning a key appends it to the order only when it is new |
| PyDict.DeleteKey | backend/app/api/routes/scenarios.py:94 | `del` drops the key from the order; `DeleteKeepsOrdered` states that it keeps map and order in step |
| PyDict.InsertKeepsOrdered | backend/app/api/routes/scenarios.py:48 | an assignment keeps the key order a duplicate-free listing of the keys |
| PyDict.DeleteKeepsOrdered | backend/app/api/routes/scenarios.py:94 | a deletion removes exactly that key from the order and keeps it duplicate-free |
| PyDict.Values | backend/app/api/routes/scenarios.py:66 | `values()` lists each entry in key order |
| Scenarios.ClimateEntry | backend/app/api/routes/scenarios.py:39-40 | a missing climate key fails with the quoted key, an invalid record with its error, a valid one succeeds |
| Scenarios.MissingFieldText | backend/app/api/routes/scenarios.py:26-31 | a missing required key reaches the client as `Error creating scenario: 400: <detail>` |
| Scenarios.BuildScenario | backend/app/api/routes/scenarios.py:21-51 | the three presence checks come in order; every failure is a 400 whose detail starts with `Error creating scenario: `; success exactly when all parts are present and valid, giving no historical yields, no predictions and equal creation and update times |
| Scenarios.ApplyUpdates | backend/app/api/routes/scenarios.py:78-83 | an update changes `name` and `description` only when given, refreshes `updatedAt` and leaves every other field alone |
| Scenarios.ApplyUpdatesIdempotent | backend/app/api/routes/scenarios.py:78-83 | sending the same update twice equals sending it once, up to the timestamp |
| Scenarios.EmptyUpdateTouchesOnlyTimestamp | backend/app/api/routes/scenarios.py:78-83 | an empty update only refreshes the timestamp |
| Scenarios.ScenarioStore.constructor | backend/app/api/routes/scenarios.py:15 | the store starts empty |
| Scenarios.MissingScenario | backend/app/api/routes/scenarios.py:102-105 | the 404 of an unknown id, whose detail names the id; `ScenarioStore.Compare` states when it is raised |
| Scenarios.ScenarioStore.Create | backend/app/api/routes/scenarios.py:18-51 | a failed create leaves the store unchanged; a successful one stores the built scenario under its id and returns it |
| Scenarios.ScenarioStore.Get | backend/app/api/routes/scenarios.py:54-60 | the stored scenario, or 404 `Scenario not found` |
| Scenarios.ScenarioStore.List | backend/app/api/routes/scenarios.py:63-66 | every stored scenario, once each, in insertion order |
| Scenarios.ScenarioStore.Update | backend/app/api/routes/scenarios.py:69-85 | an absent id is a 404 with the store unchanged; otherwise only that record is replaced by its update, and returned |
| Scenarios.ScenarioStore.Delete | backend/app/api/routes/scenarios.py:88-95 | an absent id is a 404 with the store unchanged; otherwise exactly that key is removed |
| Scenarios.ScenarioStore.Compare | backend/app/api/routes/scenarios.py:98-123 | the first absent id gives a 404 naming it; otherwise the scenarios come back in request order, duplicates included, with their count and empty difference maps |
| MlService.MetricsFrom | backend/app/services/ml_service.py:77-82 | no metrics exactly when `metrics` is falsy; otherwise a validation failure, naming exactly the fields whose present value is not a number, or the record with mae, rmse and mse defaulting to 0.0 and accuracy optional |
| MlService.RefusedFields | backend/app/models/schemas.py:65-69 | a field is named exactly when its present value is refused, and no name means no field is refused |
| MlService.AbsentMetricsAreZero | backend/app/services/ml_service.py:77-82 | truthy metrics without mae, rmse and mse give zero errors |
| MlService.NullMetricIsRefused | backend/app/services/ml_service.py:77-82 | a present `null` mae is refused, not read as the 0.0 default |
| MlService.FormatPredictionResponse | backend/app/services/ml_service.py:67-86 | it raises exactly when the metrics are refused, naming the refused fields; otherwise the response is completed with the given id and no error, map, metrics and confidence come from the output, `createdAt` defaults to the empty string and `completedAt` is optional |
| MlService.PredictError | backend/app/services/ml_service.py:36-50 | a timeout maps to 504, an upstream HTTP error keeps its status, anything else maps to 500, each with its message |
| MlService.PredictErrorStatusOrigin | backend/app/services/ml_service.py:36-50 | any status other than 504 and 500 is the upstream service's own |
| Predictions.HistoryInput | backend/app/api/routes/predictions.py:43-47 | the historical dataset is used exactly when the id is truthy and its file is found |
| Predictions.ModelInput | backend/app/api/routes/predictions.py:31-55 | a model input exists exactly when the three required files are found, and holds the four datasets under the fixed keys |
| Predictions.PipelineResult | backend/app/api/routes/predictions.py:31-58 | a missing required file fails with `One or more data files not found`, a required load error with its text, a history load error with its text only when the history file was found, a service error with the text of its HTTP exception; success exactly otherwise, with the service's output |
| Predictions.Settle | backend/app/api/routes/predictions.py:61-77 | success with accepted metrics completes the record with map, metrics and confidence; refused metrics fail it with the validation text but keep the map; a pipeline failure marks it failed with the error text; all set the completion time and keep id and creation time |
| Predictions.SettledIsFinal | backend/app/api/routes/predictions.py:61-77 | a settled record is never pending or processing, and is completed exactly when the pipeline succeeds and the metrics are accepted |
| Predictions.CompletedAgreesWithFormat | backend/app/api/routes/predictions.py:61-70 | the worker completes exactly when the service's response shaping does not raise, and then agrees with it on everything but the timestamps |
| Predictions.RefusedMetricKeepsMap | backend/app/api/routes/predictions.py:62-77 | a `null` mae fails the record with the validation text while the prediction map stays assigned |
| Predictions.HistoryIsOptional | backend/app/api/routes/predictions.py:43-47 | when no history file is looked up or found, the history load error is never consulted and the outcome is that of the same request without a history id |
| Predictions.HistoryNeedsAnId | backend/app/api/routes/predictions.py:44 | without a truthy history id the model input's history is `None` |
| Predictions.PredictionStore.constructor | backend/app/api/routes/predictions.py:21 | the store starts empty |
| Predictions.PredictionStore.Create | backend/app/api/routes/predictions.py:80-100 | a pending record with only its id and creation time is stored under the fresh id and returned |
| Predictions.PredictionStore.Get | backend/app/api/routes/predictions.py:103-109 | the stored record, or 404 `Prediction not found` |
| Predictions.PredictionStore.List | backend/app/api/routes/predictions.py:112-115 | every stored record, once each, in insertion order |
| Predictions.PredictionStore.StartProcessing | backend/app/api/routes/predictions.py:28 | a stored record becomes processing; an absent id changes nothing |
| Predictions.PredictionStore.Finish | backend/app/api/routes/predictions.py:61-77 | only the record under the id is settled |
| Predictions.PredictionStore.ProcessPrediction | backend/app/api/routes/predictions.py:24-77 | a stored record passes through processing and ends completed or failed as the pipeline and the metrics decide; the model service is called exactly when the required files are found and load and a found history file loads; an absent id changes nothing |
| Validation.LastIndexOf | backend/app/utils/validation.py:23 | the index of the last occurrence of the character, or -1 |
| Validation.Splitext | backend/app/utils/validation.py:23 | root and extension concatenate to the path; a non-empty extension starts with a dot and holds no further dot or slash |
| Validation.Extension | backend/app/utils/validation.py:22-23 | a missing name has no extension, and a non-empty extension starts with its only dot and holds no slash |
| Validation.JoinWith | backend/app/utils/validation.py:26 | `', '.join`: the parts separated by the separator, as the error messages use it |
| Validation.SplitSuffix | backend/app/utils/validation.py:23 | a stem with a non-dot final component followed by a dotted suffix splits into exactly that stem and suffix |
| Validation.NoSuffix | backend/app/utils/validation.py:23 | a final component with no dot after its first character has no extension |
| Validation.ValidateExtension | backend/app/utils/validation.py:20-39 | valid exactly when the lower-cased extension is allowed, with an empty message; otherwise the prefix followed by the allowed extensions joined by `, ` |
| Validation.ValidateTiffFile | backend/app/utils/validation.py:20-28 | valid exactly for `.tif` and `.tiff`, returning `(True, "")`, otherwise the TIFF message |
| Validation.ValidateNetcdfFile | backend/app/utils/validation.py:31-39 | valid exactly for `.nc` and `.netcdf`, returning `(True, "")`, otherwise the NetCDF message |
| Validation.EmptyNameRejected | backend/app/utils/validation.py:22 | a missing or empty filename has no extension and fails both checks |
| Validation.AcceptedNameIsPresent | backend/app/utils/validation.py:22-25 | a name that passes validation is present and non-empty |
| Validation.CaseInsensitive | backend/app/utils/validation.py:23 | the extension of a name equals that of its lower-cased form |
| Validation.UpperCaseTiffAccepted | backend/app/utils/validation.py:23 | `A.TIF` has the extension `.tif` |
| Validation.BackupRejected | backend/app/utils/validation.py:23 | `x.tif.bak` has the extension `.bak` |
| Validation.DotFileRejected | backend/app/utils/validation.py:23 | the leading dot of `.tif` does not start an extension |
| Upload.FilenameOr | backend/app/api/routes/upload.py:32 | `filename or fallback`: the name when it is truthy, the fallback otherwise |
| Upload.FallbackUnreachable | backend/app/api/routes/upload.py:20-32 | after validation the returned filename is the upload's own |
| Upload.ParseClimateType | backend/app/api/routes/upload.py:47-53 | exactly `temperature` and `precipitation` parse, each to the member with that value |
| Upload.ParseClimateTypeValue | backend/app/models/schemas.py:7-9 | parsing a member's value gives the member |
| Upload.UploadDirectory.constructor | backend/app/services/file_handler.py:15-33 | no file is saved at the start |
| Upload.UploadDirectory.SaveUploadFile | backend/app/services/file_handler.py:15-33 | a failed write is a 500 `Error saving file: ...` and saves nothing; otherwise the file is recorded under the fresh id, which is returned |
| Upload.UploadDirectory.UploadUrbanExpansion | backend/app/api/routes/upload.py:12-36 | an invalid name is a 400 before anything is saved; a failed write a 500; a failed metadata read a 400 with the file kept; a valid name, a clean write and a clean read always succeed, returning the saved id, the upload's name, and year and region unchanged |
| Upload.UploadDirectory.UploadClimateData | backend/app/api/routes/upload.py:39-72 | an unknown type is a 400 before the name check, an invalid name a 400 before saving, a failed write a 500; success returns the saved id, the upload's name and the parsed type |
| Upload.UploadDirectory.UploadHistoricalYields | backend/app/api/routes/upload.py:75-96 | an invalid name is a 400 before saving, a failed write a 500; success returns the saved id, the upload's name and an empty year list |
| DataProcessor.Slice | backend/app/services/data_processor.py:106 | the slice has numpy's clipped shape and holds the array's cells at their offsets |
| DataProcessor.SegmentGlobalData | backend/app/services/data_processor.py:99-114 | a zero step is the `range` ValueError, a negative step yields no tiles, and a positive one yields exactly the row-major tiling |
| DataProcessor.RowTiles | backend/app/services/data_processor.py:105-112 | the inner `range` loop over x from a given column; `TilesRowMajor` states its shape |
| DataProcessor.Tiles | backend/app/services/data_processor.py:104-112 | the outer `range` loop over y from a given row; `TilesRowMajor` and `CoverExactlyOnce` state its shape and cover |
| DataProcessor.TilesRowMajor | backend/app/services/data_processor.py:104-112 | there are ceil(h/s) * ceil(w/s) tiles, and tile number q * ceil(w/s) + c is the block at position (c*s, q*s) |
| DataProcessor.CoverExactlyOnce | backend/app/services/data_processor.py:104-112 | every cell lies in exactly one tile, the one in block row i/s and block column j/s |
| DataProcessor.BlockCell | backend/app/services/data_processor.py:106-109 | each tile's data is the matching slice of the array |
| DataProcessor.TilesAreNonEmpty | backend/app/services/data_processor.py:107 | the `size > 0` guard never drops a tile the loops reach |
| DataProcessor.PrepareModelInput | backend/app/services/data_processor.py:91-96 | the four arguments are placed, unchanged, under four fixed keys, a missing history as `None` |

## Left out

- File and network I/O are left out: the disk writes, the `glob` lookups of `get_file_path`, and
  the HTTP calls to the model service (`predict`, `get_prediction_status`). Their outcomes are
  parameters: a file index, a write error, the load errors, and the service's reply or error.
- `process_urban_data`, `process_climate_data`, `read_tiff_metadata` and `read_netcdf_metadata`
  are rasterio and xarray file readers. They are left out; a dataset is its path, and a failed
  read is an error message.
- Uuids and `utcnow()`/`new Date()` are parameters, so freshness of ids is not modelled; a
  reused id overwrites the stored record, exactly as a dict assignment does.
- The async runtime is not modelled: React effects and queries, and FastAPI `BackgroundTasks`,
  are left out. Each handler, and the whole `process_prediction` worker, is one sequential step.
  Interleavings of concurrent requests are not modelled.
- FastAPI's pydantic validation of request bodies is not modelled, and neither is the `**dict`
  unpacking of nested records. They appear only as an outcome: either a record or a message
  (`Scenarios.ClimatePayload`).
- Aliasing of Python records is not modelled: the stores hold immutable values. An update
  replaces the stored record, which the returned value equals.
- Floating point is not modelled. Opacities, hues and ratios are mathematical reals, and the
  `NaN` hue of a one-step ramp is a separate constructor. The `hsl(...)` string formatting,
  `toFixed` and `Math.round` are not modelled.
- `Strings.Lower`: Python's `str.lower()` is modelled for ASCII letters only; other characters
  are left unchanged.
- The saved file's name `<id><suffix>` is reduced to the id. `Path.suffix` is not modelled.
- JSX rendering, styles, charts and page shells are not modelled, and neither are the Leaflet
  helpers (`createMapIcon`, `boundsToLatLngBounds`), `api.ts`, the analytics mock values or the
  framework wiring.
- `MlService.ExceptionText` and `Scenarios.MissingField` are definitions with no contract of
  their own; `Scenarios.MissingFieldText` states what they produce.
- `ErrorHandler.HandleApiError` models the `details` field as the parsed response body's
  `detail` only; other fields of the body are not modelled.
- `ErrorHandler.HandleApiError`: the body's `detail` is modelled as an optional string. A
  non-string `detail`, such as the list FastAPI sends for a 422 validation error, is truthy in
  JavaScript and would become the message; that case is not modelled.
- `MlService.MetricsFrom` and `Predictions.Settle`: `MetricsFrom` reports a refused metric by
  the names of the refused fields, and `Settle` takes the text of the resulting `ValidationError`
  as a parameter (`validationText`); pydantic's message format is not modelled. The other fields of the reply (`prediction_map`, `confidence` and the timestamps) are
  modelled as well-typed or absent; a value of the wrong type there is not modelled.
- `DataProcessor.SegmentGlobalData` is modelled for two-dimensional arrays only: the grid is
  2-D by construction, so the `ValueError` that unpacking `data.shape` raises for another rank
  is not modelled.
- The default arguments `steps = 10` of `generateColorScale` and `segment_size = 32` of
  `segment_global_data` are not modelled: the model's callers always pass the count.
- `PolicySimulator.SimulatorView.Simulate`: the button's `disabled` attribute is modelled as
  the handler doing nothing while a request is pending.
