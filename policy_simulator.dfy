/** Request building and result handling of frontend/src/components/Policy/PolicySimulator.tsx. */
module PolicySimulator {
  import opened Wrappers
  import opened Types
  import opened GeoJson
  import AreaHighlighter

  const DefaultSimulationName: string := "Policy Simulation"
  const PolicyLayerId: string := "policy-prediction"
  const PolicyLayerName: string := "Policy Impact Prediction"

  datatype ImpactMetrics = ImpactMetrics(yieldLossPercentage: real, affectedArea: real, priorityAreas: seq<string>)

  /** `Omit<PolicySimulation, 'id'>` as sent by `handleSimulate`. */
  datatype SimulationRequest = SimulationRequest(
    name: string,
    urbanGrowthBoundaries: Option<FeatureCollection>,
    impactMetrics: Option<ImpactMetrics>)

  /** PolicySimulation (index.ts) as returned by the service; `zoningRegulations` is not modelled. */
  datatype PolicySimulation = PolicySimulation(
    id: string,
    name: string,
    urbanGrowthBoundaries: Option<FeatureCollection>,
    prediction: Option<PredictionResponse>,
    impactMetrics: Option<ImpactMetrics>)

  /**
   * The request of `handleSimulate`: the entered name, or `Policy Simulation` when it is empty;
   * the current boundaries unchanged; no impact metrics.
   */
  function SimulationRequestFor(simulationName: string, boundaries: Option<FeatureCollection>)
    : (r: SimulationRequest)
    ensures simulationName != "" ==> r.name == simulationName
    ensures simulationName == "" ==> r.name == DefaultSimulationName
    ensures r.name != ""
    ensures r.urbanGrowthBoundaries == boundaries && r.impactMetrics.None?
  {
    SimulationRequest(if simulationName != "" then simulationName else DefaultSimulationName, boundaries, None)
  }

  /** `data.prediction?.predictionMap`, read for truthiness. */
  predicate HasPredictionMap(data: PolicySimulation) {
    data.prediction.Some? && Truthy(data.prediction.value.predictionMap)
  }

  /** The simulator's state cells, and the pending flag of its mutation. */
  class SimulatorView {
    var simulationName: string
    var urbanGrowthBoundaries: Option<FeatureCollection>
    var layers: seq<MapLayer>
    var simulationResult: Option<PolicySimulation>
    var isPending: bool

    constructor ()
      ensures simulationName == "" && urbanGrowthBoundaries == None && layers == []
      ensures simulationResult == None && !isPending
    {
      simulationName := "";
      urbanGrowthBoundaries := None;
      layers := [];
      simulationResult := None;
      isPending := false;
    }

    /** The name input's `onChange`. */
    method SetSimulationName(name: string)
      modifies this
      ensures simulationName == name
      ensures urbanGrowthBoundaries == old(urbanGrowthBoundaries) && layers == old(layers)
      ensures simulationResult == old(simulationResult) && isPending == old(isPending)
    {
      simulationName := name;
    }

    /**
     * `onBoundariesChange={setUrbanGrowthBoundaries}`: a notification of the drawing handler
     * replaces the boundaries; a handler that stayed silent changes nothing.
     */
    method ReceiveBoundaries(n: AreaHighlighter.Notification)
      modifies this
      ensures n.Notify? ==> urbanGrowthBoundaries == n.boundaries
      ensures n.Silent? ==> urbanGrowthBoundaries == old(urbanGrowthBoundaries)
      ensures simulationName == old(simulationName) && layers == old(layers)
      ensures simulationResult == old(simulationResult) && isPending == old(isPending)
    {
      if n.Notify? {
        urbanGrowthBoundaries := n.boundaries;
      }
    }

    /**
     * A click on "Run Simulation": the button is disabled while the mutation is pending, so a
     * click then sends nothing; otherwise the request is sent and the mutation becomes pending.
     */
    method Simulate() returns (sent: Option<SimulationRequest>)
      modifies this
      ensures old(isPending) ==> sent.None? && isPending
      ensures !old(isPending) ==> sent == Some(SimulationRequestFor(simulationName, urbanGrowthBoundaries)) && isPending
      ensures simulationName == old(simulationName) && urbanGrowthBoundaries == old(urbanGrowthBoundaries)
      ensures layers == old(layers) && simulationResult == old(simulationResult)
    {
      if isPending {
        sent := None;
      } else {
        sent := Some(SimulationRequestFor(simulationName, urbanGrowthBoundaries));
        isPending := true;
      }
    }

    /**
     * `onSuccess`: the result is always stored; with a prediction map the layers become the one
     * `policy-prediction` overlay, and without one they are left as they were.
     */
    method OnSuccess(data: PolicySimulation)
      modifies this
      ensures simulationResult == Some(data) && !isPending
      ensures HasPredictionMap(data) ==>
                layers == [PredictionOverlay(PolicyLayerId, PolicyLayerName, data.prediction.value.predictionMap.value)]
      ensures !HasPredictionMap(data) ==> layers == old(layers)
      ensures simulationName == old(simulationName) && urbanGrowthBoundaries == old(urbanGrowthBoundaries)
    {
      isPending := false;
      simulationResult := Some(data);
      if HasPredictionMap(data) {
        layers := [PredictionOverlay(PolicyLayerId, PolicyLayerName, data.prediction.value.predictionMap.value)];
      }
    }

    /** A failed mutation only ends the pending state. */
    method OnError()
      modifies this
      ensures !isPending
      ensures simulationName == old(simulationName) && urbanGrowthBoundaries == old(urbanGrowthBoundaries)
      ensures layers == old(layers) && simulationResult == old(simulationResult)
    {
      isPending := false;
    }
  }
}
