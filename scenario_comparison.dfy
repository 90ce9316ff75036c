/** The layer set of frontend/src/components/Scenarios/ScenarioComparison.tsx. */
module ScenarioComparison {
  import opened Wrappers
  import opened Types

  const LayerIdPrefix: string := "scenario-"

  /** `scenario.predictions?.[0]?.predictionMap` */
  function FirstPredictionMap(s: Scenario): (m: Option<string>)
    ensures m == if s.predictions.Some? && |s.predictions.value| > 0 then s.predictions.value[0].predictionMap else None
    ensures m.Some? ==> s.predictions.Some? && |s.predictions.value| > 0
  {
    match s.predictions
    case None => None
    case Some(ps) => if ps == [] then None else ps[0].predictionMap
  }

  /** The overlay built for one compared scenario. */
  function ScenarioLayer(s: Scenario): (l: MapLayer)
    ensures l.id == LayerIdPrefix + s.id && l.name == s.name
    ensures l.layerType == CropYield && l.visible && l.opacity == 0.5
    ensures l.data.Some? <==> s.predictions.Some? && |s.predictions.value| > 0 && s.predictions.value[0].predictionMap.Some?
  {
    MapLayer(LayerIdPrefix + s.id, s.name, CropYield, true, 0.5, FirstPredictionMap(s))
  }

  /**
   * `comparison.scenarios.map(..)`: one layer per scenario, in the same order; id
   * `scenario-<id>`, the scenario's name, a visible crop-yield layer at opacity 0.5 whose data is
   * the first prediction's map. A scenario without predictions still gets its layer.
   */
  function ComparisonLayers(scenarios: seq<Scenario>): (r: seq<MapLayer>)
    ensures |r| == |scenarios|
    ensures forall i :: 0 <= i < |r| ==>
              && r[i].id == LayerIdPrefix + scenarios[i].id
              && r[i].name == scenarios[i].name
              && r[i].layerType == CropYield && r[i].visible && r[i].opacity == 0.5
              && r[i].data == FirstPredictionMap(scenarios[i])
  {
    if scenarios == [] then [] else [ScenarioLayer(scenarios[0])] + ComparisonLayers(scenarios[1..])
  }

  lemma PrefixInjective(p: string, a: string, b: string)
    requires p + a == p + b
    ensures a == b
  {
    assert a == (p + a)[|p|..];
    assert b == (p + b)[|p|..];
  }

  /** Two layers share an id exactly when their scenarios do (the backend repeats duplicated ids). */
  lemma LayerIdsMatchScenarioIds(scenarios: seq<Scenario>, i: nat, j: nat)
    requires i < |scenarios| && j < |scenarios|
    ensures ComparisonLayers(scenarios)[i].id == ComparisonLayers(scenarios)[j].id
        <==> scenarios[i].id == scenarios[j].id
  {
    var r := ComparisonLayers(scenarios);
    if r[i].id == r[j].id {
      PrefixInjective(LayerIdPrefix, scenarios[i].id, scenarios[j].id);
    }
  }

  /** The component's `layers` state cell and the effect that rebuilds it. */
  class ComparisonView {
    var layers: seq<MapLayer>

    constructor ()
      ensures layers == []
    {
      layers := [];
    }

    /**
     * The effect run when the comparison query settles: the layer list is replaced when a
     * comparison with its scenarios is present and kept while it is still loading.
     */
    method OnComparison(comparison: Option<ComparisonResult>)
      modifies this
      ensures comparison.Some? ==> layers == ComparisonLayers(comparison.value.scenarios)
      ensures comparison.None? ==> layers == old(layers)
    {
      if comparison.Some? {
        layers := ComparisonLayers(comparison.value.scenarios);
      }
    }
  }
}
