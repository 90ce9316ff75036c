/**
 * The layer list operations of frontend/src/components/Map/LayerControls.tsx. Each update
 * builds a new list with `layers.map` and hands it to `onLayersChange`; the model returns it.
 */
module LayerControls {
  import opened Wrappers
  import opened Types

  /**
   * `toggleLayerVisibility`: same length and order; `visible` flips on every layer whose id
   * matches; every other field, and every other layer, is unchanged.
   */
  function ToggleLayerVisibility(layers: seq<MapLayer>, layerId: string): (r: seq<MapLayer>)
    ensures |r| == |layers|
    ensures forall i :: 0 <= i < |layers| ==>
              r[i].visible == (if layers[i].id == layerId then !layers[i].visible else layers[i].visible)
    ensures forall i :: 0 <= i < |layers| ==> r[i].(visible := layers[i].visible) == layers[i]
  {
    if layers == [] then []
    else
      var head := if layers[0].id == layerId then layers[0].(visible := !layers[0].visible) else layers[0];
      [head] + ToggleLayerVisibility(layers[1..], layerId)
  }

  /** Toggling the same id twice gives the original list back. */
  lemma ToggleTwiceIsIdentity(layers: seq<MapLayer>, layerId: string)
    ensures ToggleLayerVisibility(ToggleLayerVisibility(layers, layerId), layerId) == layers
  {
    var once := ToggleLayerVisibility(layers, layerId);
    var twice := ToggleLayerVisibility(once, layerId);
    forall i | 0 <= i < |layers| ensures twice[i] == layers[i] {
      assert once[i].id == layers[i].id;
      assert twice[i].(visible := once[i].visible) == once[i];
    }
  }

  /** Toggling an id that no layer carries changes nothing (and raises nothing). */
  lemma ToggleAbsentIdIsIdentity(layers: seq<MapLayer>, layerId: string)
    requires forall i :: 0 <= i < |layers| ==> layers[i].id != layerId
    ensures ToggleLayerVisibility(layers, layerId) == layers
  {
    var r := ToggleLayerVisibility(layers, layerId);
    forall i | 0 <= i < |layers| ensures r[i] == layers[i] {
      assert r[i].(visible := layers[i].visible) == layers[i];
    }
  }

  /**
   * `updateLayerOpacity`: same length and order; `opacity` becomes the given value, unclamped,
   * on every layer whose id matches; everything else is unchanged.
   */
  function UpdateLayerOpacity(layers: seq<MapLayer>, layerId: string, opacity: real): (r: seq<MapLayer>)
    ensures |r| == |layers|
    ensures forall i :: 0 <= i < |layers| ==>
              r[i].opacity == (if layers[i].id == layerId then opacity else layers[i].opacity)
    ensures forall i :: 0 <= i < |layers| ==> r[i].(opacity := layers[i].opacity) == layers[i]
  {
    if layers == [] then []
    else
      var head := if layers[0].id == layerId then layers[0].(opacity := opacity) else layers[0];
      [head] + UpdateLayerOpacity(layers[1..], layerId, opacity)
  }

  /** Setting an opacity a second time overrides the first. */
  lemma UpdateOpacityLastWriteWins(layers: seq<MapLayer>, layerId: string, first: real, second: real)
    ensures UpdateLayerOpacity(UpdateLayerOpacity(layers, layerId, first), layerId, second)
         == UpdateLayerOpacity(layers, layerId, second)
  {
    var once := UpdateLayerOpacity(layers, layerId, first);
    var twice := UpdateLayerOpacity(once, layerId, second);
    var direct := UpdateLayerOpacity(layers, layerId, second);
    forall i | 0 <= i < |layers| ensures twice[i] == direct[i] {
      assert once[i].id == layers[i].id;
      assert twice[i].(opacity := once[i].opacity) == once[i];
      assert once[i].(opacity := layers[i].opacity) == layers[i];
      assert direct[i].(opacity := layers[i].opacity) == layers[i];
    }
  }

  /** The opacity update stores what it is given: 1.5 stays 1.5. */
  lemma OpacityIsNotClamped(layer: MapLayer)
    ensures UpdateLayerOpacity([layer], layer.id, 1.5)[0].opacity == 1.5
    ensures UpdateLayerOpacity([layer], layer.id, -0.2)[0].opacity == -0.2
  {
  }

  /** The range input (`min="0" max="1" step="0.1"`) produces k / 10 for k in 0..10. */
  function SliderValue(step: nat): (v: real)
    requires step <= 10
    ensures 0.0 <= v <= 1.0
  {
    step as real / 10.0
  }

  predicate OpacitiesInRange(layers: seq<MapLayer>) {
    forall i :: 0 <= i < |layers| ==> 0.0 <= layers[i].opacity <= 1.0
  }

  /** Opacities set through the slider, and toggles, keep every opacity within [0, 1]. */
  lemma ControlsKeepOpacitiesInRange(layers: seq<MapLayer>, layerId: string, step: nat)
    requires step <= 10
    requires OpacitiesInRange(layers)
    ensures OpacitiesInRange(UpdateLayerOpacity(layers, layerId, SliderValue(step)))
    ensures OpacitiesInRange(ToggleLayerVisibility(layers, layerId))
  {
    var t := ToggleLayerVisibility(layers, layerId);
    forall i | 0 <= i < |layers| ensures 0.0 <= t[i].opacity <= 1.0 {
      assert t[i].(visible := layers[i].visible) == layers[i];
    }
  }

  /** `getLayerTypeLabel`: a record lookup, defined on the four layer types and undefined otherwise. */
  function LayerTypeLabel(t: LayerType): (r: Option<string>)
    ensures r.Some? <==> !t.Unknown?
    ensures r.Some? ==> r.value != ""
  {
    match t
    case Urban => Some("Urban Expansion")
    case CropYield => Some("Crop Yield")
    case Temperature => Some("Temperature")
    case Precipitation => Some("Precipitation")
    case Unknown(_) => None
  }

  /** The four labels are distinct, so the label tells the type. */
  lemma LayerTypeLabelInjective(s: LayerType, t: LayerType)
    requires LayerTypeLabel(s).Some? && LayerTypeLabel(s) == LayerTypeLabel(t)
    ensures s == t
  {
  }

  /**
   * `layer.name || getLayerTypeLabel(layer.type)`: the name, or the type label when the name is
   * empty (an undefined label renders as nothing, modelled as "").
   */
  function DisplayName(layer: MapLayer): (r: string)
    requires Canonical(layer.layerType)
    ensures layer.name != "" ==> r == layer.name
    ensures layer.name == "" && LayerTypeLabel(layer.layerType).Some? ==> r == LayerTypeLabel(layer.layerType).value
    ensures r == "" <==> layer.name == "" && layer.layerType.Unknown?
  {
    if layer.name != "" then layer.name else LayerTypeLabel(layer.layerType).GetOr("")
  }
}
