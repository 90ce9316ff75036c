/** The legend derivations of frontend/src/components/Map/MapLegends.tsx. */
module MapLegends {
  import opened Types

  /** `layers.filter((layer) => layer.visible)` */
  function VisibleLayers(layers: seq<MapLayer>): (r: seq<MapLayer>)
    ensures |r| <= |layers|
    ensures forall l :: l in r <==> l in layers && l.visible
  {
    if layers == [] then []
    else if layers[0].visible then [layers[0]] + VisibleLayers(layers[1..])
    else VisibleLayers(layers[1..])
  }

  /** The filter keeps order: filtering a concatenation concatenates the filtered parts. */
  lemma {:induction false} VisibleLayersOfConcat(a: seq<MapLayer>, b: seq<MapLayer>)
    ensures VisibleLayers(a + b) == VisibleLayers(a) + VisibleLayers(b)
  {
    if a == [] {
      assert a + b == b;
    } else {
      assert (a + b)[0] == a[0];
      assert (a + b)[1..] == a[1..] + b;
      VisibleLayersOfConcat(a[1..], b);
    }
  }

  /** The legend lists every layer, in order, exactly when every layer is visible. */
  lemma {:induction false} ShowsAllIffAllVisible(layers: seq<MapLayer>)
    ensures VisibleLayers(layers) == layers <==> forall i :: 0 <= i < |layers| ==> layers[i].visible
  {
    if forall i :: 0 <= i < |layers| ==> layers[i].visible {
      if layers != [] {
        ShowsAllIffAllVisible(layers[1..]);
      }
    }
    if VisibleLayers(layers) == layers {
      forall i | 0 <= i < |layers| ensures layers[i].visible {
        assert layers[i] in VisibleLayers(layers);
      }
    }
  }

  /** `getColorScale`: a three-stop ramp for every type, the white ramp for unknown ones. */
  function ColorScale(t: LayerType): (r: seq<string>)
    requires Canonical(t)
    ensures |r| == 3
    ensures t.Unknown? ==> r == ["rgba(255,255,255,.20)", "rgba(255,255,255,.40)", "rgba(255,255,255,.60)"]
  {
    match t
    case Urban => ["rgba(156,255,134,.40)", "rgba(255,213,106,.50)", "rgba(255,122,138,.60)"]
    case CropYield => ["rgba(255,122,138,.60)", "rgba(255,213,106,.50)", "rgba(156,255,134,.60)"]
    case Temperature => ["rgba(127,224,255,.40)", "rgba(127,224,255,.60)", "rgba(127,224,255,.80)"]
    case Precipitation => ["rgba(127,224,255,.40)", "rgba(127,224,255,.60)", "rgba(127,224,255,.80)"]
    case Unknown(_) => ["rgba(255,255,255,.20)", "rgba(255,255,255,.40)", "rgba(255,255,255,.60)"]
  }

  /** Temperature and precipitation share one ramp; the urban and yield ramps run in opposite directions. */
  lemma RampRelations()
    ensures ColorScale(Temperature) == ColorScale(Precipitation)
    ensures ColorScale(Urban)[2] == ColorScale(CropYield)[0]
    ensures ColorScale(Urban)[1] == ColorScale(CropYield)[1]
  {
  }

  /** The `{min, max}` pair of `getLabels`. */
  datatype LegendLabels = LegendLabels(min: string, max: string)

  /** `getLabels`: the labels per type, Low/High for urban and for unknown types. */
  function Labels(t: LayerType): (r: LegendLabels)
    requires Canonical(t)
    ensures t.Unknown? || t.Urban? ==> r == LegendLabels("Low", "High")
    ensures r.min != "" && r.max != "" && r.min != r.max
  {
    match t
    case Urban => LegendLabels("Low", "High")
    case CropYield => LegendLabels("Low Yield", "High Yield")
    case Temperature => LegendLabels("Cool", "Warm")
    case Precipitation => LegendLabels("Dry", "Wet")
    case Unknown(_) => LegendLabels("Low", "High")
  }

  /** The legend heading `layer.name || layer.type`: the name, or the raw type string when the name is empty. */
  function Heading(layer: MapLayer): (r: string)
    ensures layer.name != "" ==> r == layer.name
    ensures layer.name == "" ==> r == layer.layerType.Name()
    ensures !layer.layerType.Unknown? ==> r != ""
  {
    if layer.name != "" then layer.name else layer.layerType.Name()
  }
}
