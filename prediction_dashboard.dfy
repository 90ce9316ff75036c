/** Selection and layer state of frontend/src/components/Dashboard/PredictionDashboard.tsx. */
module PredictionDashboard {
  import opened Wrappers
  import opened Types

  const PredictionLayerId: string := "prediction-crop-yield"
  const PredictionLayerName: string := "Predicted Crop Yield"

  /**
   * `predictions.find((p) => p.id === selectedPredictionId)`: the first prediction carrying the
   * selected id; none when nothing is selected (`null` equals no id) or no id matches.
   */
  function SelectedPrediction(predictions: seq<PredictionResponse>, selectedId: Option<string>)
    : (r: Option<PredictionResponse>)
    ensures r.Some? ==> selectedId == Some(r.value.id)
    ensures r.Some? ==> exists k :: 0 <= k < |predictions| && predictions[k] == r.value
                          && forall j :: 0 <= j < k ==> predictions[j].id != r.value.id
    ensures r.None? <==> selectedId.None? || forall p :: p in predictions ==> p.id != selectedId.value
  {
    if selectedId.None? || predictions == [] then None
    else if predictions[0].id == selectedId.value then Some(predictions[0])
    else
      var rest := SelectedPrediction(predictions[1..], selectedId);
      assert forall p :: p in predictions[1..] ==> p in predictions;
      assert rest.Some? ==> forall p :: p in predictions ==> p == predictions[0] || p in predictions[1..];
      if rest.Some? then
        var k :| 0 <= k < |predictions[1..]| && predictions[1..][k] == rest.value
                 && forall j :: 0 <= j < k ==> predictions[1..][j].id != rest.value.id;
        assert predictions[k + 1] == rest.value;
        rest
      else rest
  }

  /** When ids are distinct, clicking card `i` selects exactly the prediction on that card. */
  lemma SelectingCardSelectsItsPrediction(predictions: seq<PredictionResponse>, i: nat)
    requires i < |predictions|
    requires forall a, b :: 0 <= a < b < |predictions| ==> predictions[a].id != predictions[b].id
    ensures SelectedPrediction(predictions, Some(predictions[i].id)) == Some(predictions[i])
  {
    var r := SelectedPrediction(predictions, Some(predictions[i].id));
    assert predictions[i] in predictions;
    var k :| 0 <= k < |predictions| && predictions[k] == r.value
             && forall j :: 0 <= j < k ==> predictions[j].id != r.value.id;
    if k < i {
      assert predictions[k].id != predictions[i].id;
    }
  }

  /** The card title `Prediction <first 8 characters of the id>`. */
  function CardLabel(id: string): (r: string)
    ensures |r| == |"Prediction "| + (if |id| < 8 then |id| else 8)
    ensures r[..|"Prediction "|] == "Prediction "
    ensures r[|"Prediction "|..] <= id
  {
    "Prediction " + id[..if |id| < 8 then |id| else 8]
  }

  /** The dashboard's `layers` state cell and the selected id it is given. */
  class DashboardView {
    var layers: seq<MapLayer>
    /** `selectedPredictionId`, the parent page's state cell passed down as a prop. */
    var selectedPredictionId: Option<string>

    constructor ()
      ensures layers == [] && selectedPredictionId == None
    {
      layers := [];
      selectedPredictionId := None;
    }

    /** Clicking a card selects that card's prediction id. */
    method SelectCard(predictions: seq<PredictionResponse>, i: nat)
      requires i < |predictions|
      modifies this
      ensures selectedPredictionId == Some(predictions[i].id) && layers == old(layers)
    {
      selectedPredictionId := Some(predictions[i].id);
    }

    /**
     * The effect on `selectedPrediction`: with a (truthy) prediction map the layers become the one
     * prediction overlay; otherwise the previous layers stay.
     */
    method RefreshLayers(predictions: seq<PredictionResponse>)
      modifies this
      ensures selectedPredictionId == old(selectedPredictionId)
      ensures var sel := SelectedPrediction(predictions, selectedPredictionId);
              if sel.Some? && Truthy(sel.value.predictionMap)
              then layers == [PredictionOverlay(PredictionLayerId, PredictionLayerName, sel.value.predictionMap.value)]
              else layers == old(layers)
    {
      var sel := SelectedPrediction(predictions, selectedPredictionId);
      if sel.Some? && Truthy(sel.value.predictionMap) {
        layers := [PredictionOverlay(PredictionLayerId, PredictionLayerName, sel.value.predictionMap.value)];
      }
    }
  }
}
