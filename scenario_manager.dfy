/** Selection state and request building of frontend/src/components/Scenarios/ScenarioManager.tsx. */
module ScenarioManager {
  import opened Wrappers
  import opened Types

  /** `selectedScenarioIds.filter((id) => id !== scenarioId)` */
  function RemoveId(ids: seq<string>, id: string): (r: seq<string>)
    ensures |r| <= |ids|
    ensures forall x :: x in r <==> x in ids && x != id
  {
    if ids == [] then []
    else if ids[0] == id then RemoveId(ids[1..], id)
    else [ids[0]] + RemoveId(ids[1..], id)
  }

  /** The filter keeps the order of the remaining ids. */
  lemma {:induction false} RemoveIdOfConcat(a: seq<string>, b: seq<string>, id: string)
    ensures RemoveId(a + b, id) == RemoveId(a, id) + RemoveId(b, id)
  {
    if a == [] {
      assert a + b == b;
    } else {
      assert (a + b)[0] == a[0];
      assert (a + b)[1..] == a[1..] + b;
      RemoveIdOfConcat(a[1..], b, id);
    }
  }

  /** Every other id keeps its number of occurrences; the removed one has none left. */
  lemma {:induction false} RemoveIdCounts(ids: seq<string>, id: string, x: string)
    ensures multiset(RemoveId(ids, id))[x] == if x == id then 0 else multiset(ids)[x]
  {
    if ids != [] {
      RemoveIdCounts(ids[1..], id, x);
      assert ids == [ids[0]] + ids[1..];
    }
  }

  /** Checking an unselected scenario and unchecking it again restores the selection. */
  lemma CheckThenUncheckRestores(ids: seq<string>, id: string)
    requires id !in ids
    ensures RemoveId(ids + [id], id) == ids
  {
    RemoveIdOfConcat(ids, [id], id);
    RemoveIdAbsent(ids, id);
  }

  lemma {:induction false} RemoveIdAbsent(ids: seq<string>, id: string)
    requires id !in ids
    ensures RemoveId(ids, id) == ids
  {
    if ids != [] {
      RemoveIdAbsent(ids[1..], id);
    }
  }

  predicate NoDuplicates(ids: seq<string>) {
    forall i, j :: 0 <= i < j < |ids| ==> ids[i] != ids[j]
  }

  lemma {:induction false} RemoveIdKeepsNoDuplicates(ids: seq<string>, id: string)
    requires NoDuplicates(ids)
    ensures NoDuplicates(RemoveId(ids, id))
  {
    if ids != [] {
      RemoveIdKeepsNoDuplicates(ids[1..], id);
      assert NoDuplicates(ids[1..]);
      assert ids[0] !in ids[1..];
    }
  }

  /**
   * `handleCreatePrediction`'s request: the scenario's urban, temperature and precipitation
   * data ids, its historical-yield id when it has one, the current year and no region.
   */
  function PredictionRequestFor(scenario: Scenario, currentYear: int): (r: PredictionRequest)
    ensures r.urbanDataId == scenario.urbanData.id
    ensures r.temperatureDataId == scenario.climateData.temperature.id
    ensures r.precipitationDataId == scenario.climateData.precipitation.id
    ensures r.historicalYieldDataId.Some? <==> scenario.historicalYields.Some?
    ensures r.historicalYieldDataId.Some? ==> r.historicalYieldDataId.value == scenario.historicalYields.value.id
    ensures r.year == currentYear && r.region.None?
  {
    PredictionRequest(
      scenario.urbanData.id,
      scenario.climateData.temperature.id,
      scenario.climateData.precipitation.id,
      match scenario.historicalYields case None => None case Some(h) => Some(h.id),
      currentYear,
      None)
  }

  /** The manager's two state cells. */
  class ManagerView {
    var selectedScenarioIds: seq<string>
    var showComparison: bool

    constructor ()
      ensures selectedScenarioIds == [] && !showComparison
    {
      selectedScenarioIds := [];
      showComparison := false;
    }

    /** `checked={selectedScenarioIds.includes(scenario.id)}` */
    predicate IsChecked(id: string)
      reads this
    {
      id in selectedScenarioIds
    }

    /** The comparison view replaces the list only while the flag is set and two ids are selected. */
    predicate ShowsComparison()
      reads this
    {
      showComparison && |selectedScenarioIds| >= 2
    }

    /**
     * A checkbox's `onChange`: checking appends the id at the end, unchecking removes every
     * occurrence of it. A controlled checkbox reports the negation of its checked state, so the
     * selection stays free of duplicates. The comparison flag is untouched.
     */
    method OnCheckboxChange(id: string, checked: bool)
      modifies this
      ensures checked ==> selectedScenarioIds == old(selectedScenarioIds) + [id]
      ensures !checked ==> selectedScenarioIds == RemoveId(old(selectedScenarioIds), id)
      ensures showComparison == old(showComparison)
      ensures checked != (id in old(selectedScenarioIds)) && NoDuplicates(old(selectedScenarioIds))
              ==> NoDuplicates(selectedScenarioIds)
    {
      if checked {
        selectedScenarioIds := selectedScenarioIds + [id];
      } else {
        if NoDuplicates(selectedScenarioIds) {
          RemoveIdKeepsNoDuplicates(selectedScenarioIds, id);
        }
        selectedScenarioIds := RemoveId(selectedScenarioIds, id);
      }
    }

    /** `handleCompare`: sets the flag only when at least two ids are selected. */
    method HandleCompare()
      modifies this
      ensures selectedScenarioIds == old(selectedScenarioIds)
      ensures showComparison == (old(showComparison) || |old(selectedScenarioIds)| >= 2)
      ensures |selectedScenarioIds| >= 2 ==> ShowsComparison()
    {
      if |selectedScenarioIds| >= 2 {
        showComparison := true;
      }
    }

    /** The comparison's Back button: the only handler that resets the flag. */
    method Back()
      modifies this
      ensures !showComparison && !ShowsComparison()
      ensures selectedScenarioIds == old(selectedScenarioIds)
    {
      showComparison := false;
    }
  }
}
