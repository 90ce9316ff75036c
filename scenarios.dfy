/**
 * The scenario routes of backend/app/api/routes/scenarios.py over the module-level
 * `scenarios_store` dict. The fresh uuid and the `utcnow()` timestamp are parameters.
 */
module Scenarios {
  import opened Wrappers
  import opened Types
  import PyDict
  import Strings
  import MlService

  /**
   * The `climateData` object of a create request: each entry is `None` when its key is absent,
   * and otherwise the outcome of `ClimateData(**entry)`, whose failure carries `str(e)`.
   */
  datatype ClimatePayload = ClimatePayload(
    temperature: Option<Result<ClimateData, string>>,
    precipitation: Option<Result<ClimateData, string>>)

  /**
   * The JSON body of `POST /scenarios`: `None` for an absent key. `urbanData` holds the outcome
   * of `UrbanExpansionData(**...)`.
   */
  datatype ScenarioInput = ScenarioInput(
    name: Option<string>,
    description: Option<string>,
    urbanData: Option<Result<UrbanExpansionData, string>>,
    climateData: Option<ClimatePayload>)

  /** The body of `PATCH /scenarios/{id}`: `None` for an absent key, `Some(v)` for a given one. */
  datatype ScenarioUpdates = ScenarioUpdates(name: Option<string>, description: Option<Option<string>>)

  const NotFound := "Scenario not found"
  const CreateErrorPrefix := "Error creating scenario: "

  /** The `except Exception` of `create_scenario`: every failure is re-raised as a 400 quoting `str(e)`. */
  function CreateError(cause: string): HttpError
  {
    HttpError(400, CreateErrorPrefix + cause)
  }

  /** A required key is missing: the inner `HTTPException(400, ...)`, as the outer handler quotes it. */
  function MissingField(detail: string): HttpError
  {
    CreateError(MlService.ExceptionText(HttpError(400, detail)))
  }

  /** The detail the client sees for a missing key, e.g. `Error creating scenario: 400: Urban data is required`. */
  lemma MissingFieldText(detail: string)
    ensures MissingField(detail) == HttpError(400, "Error creating scenario: 400: " + detail)
  {
    assert Strings.NatToString(4) == "4";
    assert Strings.NatToString(40) == "40";
    assert Strings.NatToString(400) == "400";
  }

  /** A climate entry: a `KeyError` quotes the missing key, a validation error its own text. */
  function ClimateEntry(entry: Option<Result<ClimateData, string>>, key: string): (r: Result<ClimateData, HttpError>)
    ensures entry.None? ==> r == Failure(CreateError("'" + key + "'"))
    ensures entry.Some? && entry.value.Failure? ==> r == Failure(CreateError(entry.value.error))
    ensures entry.Some? && entry.value.Success? ==> r == Success(entry.value.value)
  {
    match entry
    case None => Failure(CreateError("'" + key + "'"))
    case Some(Failure(message)) => Failure(CreateError(message))
    case Some(Success(data)) => Success(data)
  }

  /**
   * The body of `create_scenario` up to the store insertion: the three presence checks in
   * order, then the nested records in the order the constructor call evaluates them. A
   * successful scenario has no historical yields, an empty prediction list and equal
   * creation and update times.
   */
  function BuildScenario(input: ScenarioInput, id: string, now: string): (r: Result<Scenario, HttpError>)
    ensures input.name.None? ==>
              r == Failure(MissingField("Scenario name is required"))
    ensures input.name.Some? && input.urbanData.None? ==>
              r == Failure(MissingField("Urban data is required"))
    ensures input.name.Some? && input.urbanData.Some? && input.climateData.None? ==>
              r == Failure(MissingField("Climate data is required"))
    ensures r.Failure? ==>
              && r.error.statusCode == 400
              && |r.error.detail| >= |CreateErrorPrefix|
              && r.error.detail[..|CreateErrorPrefix|] == CreateErrorPrefix
    ensures r.Success? <==>
              && input.name.Some?
              && input.urbanData.Some? && input.urbanData.value.Success?
              && input.climateData.Some?
              && input.climateData.value.temperature.Some? && input.climateData.value.temperature.value.Success?
              && input.climateData.value.precipitation.Some? && input.climateData.value.precipitation.value.Success?
    ensures r.Success? ==>
              r.value == Scenario(
                id, input.name.value, input.description, input.urbanData.value.value,
                ClimateBundle(input.climateData.value.temperature.value.value,
                              input.climateData.value.precipitation.value.value),
                None, Some([]), now, now)
  {
    if input.name.None? then Failure(MissingField("Scenario name is required"))
    else if input.urbanData.None? then Failure(MissingField("Urban data is required"))
    else if input.climateData.None? then Failure(MissingField("Climate data is required"))
    else if input.urbanData.value.Failure? then Failure(CreateError(input.urbanData.value.error))
    else
      var temperature := ClimateEntry(input.climateData.value.temperature, "temperature");
      if temperature.Failure? then Failure(temperature.error)
      else
        var precipitation := ClimateEntry(input.climateData.value.precipitation, "precipitation");
        if precipitation.Failure? then Failure(precipitation.error)
        else
          Success(Scenario(
            id, input.name.value, input.description, input.urbanData.value.value,
            ClimateBundle(temperature.value, precipitation.value),
            None, Some([]), now, now))
  }

  /**
   * The field assignments of `update_scenario`: `name` and `description` change only when
   * their keys are given, `updatedAt` is refreshed, and nothing else moves.
   */
  function ApplyUpdates(s: Scenario, updates: ScenarioUpdates, now: string): (t: Scenario)
    ensures t.name == if updates.name.Some? then updates.name.value else s.name
    ensures t.description == if updates.description.Some? then updates.description.value else s.description
    ensures t.updatedAt == now
    ensures t.(name := s.name, description := s.description, updatedAt := s.updatedAt) == s
  {
    var named := if updates.name.Some? then s.(name := updates.name.value) else s;
    var described := if updates.description.Some? then named.(description := updates.description.value) else named;
    described.(updatedAt := now)
  }

  /** Re-sending the same update changes nothing but the update time. */
  lemma ApplyUpdatesIdempotent(s: Scenario, updates: ScenarioUpdates, first: string, second: string)
    ensures ApplyUpdates(ApplyUpdates(s, updates, first), updates, second) == ApplyUpdates(s, updates, second)
  {
  }

  /** An empty update only refreshes the update time. */
  lemma EmptyUpdateTouchesOnlyTimestamp(s: Scenario, now: string)
    ensures ApplyUpdates(s, ScenarioUpdates(None, None), now) == s.(updatedAt := now)
  {
  }

  /** The detail of the 404 `compare_scenarios` raises for a missing id. */
  function MissingScenario(id: string): HttpError
  {
    HttpError(404, "Scenario " + id + " not found")
  }

  /** `scenarios_store`: the scenarios by id, with the insertion order of their ids. */
  class ScenarioStore {
    var scenarios: map<string, Scenario>
    var order: seq<string>

    ghost predicate Valid()
      reads this
    {
      PyDict.Ordered(scenarios, order)
    }

    constructor()
      ensures Valid()
      ensures scenarios == map[] && order == []
    {
      scenarios := map[];
      order := [];
    }

    /**
     * `create_scenario`: a failed build leaves the store as it was; a successful one stores the
     * scenario under its id (a fresh id is appended to the order) and returns it.
     */
    method Create(input: ScenarioInput, id: string, now: string) returns (r: Result<Scenario, HttpError>)
      requires Valid()
      modifies this
      ensures Valid()
      ensures r == BuildScenario(input, id, now)
      ensures r.Failure? ==> scenarios == old(scenarios) && order == old(order)
      ensures r.Success? ==> scenarios == old(scenarios)[id := r.value] && order == PyDict.InsertKey(old(order), id)
    {
      r := BuildScenario(input, id, now);
      if r.Success? {
        PyDict.InsertKeepsOrdered(scenarios, order, id, r.value);
        scenarios := scenarios[id := r.value];
        order := PyDict.InsertKey(order, id);
      }
    }

    /** `get_scenario`: the stored scenario, or 404. */
    method Get(id: string) returns (r: Result<Scenario, HttpError>)
      ensures id in scenarios ==> r == Success(scenarios[id])
      ensures id !in scenarios ==> r == Failure(HttpError(404, NotFound))
    {
      if id !in scenarios {
        return Failure(HttpError(404, NotFound));
      }
      r := Success(scenarios[id]);
    }

    /** `list_scenarios`: every stored scenario once, in insertion order. */
    method List() returns (r: seq<Scenario>)
      requires Valid()
      ensures |r| == |order|
      ensures forall i :: 0 <= i < |order| ==> r[i] == scenarios[order[i]]
      ensures forall id :: id in scenarios ==> scenarios[id] in r
    {
      r := PyDict.Values(scenarios, order);
      forall id | id in scenarios
        ensures scenarios[id] in r
      {
        var i := PyDict.IndexOf(order, id);
        assert r[i] == scenarios[id];
      }
    }

    /** `update_scenario`: 404 for an absent id; otherwise the stored record is updated in place. */
    method Update(id: string, updates: ScenarioUpdates, now: string) returns (r: Result<Scenario, HttpError>)
      requires Valid()
      modifies this
      ensures Valid()
      ensures old(id !in scenarios) ==>
                r == Failure(HttpError(404, NotFound)) && scenarios == old(scenarios) && order == old(order)
      ensures old(id in scenarios) ==>
                && r == Success(ApplyUpdates(old(scenarios[id]), updates, now))
                && scenarios == old(scenarios)[id := r.value]
                && order == old(order)
    {
      if id !in scenarios {
        return Failure(HttpError(404, NotFound));
      }
      var updated := ApplyUpdates(scenarios[id], updates, now);
      scenarios := scenarios[id := updated];
      r := Success(updated);
    }

    /** `delete_scenario`: 404 for an absent id; otherwise exactly that key goes. */
    method Delete(id: string) returns (r: Result<string, HttpError>)
      requires Valid()
      modifies this
      ensures Valid()
      ensures old(id !in scenarios) ==>
                r == Failure(HttpError(404, NotFound)) && scenarios == old(scenarios) && order == old(order)
      ensures old(id in scenarios) ==>
                && r == Success("Scenario deleted")
                && scenarios == old(scenarios) - {id}
                && order == PyDict.DeleteKey(old(order), id)
    {
      if id !in scenarios {
        return Failure(HttpError(404, NotFound));
      }
      PyDict.DeleteKeepsOrdered(scenarios, order, id);
      scenarios := scenarios - {id};
      order := PyDict.DeleteKey(order, id);
      r := Success("Scenario deleted");
    }

    /**
     * `compare_scenarios`: the loop over the requested ids. The first absent id raises 404;
     * otherwise the scenarios come back in request order, repeats included, with their count
     * and two empty difference maps.
     */
    method Compare(ids: seq<string>) returns (r: Result<ComparisonResult, HttpError>)
      ensures (forall i :: 0 <= i < |ids| ==> ids[i] in scenarios) ==>
                && r.Success?
                && |r.value.scenarios| == |ids|
                && (forall i :: 0 <= i < |ids| ==> r.value.scenarios[i] == scenarios[ids[i]])
                && r.value.differences == ComparisonDifferences(|ids|, map[], map[])
      ensures (exists i :: 0 <= i < |ids| && ids[i] !in scenarios) ==>
                exists j :: 0 <= j < |ids| && ids[j] !in scenarios
                         && (forall k :: 0 <= k < j ==> ids[k] in scenarios)
                         && r == Failure(MissingScenario(ids[j]))
    {
      var found: seq<Scenario> := [];
      var n := 0;
      while n < |ids|
        invariant 0 <= n <= |ids|
        invariant forall k :: 0 <= k < n ==> ids[k] in scenarios
        invariant |found| == n
        invariant forall k :: 0 <= k < n ==> found[k] == scenarios[ids[k]]
      {
        if ids[n] !in scenarios {
          return Failure(MissingScenario(ids[n]));
        }
        found := found + [scenarios[ids[n]]];
        n := n + 1;
      }
      r := Success(ComparisonResult(found, ComparisonDifferences(|found|, map[], map[])));
    }
  }
}
