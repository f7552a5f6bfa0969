/**
 * The dashboard's scenario list: which scenarios are shown and which one is open.
 * Each handler is one sequential step; each call to the datastore is a parameter
 * that says whether the call succeeded (and, where it returns a record, which one).
 */
module App {
  import opened Types
  import Calculations

  // ---------------------------------------------------------------------------
  // Partial updates: `{ ...scenario, ...updates }`
  // ---------------------------------------------------------------------------

  function Pick<T>(named: Option<T>, current: T): (r: T)
  {
    match named
    case Some(v) => v
    case None => current
  }

  /** Every field that `u` names has, in `r`, the value `u` gives it. */
  predicate Overrides(r: Scenario, u: ScenarioUpdate)
  {
    && (u.id.Some? ==> r.id == u.id.value)
    && (u.userId.Some? ==> r.userId == u.userId.value)
    && (u.name.Some? ==> r.name == u.name.value)
    && (u.annualSalary.Some? ==> r.annualSalary == u.annualSalary.value)
    && (u.daysInOffice.Some? ==> r.daysInOffice == u.daysInOffice.value)
    && (u.commuteDistance.Some? ==> r.commuteDistance == u.commuteDistance.value)
    && (u.cityCenterRent.Some? ==> r.cityCenterRent == u.cityCenterRent.value)
    && (u.suburbRent.Some? ==> r.suburbRent == u.suburbRent.value)
    && (u.otherCityExpenses.Some? ==> r.otherCityExpenses == u.otherCityExpenses.value)
    && (u.otherSuburbExpenses.Some? ==> r.otherSuburbExpenses == u.otherSuburbExpenses.value)
    && (u.verdict.Some? ==> r.verdict == u.verdict.value)
    && (u.savingsPerMonth.Some? ==> r.savingsPerMonth == u.savingsPerMonth.value)
    && (u.isDefault.Some? ==> r.isDefault == u.isDefault.value)
    && (u.createdAt.Some? ==> r.createdAt == u.createdAt.value)
    && (u.updatedAt.Some? ==> r.updatedAt == u.updatedAt.value)
  }

  /** Every field that `u` leaves out has, in `r`, the value it has in `s`. */
  predicate KeepsUnnamed(r: Scenario, s: Scenario, u: ScenarioUpdate)
  {
    && (u.id.None? ==> r.id == s.id)
    && (u.userId.None? ==> r.userId == s.userId)
    && (u.name.None? ==> r.name == s.name)
    && (u.annualSalary.None? ==> r.annualSalary == s.annualSalary)
    && (u.daysInOffice.None? ==> r.daysInOffice == s.daysInOffice)
    && (u.commuteDistance.None? ==> r.commuteDistance == s.commuteDistance)
    && (u.cityCenterRent.None? ==> r.cityCenterRent == s.cityCenterRent)
    && (u.suburbRent.None? ==> r.suburbRent == s.suburbRent)
    && (u.otherCityExpenses.None? ==> r.otherCityExpenses == s.otherCityExpenses)
    && (u.otherSuburbExpenses.None? ==> r.otherSuburbExpenses == s.otherSuburbExpenses)
    && (u.verdict.None? ==> r.verdict == s.verdict)
    && (u.savingsPerMonth.None? ==> r.savingsPerMonth == s.savingsPerMonth)
    && (u.isDefault.None? ==> r.isDefault == s.isDefault)
    && (u.createdAt.None? ==> r.createdAt == s.createdAt)
    && (u.updatedAt.None? ==> r.updatedAt == s.updatedAt)
  }

  /** The object spread `{ ...s, ...u }`: the fields of `u` win. */
  function ApplyUpdates(s: Scenario, u: ScenarioUpdate): (r: Scenario)
    ensures Overrides(r, u) && KeepsUnnamed(r, s, u)
    ensures u == NoUpdate ==> r == s
  {
    Scenario(
      Pick(u.id, s.id),
      Pick(u.userId, s.userId),
      Pick(u.name, s.name),
      Pick(u.annualSalary, s.annualSalary),
      Pick(u.daysInOffice, s.daysInOffice),
      Pick(u.commuteDistance, s.commuteDistance),
      Pick(u.cityCenterRent, s.cityCenterRent),
      Pick(u.suburbRent, s.suburbRent),
      Pick(u.otherCityExpenses, s.otherCityExpenses),
      Pick(u.otherSuburbExpenses, s.otherSuburbExpenses),
      Pick(u.verdict, s.verdict),
      Pick(u.savingsPerMonth, s.savingsPerMonth),
      Pick(u.isDefault, s.isDefault),
      Pick(u.createdAt, s.createdAt),
      Pick(u.updatedAt, s.updatedAt))
  }

  /** The two field-wise conditions pin the merge down: nothing else satisfies them. */
  lemma ApplyUpdatesUnique(s: Scenario, u: ScenarioUpdate, r: Scenario)
    requires Overrides(r, u) && KeepsUnnamed(r, s, u)
    ensures r == ApplyUpdates(s, u)
  {
  }

  /** Applying the same update twice changes nothing the first application did not. */
  lemma ApplyUpdatesIdempotent(s: Scenario, u: ScenarioUpdate)
    ensures ApplyUpdates(ApplyUpdates(s, u), u) == ApplyUpdates(s, u)
  {
  }

  // ---------------------------------------------------------------------------
  // The list transforms: `scenarios.map(...)` and `scenarios.filter(...)`
  // ---------------------------------------------------------------------------

  /** The ids of the listed scenarios. */
  function Ids(list: seq<Scenario>): (r: set<string>)
  {
    set s | s in list :: s.id
  }

  /** No two listed scenarios share an id. */
  predicate DistinctIds(list: seq<Scenario>)
  {
    forall i, j :: 0 <= i < j < |list| ==> list[i].id != list[j].id
  }

  /** `list.map(s => s.id === id ? updated : s)` */
  function ReplaceById(list: seq<Scenario>, id: string, updated: Scenario): (r: seq<Scenario>)
    ensures |r| == |list|
    ensures forall i :: 0 <= i < |list| && list[i].id == id ==> r[i] == updated
    ensures forall i :: 0 <= i < |list| && list[i].id != id ==> r[i] == list[i]
  {
    if list == [] then []
    else [if list[0].id == id then updated else list[0]] + ReplaceById(list[1..], id, updated)
  }

  /** `list.filter(s => s.id !== id)` */
  function RemoveById(list: seq<Scenario>, id: string): (r: seq<Scenario>)
    ensures forall s :: s in r <==> s in list && s.id != id
    ensures |r| <= |list|
  {
    if list == [] then []
    else if list[0].id == id then RemoveById(list[1..], id)
    else [list[0]] + RemoveById(list[1..], id)
  }

  /** Filtering a concatenation filters each part in place: the survivors keep their order. */
  lemma {:induction false} RemoveByIdAppend(a: seq<Scenario>, b: seq<Scenario>, id: string)
    ensures RemoveById(a + b, id) == RemoveById(a, id) + RemoveById(b, id)
  {
    if a == [] {
      assert a + b == b;
    } else {
      assert (a + b)[0] == a[0];
      assert (a + b)[1..] == a[1..] + b;
      RemoveByIdAppend(a[1..], b, id);
    }
  }

  /** A list with no entry of that id comes back unchanged. */
  lemma {:induction false} RemoveByIdAbsent(list: seq<Scenario>, id: string)
    requires id !in Ids(list)
    ensures RemoveById(list, id) == list
  {
    if list != [] {
      assert list[0] in list;
      assert Ids(list[1..]) <= Ids(list) by {
        forall x | x in Ids(list[1..]) ensures x in Ids(list) {
          var s :| s in list[1..] && s.id == x;
          assert s in list;
        }
      }
      RemoveByIdAbsent(list[1..], id);
      assert list == [list[0]] + list[1..];
    }
  }

  /** Exactly the one id is gone, and distinct ids stay distinct. */
  lemma {:induction false} RemoveByIdIds(list: seq<Scenario>, id: string)
    requires DistinctIds(list)
    ensures Ids(RemoveById(list, id)) == Ids(list) - {id}
    ensures DistinctIds(RemoveById(list, id))
  {
    var r := RemoveById(list, id);
    forall x | x in Ids(list) - {id} ensures x in Ids(r) {
      var s :| s in list && s.id == x;
      assert s in r;
    }
    if list != [] {
      assert DistinctIds(list[1..]) by {
        forall i, j | 0 <= i < j < |list[1..]| ensures list[1..][i].id != list[1..][j].id {
          assert list[1..][i] == list[i + 1] && list[1..][j] == list[j + 1];
        }
      }
      RemoveByIdIds(list[1..], id);
      var rest := RemoveById(list[1..], id);
      if list[0].id != id {
        forall k | 0 <= k < |rest| ensures rest[k].id != list[0].id {
          assert rest[k] in rest;
          var m :| 0 < m < |list| && list[m] == rest[k] by {
            assert rest[k] in list[1..];
            var m' :| 0 <= m' < |list[1..]| && list[1..][m'] == rest[k];
            assert list[m' + 1] == rest[k];
          }
        }
      }
    }
  }

  /** Replacing a record by one with the same id keeps the ids, and keeps them distinct. */
  lemma ReplaceByIdIds(list: seq<Scenario>, id: string, updated: Scenario)
    requires DistinctIds(list) && updated.id == id
    ensures DistinctIds(ReplaceById(list, id, updated))
    ensures Ids(ReplaceById(list, id, updated)) == Ids(list)
    ensures id in Ids(list) ==> updated in ReplaceById(list, id, updated)
  {
  }

  // ---------------------------------------------------------------------------
  // What "create" and "duplicate" send to the datastore
  // ---------------------------------------------------------------------------

  /** The salary carried over by "create": the open scenario's, unless there is none or it is 0. */
  function CarriedSalary(active: Option<Scenario>): (salary: real)
    ensures salary != 0.0
    ensures active.Some? && active.value.annualSalary != 0.0 ==> salary == active.value.annualSalary
    ensures active.None? || active.value.annualSalary == 0.0 ==> salary == 600000.0
  {
    if active.Some? && active.value.annualSalary != 0.0 then active.value.annualSalary else 600000.0
  }

  /** The fields "create" sends: fixed starting figures and the carried-over salary. */
  function CreateRequest(active: Option<Scenario>): (u: ScenarioUpdate)
    ensures u.id.None? && u.createdAt.None? && u.updatedAt.None?
    ensures u.verdict.None? && u.savingsPerMonth.None? && u.isDefault.None?
    ensures u.userId == Some(None) && u.name == Some("New Scenario")
    ensures forall base :: var c := ApplyUpdates(base, u);
              && c.annualSalary == CarriedSalary(active)
              && c.daysInOffice == 5.0 && c.commuteDistance == 20.0
              && c.cityCenterRent == 35000.0 && c.suburbRent == 18000.0
              && c.otherCityExpenses == 8000.0 && c.otherSuburbExpenses == 5000.0
  {
    ScenarioUpdate(
      None, Some(None), Some("New Scenario"),
      Some(CarriedSalary(active)), Some(5.0), Some(20.0), Some(35000.0), Some(18000.0),
      Some(8000.0), Some(5000.0),
      None, None, None, None, None)
  }

  /** The seven numbers the comparison reads. */
  predicate SameInputs(a: Scenario, b: Scenario)
  {
    && a.annualSalary == b.annualSalary
    && a.daysInOffice == b.daysInOffice
    && a.commuteDistance == b.commuteDistance
    && a.cityCenterRent == b.cityCenterRent
    && a.suburbRent == b.suburbRent
    && a.otherCityExpenses == b.otherCityExpenses
    && a.otherSuburbExpenses == b.otherSuburbExpenses
  }

  /** The fields "duplicate" sends: the source's seven inputs under the name "<name> (Copy)". */
  function DuplicateRequest(source: Scenario): (u: ScenarioUpdate)
    ensures u.id.None? && u.createdAt.None? && u.updatedAt.None?
    ensures u.verdict.None? && u.savingsPerMonth.None? && u.isDefault.None?
    ensures u.userId == Some(None) && u.name == Some(source.name + " (Copy)")
    ensures forall base :: SameInputs(ApplyUpdates(base, u), source)
  {
    ScenarioUpdate(
      None, Some(None), Some(source.name + " (Copy)"),
      Some(source.annualSalary), Some(source.daysInOffice), Some(source.commuteDistance),
      Some(source.cityCenterRent), Some(source.suburbRent),
      Some(source.otherCityExpenses), Some(source.otherSuburbExpenses),
      None, None, None, None, None)
  }

  /**
   * The dashboard's comparison of the open scenario: each field goes to the argument of
   * the same meaning, so the city total is the scenario's city rent and city expenses,
   * and the suburb total its suburb rent and suburb expenses plus the commute costs
   * from its salary, attendance and distance.
   */
  function Compare(s: Scenario): (r: ComparisonResult)
    ensures r.totalCityCost == s.cityCenterRent + s.otherCityExpenses
    ensures r.transportCost == Calculations.TransportCost(s.daysInOffice, s.commuteDistance)
    ensures r.monthlyOpportunityCost
            == Calculations.MonthlyOpportunityCost(s.annualSalary, s.daysInOffice, s.commuteDistance)
    ensures r.totalSuburbCost
            == s.suburbRent + r.transportCost + r.monthlyOpportunityCost + s.otherSuburbExpenses
    ensures r.verdict == CityCenter <==> r.totalCityCost < r.totalSuburbCost
  {
    Calculations.CalculateComparison(s.annualSalary, s.daysInOffice, s.commuteDistance,
                                     s.cityCenterRent, s.suburbRent,
                                     s.otherCityExpenses, s.otherSuburbExpenses)
  }

  /**
   * Whatever id, timestamps and defaults the datastore gives the stored copy, the copy
   * compares exactly like its source.
   */
  lemma DuplicateComparesAlike(source: Scenario, row: Scenario)
    ensures Compare(ApplyUpdates(row, DuplicateRequest(source))) == Compare(source)
  {
  }

  // ---------------------------------------------------------------------------
  // The dashboard state
  // ---------------------------------------------------------------------------

  class ScenarioBoard {
    /** The scenarios listed on the dashboard, in display order. */
    var scenarios: seq<Scenario>
    /** The scenario open in the calculator, if any. */
    var active: Option<Scenario>
    /** Whether the first load is still under way. */
    var loading: bool

    /** The open scenario, if any, is one of the listed ones. */
    predicate ActiveListed()
      reads this
    {
      active.Some? ==> active.value in scenarios
    }

    /** The component's initial state: nothing loaded yet. */
    constructor ()
      ensures scenarios == [] && active == None && loading
    {
      scenarios := [];
      active := None;
      loading := true;
    }

    /**
     * `loadScenarios`. `fetched` is what listing the saved scenarios returned (None: it
     * failed); `seeded` is what fetching or creating the default scenario returned, asked
     * for only when the list is empty. On success the list is shown and its first entry opened.
     */
    method LoadScenarios(fetched: Option<seq<Scenario>>, seeded: Option<Scenario>)
      modifies this
      ensures !loading
      ensures fetched.Some? && fetched.value != [] ==>
                scenarios == fetched.value && active == Some(fetched.value[0])
      ensures fetched == Some([]) && seeded.Some? ==>
                scenarios == [seeded.value] && active == seeded
      ensures fetched.None? || (fetched == Some([]) && seeded.None?) ==>
                scenarios == old(scenarios) && active == old(active)
      ensures old(ActiveListed()) || (fetched.Some? && (fetched.value != [] || seeded.Some?)) ==> ActiveListed()
    {
      loading := true;
      if fetched.Some? {
        var scenarioList := fetched.value;
        var ok := true;
        if |scenarioList| == 0 {
          if seeded.Some? {
            scenarioList := [seeded.value];
          } else {
            ok := false;
          }
        }
        if ok {
          scenarios := scenarioList;
          active := Some(scenarioList[0]);
        }
      }
      loading := false;
    }

    /**
     * `handleScenarioChange`. With a scenario open, the merged record is opened at once;
     * only when the datastore accepts the update (`updateOk`) is the listed entry with the
     * open scenario's id replaced by it.
     */
    method HandleScenarioChange(updates: ScenarioUpdate, updateOk: bool)
      modifies this
      ensures loading == old(loading)
      ensures old(active).None? ==> scenarios == old(scenarios) && active == None
      ensures old(active).Some? ==> active == Some(ApplyUpdates(old(active).value, updates))
      ensures old(active).Some? && updateOk ==>
                scenarios == ReplaceById(old(scenarios), old(active).value.id, active.value)
      ensures !updateOk ==> scenarios == old(scenarios)
      ensures old(ActiveListed()) && updateOk ==> ActiveListed()
      ensures DistinctIds(old(scenarios)) && updates.id.None? && updateOk ==> DistinctIds(scenarios)
    {
      if active.None? {
        return;
      }
      var current := active.value;
      var updated := ApplyUpdates(current, updates);
      active := Some(updated);
      if updateOk {
        scenarios := ReplaceById(scenarios, current.id, updated);
        if old(ActiveListed()) {
          var i :| 0 <= i < |old(scenarios)| && old(scenarios)[i] == current;
          assert scenarios[i] == updated;
        }
        if DistinctIds(old(scenarios)) && updates.id.None? {
          ReplaceByIdIds(old(scenarios), current.id, updated);
        }
      }
    }

    /**
     * `handleCreateScenario`. Returns the fields it sends; `reply` is the record the
     * datastore returns (None: the insert failed). A returned record is appended and opened.
     */
    method HandleCreateScenario(reply: Option<Scenario>) returns (request: ScenarioUpdate)
      modifies this
      ensures request == CreateRequest(old(active))
      ensures loading == old(loading)
      ensures reply.Some? ==> scenarios == old(scenarios) + [reply.value] && active == reply
      ensures reply.None? ==> scenarios == old(scenarios) && active == old(active)
      ensures old(ActiveListed()) || reply.Some? ==> ActiveListed()
    {
      request := CreateRequest(active);
      if reply.Some? {
        scenarios := scenarios + [reply.value];
        active := reply;
      }
    }

    /**
     * `handleDuplicateScenario`. Like create, but the fields sent are copied from `source`.
     */
    method HandleDuplicateScenario(source: Scenario, reply: Option<Scenario>) returns (request: ScenarioUpdate)
      modifies this
      ensures request == DuplicateRequest(source)
      ensures loading == old(loading)
      ensures reply.Some? ==> scenarios == old(scenarios) + [reply.value] && active == reply
      ensures reply.None? ==> scenarios == old(scenarios) && active == old(active)
      ensures old(ActiveListed()) || reply.Some? ==> ActiveListed()
    {
      request := DuplicateRequest(source);
      if reply.Some? {
        scenarios := scenarios + [reply.value];
        active := reply;
      }
    }

    /**
     * `handleDeleteScenario`. When the datastore deletes the record (`deleteOk`), every
     * listed entry with that id goes; if the open scenario had that id, the first remaining
     * entry is opened instead, or none when the list is now empty.
     */
    method HandleDeleteScenario(id: string, deleteOk: bool)
      modifies this
      ensures loading == old(loading)
      ensures !deleteOk ==> scenarios == old(scenarios) && active == old(active)
      ensures deleteOk ==> scenarios == RemoveById(old(scenarios), id)
      ensures deleteOk && old(active).Some? && old(active).value.id == id ==>
                active == (if scenarios == [] then None else Some(scenarios[0]))
      ensures old(active).None? || old(active).value.id != id ==> active == old(active)
      ensures old(ActiveListed()) ==> ActiveListed()
    {
      if deleteOk {
        var filtered := RemoveById(scenarios, id);
        scenarios := filtered;
        if active.Some? && active.value.id == id {
          active := if filtered == [] then None else Some(filtered[0]);
        }
      }
    }

    /** Opening a scenario from the list. */
    method SelectScenario(s: Scenario)
      modifies this
      ensures active == Some(s)
      ensures scenarios == old(scenarios) && loading == old(loading)
      ensures s in scenarios ==> ActiveListed()
    {
      active := Some(s);
    }

    /** "Back to Dashboard" and "Save & Exit": close the open scenario. */
    method BackToDashboard()
      modifies this
      ensures active == None
      ensures scenarios == old(scenarios) && loading == old(loading)
      ensures ActiveListed()
    {
      active := None;
    }
  }
}
