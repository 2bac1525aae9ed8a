/**
 * The two collaborators injected into the planning service: the data store, which holds the
 * whole list of events and is only ever loaded or saved as a whole, and the identifier source.
 */
module Persistence {
  import opened Models

  /**
   * A whole-list store. `Save` replaces what it holds with the field values of the given events;
   * `Load` hands back new event objects carrying those values, so the caller never shares an
   * object with the store.
   */
  class DataStore {
    var items: seq<EventData>

    /** A store that already holds `initial` (a fresh store holds nothing and loads as empty). */
    constructor (initial: seq<EventData>)
      ensures items == initial
    {
      items := initial;
    }

    method Load() returns (plans: seq<EventPlan>)
      ensures DataOf(plans) == items
      ensures forall i :: 0 <= i < |plans| ==> fresh(plans[i])
      ensures Distinct(plans)
    {
      plans := [];
      var i := 0;
      while i < |items|
        invariant 0 <= i <= |items|
        invariant |plans| == i
        invariant forall j :: 0 <= j < i ==> fresh(plans[j]) && plans[j].Data() == items[j]
        invariant Distinct(plans)
      {
        var plan := new EventPlan();
        plan.id, plan.name, plan.date, plan.venue := items[i].id, items[i].name, items[i].date, items[i].venue;
        plan.targetBudget, plan.currency := items[i].targetBudget, items[i].currency;
        plan.budgetItems, plan.staff := items[i].budgetItems, items[i].staff;
        plans := plans + [plan];
        i := i + 1;
      }
    }

    method Save(plans: seq<EventPlan>)
      modifies this
      ensures items == DataOf(plans)
    {
      items := DataOf(plans);
    }
  }

  /** Saving events and loading them back gives new objects carrying the same field values, nested lists included. */
  method SaveThenLoad(store: DataStore, plans: seq<EventPlan>) returns (loaded: seq<EventPlan>)
    modifies store
    ensures DataOf(loaded) == DataOf(plans) && store.items == DataOf(plans)
    ensures forall i :: 0 <= i < |loaded| ==> fresh(loaded[i])
    ensures |loaded| == |plans|
  {
    store.Save(plans);
    loaded := store.Load();
  }

  /**
   * The identifier source. `Create` hands out `sequence(0)`, `sequence(1)`, ... in turn: a
   * deterministic queue and a random generator are both such a sequence.
   */
  class IdProvider {
    const sequence: nat -> Guid
    var issued: nat

    constructor (sequence: nat -> Guid)
      ensures this.sequence == sequence && issued == 0
    {
      this.sequence := sequence;
      issued := 0;
    }

    /** The identifier the next `Create` returns. */
    function Next(): Guid
      reads this
    {
      sequence(issued)
    }

    method Create() returns (id: Guid)
      modifies this
      ensures id == old(Next())
      ensures issued == old(issued) + 1
    {
      id := sequence(issued);
      issued := issued + 1;
    }
  }
}
