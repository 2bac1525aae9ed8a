/**
 * `EventPlannerService`: the single in-memory authority over all events. It loads the whole
 * list from its store on first use, validates each command, changes its cache in place, and
 * writes the whole cache back after every change. Reads hand out copies, never cached objects.
 *
 * Each public operation is one atomic step here (the source serialises them behind a gate).
 */
module Planner {
  import opened Common
  import opened Text
  import opened Money
  import opened Models
  import opened Summaries
  import opened Persistence

  /** The exceptions the service throws: `ArgumentException` and `InvalidOperationException`. */
  datatype Error =
    | InvalidArgument(paramName: string)
    | EventNotFound(eventId: Guid)

  datatype Result<T> = Ok(value: T) | Err(error: Error)

  /** The position of the first event with identifier `id` (`FirstOrDefault`), or -1 when there is none. */
  function FirstIndex(events: seq<EventData>, id: Guid): (k: int)
    ensures -1 <= k < |events|
    ensures k >= 0 ==> events[k].id == id
    ensures forall j :: 0 <= j < |events| && (k < 0 || j < k) ==> events[j].id != id
  {
    if events == [] then -1
    else if events[0].id == id then 0
    else
      var k := FirstIndex(events[1..], id);
      if k < 0 then -1 else k + 1
  }

  /** The currency an event is created with: "USD" when none is given, otherwise trimmed and upper-cased. */
  function NormalizeCurrency(currency: Option<string>): (c: string)
    ensures IsNullOrWhiteSpace(currency) ==> c == "USD"
    ensures !IsNullOrWhiteSpace(currency) ==> c == ToUpperInvariant(Trim(currency.value))
    ensures c != [] && !IsWhiteSpace(c[0]) && !IsWhiteSpace(c[|c| - 1])
    ensures forall i :: 0 <= i < |c| ==> !('a' <= c[i] <= 'z')
  {
    if IsNullOrWhiteSpace(currency) then "USD"
    else
      var trimmed := Trim(currency.value);
      var upper := ToUpperInvariant(trimmed);
      assert upper[0] == UpperChar(trimmed[0]) && upper[|upper| - 1] == UpperChar(trimmed[|trimmed| - 1]);
      upper
  }

  /** The events with `item` added at the end of the budget items of event `k`: nothing else differs. */
  function WithBudgetItem(events: seq<EventData>, k: nat, item: BudgetItem): (r: seq<EventData>)
    requires k < |events|
    ensures |r| == |events|
    ensures forall j :: 0 <= j < |events| && j != k ==> r[j] == events[j]
    ensures r[k].budgetItems == events[k].budgetItems + [item]
    ensures r[k] == events[k].(budgetItems := r[k].budgetItems)
  {
    events[k := events[k].(budgetItems := events[k].budgetItems + [item])]
  }

  /** The events with `staff` added at the end of the staff of event `k`: nothing else differs. */
  function WithStaffAssignment(events: seq<EventData>, k: nat, staff: StaffAssignment): (r: seq<EventData>)
    requires k < |events|
    ensures |r| == |events|
    ensures forall j :: 0 <= j < |events| && j != k ==> r[j] == events[j]
    ensures r[k].staff == events[k].staff + [staff]
    ensures r[k] == events[k].(staff := r[k].staff)
  {
    events[k := events[k].(staff := events[k].staff + [staff])]
  }

  class EventPlannerService {
    const store: DataStore
    const ids: IdProvider
    var cache: seq<EventPlan>
    var initialized: bool

    /** The cache never holds the same event object twice. */
    ghost predicate Valid()
      reads this
    {
      Distinct(cache)
    }

    /** The cached events' field values, in cache order. */
    function Events(): seq<EventData>
      reads this, cache
    {
      DataOf(cache)
    }

    /** What the cache holds once hydrated: itself if already loaded, otherwise the store's contents. */
    ghost function Loaded(): seq<EventData>
      reads this, cache, store
    {
      if initialized then Events() else store.items
    }

    constructor (store: DataStore, ids: IdProvider)
      ensures Valid()
      ensures this.store == store && this.ids == ids
      ensures cache == [] && !initialized
    {
      this.store, this.ids := store, ids;
      cache, initialized := [], false;
    }

    /** `EnsureInitializedAsync`: load the store into the cache, once per service. */
    method EnsureInitialized()
      requires Valid()
      modifies this
      ensures Valid() && initialized
      ensures Events() == old(Loaded())
      ensures old(initialized) ==> cache == old(cache)
      ensures !old(initialized) ==> forall i :: 0 <= i < |cache| ==> fresh(cache[i])
    {
      if initialized {
        return;
      }
      cache := store.Load();
      initialized := true;
    }

    /** `PersistAsync`: write the whole cache to the store. */
    method Persist()
      modifies store
      ensures store.items == Events()
      ensures Events() == old(Events())
    {
      store.Save(cache);
    }

    /** `_cache.FirstOrDefault(e => e.Id == eventId)`. */
    method FirstOrDefault(eventId: Guid) returns (r: Option<EventPlan>)
      ensures r.None? <==> FirstIndex(Events(), eventId) < 0
      ensures r.Some? ==> r.value == cache[FirstIndex(Events(), eventId)]
    {
      var i := 0;
      while i < |cache|
        invariant 0 <= i <= |cache|
        invariant forall j :: 0 <= j < i ==> Events()[j].id != eventId
      {
        if cache[i].id == eventId {
          return Some(cache[i]);
        }
        i := i + 1;
      }
      return None;
    }

    /** `RequireEvent`: the first cached event with that identifier, or an error. */
    method RequireEvent(eventId: Guid) returns (r: Result<EventPlan>)
      ensures r.Err? <==> FirstIndex(Events(), eventId) < 0
      ensures r.Err? ==> r.error == EventNotFound(eventId)
      ensures r.Ok? ==> r.value == cache[FirstIndex(Events(), eventId)]
    {
      var plan := FirstOrDefault(eventId);
      if plan.None? {
        return Err(EventNotFound(eventId));
      }
      return Ok(plan.value);
    }

    /** `CloneEvent`: a new object with the same field values, lists included. */
    static method CloneEvent(source: EventPlan) returns (copy: EventPlan)
      ensures fresh(copy)
      ensures copy.Data() == source.Data()
    {
      copy := new EventPlan();
      copy.id, copy.name, copy.date, copy.venue := source.id, source.name, source.date, source.venue;
      copy.targetBudget, copy.currency := source.targetBudget, source.currency;
      var items, staff := source.budgetItems, source.staff;
      copy.budgetItems := seq(|items|, i requires 0 <= i < |items| => CopyBudgetItem(items[i]));
      copy.staff := seq(|staff|, i requires 0 <= i < |staff| => CopyStaffAssignment(staff[i]));
    }

    /**
     * The object initialiser of `CreateEventAsync`: a new event with the provider's next
     * identifier, the normalised fields and empty lists.
     */
    method NewEventPlan(name: string, date: Date, venue: Option<string>,
                        targetBudget: Decimal, currency: Option<string>) returns (plan: EventPlan)
      modifies ids
      ensures fresh(plan)
      ensures plan.Data() == EventData(old(ids.Next()), Trim(name), date, TrimOrEmpty(venue),
                                       RoundToHundredths(targetBudget), NormalizeCurrency(currency), [], [])
      ensures ids.issued == old(ids.issued) + 1
      ensures Events() == old(Events())
    {
      ghost var before := Events();
      var id := ids.Create();
      assert Events() == before;
      plan := new EventPlan.FromData(EventData(id, Trim(name), date, TrimOrEmpty(venue),
                                               RoundToHundredths(targetBudget), NormalizeCurrency(currency), [], []));
    }

    /** `_cache.Add(plan)` followed by `PersistAsync`. */
    method AppendEvent(plan: EventPlan)
      requires Valid()
      requires forall i :: 0 <= i < |cache| ==> cache[i] != plan
      modifies this, store
      ensures Valid()
      ensures cache == old(cache) + [plan] && initialized == old(initialized)
      ensures Events() == old(Events()) + [plan.Data()]
      ensures store.items == Events()
    {
      DataOfAppend(cache, plan);
      cache := cache + [plan];
      Persist();
    }

    /** The object initialiser of `AddBudgetItemAsync`. */
    method NewBudgetItem(category: Option<string>, description: Option<string>,
                         amount: Decimal, status: BudgetStatus) returns (item: BudgetItem)
      modifies ids
      ensures item == BudgetItem(old(ids.Next()), TrimOrDefault(category, "General"), TrimOrEmpty(description),
                                 RoundToHundredths(amount), status)
      ensures ids.issued == old(ids.issued) + 1
      ensures Events() == old(Events())
    {
      ghost var before := Events();
      var id := ids.Create();
      assert Events() == before;
      item := BudgetItem(id, TrimOrDefault(category, "General"), TrimOrEmpty(description),
                         RoundToHundredths(amount), status);
    }

    /** The object initialiser of `AddStaffAssignmentAsync`. */
    method NewStaffAssignment(fullName: Option<string>, role: Option<string>,
                              hourlyRate: Decimal, hoursBooked: Decimal) returns (assignment: StaffAssignment)
      modifies ids
      ensures assignment == StaffAssignment(old(ids.Next()), TrimOrDefault(fullName, "Unassigned"),
                                            TrimOrEmpty(role), RoundToHundredths(hourlyRate), RoundToHundredths(hoursBooked))
      ensures ids.issued == old(ids.issued) + 1
      ensures Events() == old(Events())
    {
      ghost var before := Events();
      var id := ids.Create();
      assert Events() == before;
      assignment := StaffAssignment(id, TrimOrDefault(fullName, "Unassigned"), TrimOrEmpty(role),
                                    RoundToHundredths(hourlyRate), RoundToHundredths(hoursBooked));
    }

    /** `plan.BudgetItems.Add(item)` on the cached event at position `k`, followed by `PersistAsync`. */
    method AppendBudgetItem(plan: EventPlan, ghost k: nat, item: BudgetItem)
      requires Valid() && k < |cache| && plan == cache[k]
      modifies plan, store
      ensures Events() == WithBudgetItem(old(Events()), k, item)
      ensures store.items == Events()
    {
      plan.budgetItems := plan.budgetItems + [item];
      Persist();
    }

    /** `plan.Staff.Add(assignment)` on the cached event at position `k`, followed by `PersistAsync`. */
    method AppendStaffAssignment(plan: EventPlan, ghost k: nat, assignment: StaffAssignment)
      requires Valid() && k < |cache| && plan == cache[k]
      modifies plan, store
      ensures Events() == WithStaffAssignment(old(Events()), k, assignment)
      ensures store.items == Events()
    {
      plan.staff := plan.staff + [assignment];
      Persist();
    }

    /** The part of `AddBudgetItemAsync` after validation and hydration. */
    method AddBudgetItemToCache(eventId: Guid, category: Option<string>, description: Option<string>,
                                amount: Decimal, status: BudgetStatus) returns (r: Result<BudgetItem>)
      requires Valid() && amount.IsPositive()
      modifies cache, store, ids
      ensures r.Ok? <==> FirstIndex(old(Events()), eventId) >= 0
      ensures r.Err? ==>
        r == Err(EventNotFound(eventId)) && Events() == old(Events()) && unchanged(store, ids)
      ensures r.Ok? ==>
        && r.value == BudgetItem(old(ids.Next()), TrimOrDefault(category, "General"), TrimOrEmpty(description),
                                 RoundToHundredths(amount), status)
        && r.value.amount >= 0
        && Events() == WithBudgetItem(old(Events()), FirstIndex(old(Events()), eventId), r.value)
        && store.items == Events()
        && ids.issued == old(ids.issued) + 1
    {
      ghost var k := FirstIndex(Events(), eventId);
      var found := RequireEvent(eventId);
      if found.Err? {
        return Err(found.error);
      }
      RoundToHundredthsOfPositive(amount);
      var item := NewBudgetItem(category, description, amount, status);
      AppendBudgetItem(found.value, k, item);
      return Ok(item);
    }

    /** The part of `AddStaffAssignmentAsync` after validation and hydration. */
    method AddStaffAssignmentToCache(eventId: Guid, fullName: Option<string>, role: Option<string>,
                                     hourlyRate: Decimal, hoursBooked: Decimal) returns (r: Result<StaffAssignment>)
      requires Valid() && hourlyRate.IsPositive() && hoursBooked.IsPositive()
      modifies cache, store, ids
      ensures r.Ok? <==> FirstIndex(old(Events()), eventId) >= 0
      ensures r.Err? ==>
        r == Err(EventNotFound(eventId)) && Events() == old(Events()) && unchanged(store, ids)
      ensures r.Ok? ==>
        && r.value == StaffAssignment(old(ids.Next()), TrimOrDefault(fullName, "Unassigned"), TrimOrEmpty(role),
                                      RoundToHundredths(hourlyRate), RoundToHundredths(hoursBooked))
        && r.value.hourlyRate >= 0 && r.value.hoursBooked >= 0
        && Events() == WithStaffAssignment(old(Events()), FirstIndex(old(Events()), eventId), r.value)
        && store.items == Events()
        && ids.issued == old(ids.issued) + 1
    {
      ghost var k := FirstIndex(Events(), eventId);
      var found := RequireEvent(eventId);
      if found.Err? {
        return Err(found.error);
      }
      RoundToHundredthsOfPositive(hourlyRate);
      RoundToHundredthsOfPositive(hoursBooked);
      var assignment := NewStaffAssignment(fullName, role, hourlyRate, hoursBooked);
      AppendStaffAssignment(found.value, k, assignment);
      return Ok(assignment);
    }

    /** The part of `CreateEventAsync` after validation and hydration. */
    method AddNewEvent(name: string, date: Date, venue: Option<string>,
                       targetBudget: Decimal, currency: Option<string>) returns (plan: EventPlan)
      requires Valid() && targetBudget.IsPositive()
      modifies this, store, ids
      ensures Valid() && initialized == old(initialized)
      ensures fresh(plan) && cache == old(cache) + [plan]
      ensures plan.Data() == EventData(old(ids.Next()), Trim(name), date, TrimOrEmpty(venue),
                                       RoundToHundredths(targetBudget), NormalizeCurrency(currency), [], [])
      ensures plan.targetBudget >= 0
      ensures Events() == old(Events()) + [plan.Data()]
      ensures store.items == Events()
      ensures ids.issued == old(ids.issued) + 1
    {
      RoundToHundredthsOfPositive(targetBudget);
      plan := NewEventPlan(name, date, venue, targetBudget, currency);
      AppendEvent(plan);
    }

    /**
     * `CreateEventAsync`. Rejects a blank name and a budget that is not positive before touching
     * anything; otherwise appends one new event (with the provider's next identifier) to the
     * hydrated cache, saves the whole cache, and returns the cached object itself.
     */
    method CreateEvent(name: Option<string>, date: Date, venue: Option<string>,
                       targetBudget: Decimal, currency: Option<string>) returns (r: Result<EventPlan>)
      requires Valid()
      modifies this, store, ids
      ensures Valid()
      ensures r.Err? <==> IsNullOrWhiteSpace(name) || !targetBudget.IsPositive()
      ensures IsNullOrWhiteSpace(name) ==> r == Err(InvalidArgument("name"))
      ensures !IsNullOrWhiteSpace(name) && !targetBudget.IsPositive() ==> r == Err(InvalidArgument("targetBudget"))
      ensures r.Err? ==> unchanged(this, store, ids)
      ensures r.Ok? ==>
        && initialized && fresh(r.value)
        && Events() == old(Loaded()) + [r.value.Data()]
        && cache[|cache| - 1] == r.value
        && (old(initialized) ==> cache == old(cache) + [r.value])
        && store.items == Events()
        && ids.issued == old(ids.issued) + 1
      ensures r.Ok? ==>
        && r.value.id == old(ids.Next())
        && r.value.name == Trim(name.value) && r.value.name != []
        && r.value.date == date
        && r.value.venue == TrimOrEmpty(venue)
        && r.value.targetBudget == RoundToHundredths(targetBudget) && r.value.targetBudget >= 0
        && r.value.currency == NormalizeCurrency(currency)
        && r.value.budgetItems == [] && r.value.staff == []
    {
      if IsNullOrWhiteSpace(name) {
        return Err(InvalidArgument("name"));
      }
      if !targetBudget.IsPositive() {
        return Err(InvalidArgument("targetBudget"));
      }
      EnsureInitialized();
      var plan := AddNewEvent(name.value, date, venue, targetBudget, currency);
      return Ok(plan);
    }

    /** `ListEventsAsync`: copies of every cached event, in cache order. */
    method ListEvents() returns (r: seq<EventPlan>)
      requires Valid()
      modifies this
      ensures Valid() && initialized
      ensures Events() == old(Loaded())
      ensures old(initialized) ==> cache == old(cache)
      ensures DataOf(r) == Events()
      ensures forall i :: 0 <= i < |r| ==> fresh(r[i])
      ensures forall i, j :: 0 <= i < |r| && 0 <= j < |cache| ==> r[i] != cache[j]
      ensures Distinct(r)
    {
      EnsureInitialized();
      ghost var hydrated := cache;
      r := [];
      var i := 0;
      while i < |cache|
        invariant Valid() && initialized && cache == hydrated
        invariant Events() == old(Loaded())
        invariant 0 <= i <= |cache|
        invariant |r| == i
        invariant forall j :: 0 <= j < i ==> fresh(r[j]) && r[j].Data() == Events()[j]
        invariant forall j, c :: 0 <= j < i && 0 <= c < |cache| ==> r[j] != cache[c]
        invariant Distinct(r)
      {
        var copy := CloneEvent(cache[i]);
        r := r + [copy];
        i := i + 1;
      }
    }

    /** `GetEventAsync`: a copy of the first cached event with that identifier, or nothing. */
    method GetEvent(eventId: Guid) returns (r: Option<EventPlan>)
      requires Valid()
      modifies this
      ensures Valid() && initialized
      ensures Events() == old(Loaded())
      ensures old(initialized) ==> cache == old(cache)
      ensures r.None? <==> FirstIndex(Events(), eventId) < 0
      ensures r.Some? ==> fresh(r.value) && r.value.Data() == Events()[FirstIndex(Events(), eventId)]
    {
      EnsureInitialized();
      var plan := FirstOrDefault(eventId);
      if plan.None? {
        return None;
      }
      var copy := CloneEvent(plan.value);
      return Some(copy);
    }

    /** `GetEventSummaryAsync`: the summary of the event `GetEvent` finds, and nothing when it finds none. */
    method GetEventSummary(eventId: Guid) returns (r: Option<EventSummary>)
      requires Valid()
      modifies this
      ensures Valid() && initialized
      ensures Events() == old(Loaded())
      ensures old(initialized) ==> cache == old(cache)
      ensures r.None? <==> FirstIndex(Events(), eventId) < 0
      ensures r.Some? ==> r.value == BuildEventSummary(Events()[FirstIndex(Events(), eventId)])
    {
      var plan := GetEvent(eventId);
      if plan.None? {
        return None;
      }
      return Some(BuildEventSummary(plan.value.Data()));
    }

    /**
     * `AddBudgetItemAsync`. Rejects an amount that is not positive before touching anything;
     * after hydration, fails when no cached event has the identifier (nothing appended, nothing
     * saved); otherwise appends one item to the first such event, saves, and returns the item.
     */
    method AddBudgetItem(eventId: Guid, category: Option<string>, description: Option<string>,
                         amount: Decimal, status: BudgetStatus) returns (r: Result<BudgetItem>)
      requires Valid()
      modifies this, cache, store, ids
      ensures Valid()
      ensures !amount.IsPositive() ==> r == Err(InvalidArgument("amount")) && unchanged(this, store, ids) && unchanged(cache)
      ensures amount.IsPositive() ==> initialized && (old(initialized) ==> cache == old(cache))
      ensures amount.IsPositive() && FirstIndex(old(Loaded()), eventId) < 0 ==>
        && r == Err(EventNotFound(eventId))
        && Events() == old(Loaded())
        && store.items == old(store.items) && ids.issued == old(ids.issued)
      ensures r.Ok? <==> amount.IsPositive() && FirstIndex(old(Loaded()), eventId) >= 0
      ensures r.Ok? ==>
        && r.value.id == old(ids.Next())
        && r.value.category == TrimOrDefault(category, "General")
        && r.value.description == TrimOrEmpty(description)
        && r.value.amount == RoundToHundredths(amount) && r.value.amount >= 0
        && r.value.status == status
        && Events() == WithBudgetItem(old(Loaded()), FirstIndex(old(Loaded()), eventId), r.value)
        && store.items == Events()
        && ids.issued == old(ids.issued) + 1
    {
      if !amount.IsPositive() {
        return Err(InvalidArgument("amount"));
      }
      EnsureInitialized();
      r := AddBudgetItemToCache(eventId, category, description, amount, status);
    }

    /**
     * `AddStaffAssignmentAsync`. Rejects a rate or hours that are not positive before touching
     * anything; after hydration, fails when no cached event has the identifier; otherwise
     * appends one assignment to the first such event's staff, saves, and returns it.
     */
    method AddStaffAssignment(eventId: Guid, fullName: Option<string>, role: Option<string>,
                              hourlyRate: Decimal, hoursBooked: Decimal) returns (r: Result<StaffAssignment>)
      requires Valid()
      modifies this, cache, store, ids
      ensures Valid()
      ensures !hourlyRate.IsPositive() ==> r == Err(InvalidArgument("hourlyRate"))
      ensures hourlyRate.IsPositive() && !hoursBooked.IsPositive() ==> r == Err(InvalidArgument("hoursBooked"))
      ensures !hourlyRate.IsPositive() || !hoursBooked.IsPositive() ==> unchanged(this, store, ids) && unchanged(cache)
      ensures hourlyRate.IsPositive() && hoursBooked.IsPositive() ==>
        initialized && (old(initialized) ==> cache == old(cache))
      ensures hourlyRate.IsPositive() && hoursBooked.IsPositive() && FirstIndex(old(Loaded()), eventId) < 0 ==>
        && r == Err(EventNotFound(eventId))
        && Events() == old(Loaded())
        && store.items == old(store.items) && ids.issued == old(ids.issued)
      ensures r.Ok? <==> hourlyRate.IsPositive() && hoursBooked.IsPositive() && FirstIndex(old(Loaded()), eventId) >= 0
      ensures r.Ok? ==>
        && r.value.id == old(ids.Next())
        && r.value.fullName == TrimOrDefault(fullName, "Unassigned")
        && r.value.role == TrimOrEmpty(role)
        && r.value.hourlyRate == RoundToHundredths(hourlyRate) && r.value.hourlyRate >= 0
        && r.value.hoursBooked == RoundToHundredths(hoursBooked) && r.value.hoursBooked >= 0
        && Events() == WithStaffAssignment(old(Loaded()), FirstIndex(old(Loaded()), eventId), r.value)
        && store.items == Events()
        && ids.issued == old(ids.issued) + 1
    {
      if !hourlyRate.IsPositive() {
        return Err(InvalidArgument("hourlyRate"));
      }
      if !hoursBooked.IsPositive() {
        return Err(InvalidArgument("hoursBooked"));
      }
      EnsureInitialized();
      r := AddStaffAssignmentToCache(eventId, fullName, role, hourlyRate, hoursBooked);
    }
  }
}
