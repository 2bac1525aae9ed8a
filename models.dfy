/**
 * The entities of the planner: an event (`EventPlan`), its budget line items and its
 * staff assignments, and the two summary records the service computes.
 *
 * Money is kept in whole cents (every stored amount has been rounded to two places),
 * hours in hundredths of an hour, and the staff cost `rate * hours` therefore in
 * ten-thousandths of a currency unit. Summaries report every amount in that finest unit.
 */
module Models {

  /** A 128-bit `Guid`; the planner only ever compares identifiers. `Guid.Empty` is 0. */
  type Guid = nat

  const EmptyGuid: Guid := 0

  /** A `DateOnly`, by its day number; its default (0001-01-01) is day 0. */
  datatype Date = Date(dayNumber: nat)

  /** Ten-thousandths of a currency unit per cent. */
  const SubunitsPerCent := 100

  /**
   * The `BudgetStatus` enum as its underlying `int`: the three named values, and every other
   * value a cast or a numeric parse can produce, which the service stores as it is.
   */
  newtype BudgetStatus = x: int | -0x8000_0000 <= x < 0x8000_0000

  const Planned: BudgetStatus := 0
  const Committed: BudgetStatus := 1
  const Paid: BudgetStatus := 2

  /** One of the three named statuses (`Enum.IsDefined`). */
  predicate IsNamedStatus(status: BudgetStatus) {
    status == Planned || status == Committed || status == Paid
  }

  datatype BudgetItem = BudgetItem(
    id: Guid,
    category: string,
    description: string,
    amount: int,       // cents
    status: BudgetStatus)

  /** `new BudgetItem()`: the property initialisers' defaults. */
  function DefaultBudgetItem(): (b: BudgetItem)
    ensures b.id == EmptyGuid && b.amount == 0
    ensures b.category == "" && b.description == "" && b.status == Planned
  {
    BudgetItem(EmptyGuid, "", "", 0, Planned)
  }

  /** The copy the service makes of an item when it clones an event: all five fields, so an equal item. */
  function CopyBudgetItem(item: BudgetItem): (copy: BudgetItem)
    ensures copy == item
  {
    BudgetItem(item.id, item.category, item.description, item.amount, item.status)
  }

  datatype StaffAssignment = StaffAssignment(
    id: Guid,
    fullName: string,
    role: string,
    hourlyRate: int,   // cents per hour
    hoursBooked: int)  // hundredths of an hour
  {
    /** The derived `TotalCost`, in ten-thousandths of a currency unit; it is never stored. */
    function TotalCost(): int {
      hourlyRate * hoursBooked
    }
  }

  /** `new StaffAssignment()`: the property initialisers' defaults. */
  function DefaultStaffAssignment(): (s: StaffAssignment)
    ensures s.id == EmptyGuid && s.fullName == "" && s.role == ""
    ensures s.hourlyRate == 0 && s.hoursBooked == 0
  {
    StaffAssignment(EmptyGuid, "", "", 0, 0)
  }

  /** The copy the service makes of an assignment when it clones an event: an equal assignment. */
  function CopyStaffAssignment(staff: StaffAssignment): (copy: StaffAssignment)
    ensures copy == staff
  {
    StaffAssignment(staff.id, staff.fullName, staff.role, staff.hourlyRate, staff.hoursBooked)
  }

  /** A positive rate for positive hours costs something; nothing is owed when either is zero. */
  lemma TotalCostSign(s: StaffAssignment)
    ensures s.hourlyRate > 0 && s.hoursBooked > 0 ==> s.TotalCost() > 0
    ensures s.hourlyRate == 0 || s.hoursBooked == 0 ==> s.TotalCost() == 0
    ensures s.hourlyRate >= 0 && s.hoursBooked >= 0 ==> s.TotalCost() >= 0
  {
    if s.hourlyRate > 0 && s.hoursBooked > 0 {
      assert s.hourlyRate * s.hoursBooked >= 1 * s.hoursBooked;
    }
    if s.hourlyRate >= 0 && s.hoursBooked >= 0 {
      assert s.hourlyRate * s.hoursBooked >= 0 * s.hoursBooked;
    }
  }

  /** The value of every field of an `EventPlan` at one moment: what the store keeps and summaries read. */
  datatype EventData = EventData(
    id: Guid,
    name: string,
    date: Date,
    venue: string,
    targetBudget: int,  // cents
    currency: string,
    budgetItems: seq<BudgetItem>,
    staff: seq<StaffAssignment>)

  /** An event. Every property is settable and the two lists are appended to in place. */
  class EventPlan {
    var id: Guid
    var name: string
    var date: Date
    var venue: string
    var targetBudget: int  // cents
    var currency: string
    var budgetItems: seq<BudgetItem>
    var staff: seq<StaffAssignment>

    /** `new EventPlan()`: the property initialisers' defaults. */
    constructor ()
      ensures id == EmptyGuid && name == "" && date == Date(0) && venue == ""
      ensures targetBudget == 0 && currency == "USD"
      ensures budgetItems == [] && staff == []
    {
      id, name, date, venue := EmptyGuid, "", Date(0), "";
      targetBudget, currency := 0, "USD";
      budgetItems, staff := [], [];
    }

    /** `new EventPlan { Id = ..., Name = ..., ... }`: an object initialiser setting every property. */
    constructor FromData(data: EventData)
      ensures Data() == data
    {
      id, name, date, venue := data.id, data.name, data.date, data.venue;
      targetBudget, currency := data.targetBudget, data.currency;
      budgetItems, staff := data.budgetItems, data.staff;
    }

    function Data(): EventData
      reads this
    {
      EventData(id, name, date, venue, targetBudget, currency, budgetItems, staff)
    }
  }

  /** The field values of a sequence of events, in order. */
  function DataOf(plans: seq<EventPlan>): (data: seq<EventData>)
    reads plans
    ensures |data| == |plans|
    ensures forall i :: 0 <= i < |plans| ==> data[i] == plans[i].Data()
  {
    seq(|plans|, i requires 0 <= i < |plans| reads plans => plans[i].Data())
  }

  /** Appending an event appends its field values. */
  lemma DataOfAppend(plans: seq<EventPlan>, plan: EventPlan)
    ensures DataOf(plans + [plan]) == DataOf(plans) + [plan.Data()]
  {
  }

  /** No event object occurs twice. */
  predicate Distinct(plans: seq<EventPlan>) {
    forall i, j :: 0 <= i < j < |plans| ==> plans[i] != plans[j]
  }

  datatype EventSummary = EventSummary(
    eventId: Guid,
    name: string,
    targetBudget: int,     // ten-thousandths, as are all the amounts below
    totalPlanned: int,
    totalCommitted: int,
    totalPaid: int,
    staffCost: int,
    remainingBudget: int,
    isOverBudget: bool)

  datatype PortfolioSummary = PortfolioSummary(
    eventCount: nat,
    totalTargetBudget: int,  // ten-thousandths, as are all the amounts below
    totalPlanned: int,
    totalCommitted: int,
    totalPaid: int,
    totalStaffCost: int,
    overBudgetEvents: nat)
}
