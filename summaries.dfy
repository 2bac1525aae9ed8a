/**
 * The pure aggregations of the planning service: `Sum`, `BuildEventSummary` and
 * `BuildPortfolioSummary`, with the laws that relate them to the events they summarise.
 */
module Summaries {
  import opened Models

  /** `Sum(items, status)`: the cents of the items with that status (the others count for nothing). */
  function Sum(items: seq<BudgetItem>, status: BudgetStatus): int
  {
    if items == [] then 0
    else Sum(items[..|items| - 1], status) + (if items[|items| - 1].status == status then items[|items| - 1].amount else 0)
  }

  /** `plan.Staff.Sum(s => s.TotalCost)`, in ten-thousandths. */
  function StaffCost(staff: seq<StaffAssignment>): int
  {
    if staff == [] then 0 else StaffCost(staff[..|staff| - 1]) + staff[|staff| - 1].TotalCost()
  }

  /** All the items' cents, whatever their status. */
  function TotalAmount(items: seq<BudgetItem>): int
  {
    if items == [] then 0 else TotalAmount(items[..|items| - 1]) + items[|items| - 1].amount
  }

  /**
   * `BuildEventSummary`: the status totals and the staff cost of one event, and what is
   * left of its target once the paid items and the staff are taken out. Planned and
   * committed items do not reduce the remaining budget.
   */
  function BuildEventSummary(plan: EventData): (s: EventSummary)
    ensures s.eventId == plan.id && s.name == plan.name
    ensures s.targetBudget == plan.targetBudget * SubunitsPerCent
    ensures s.totalPlanned == Sum(plan.budgetItems, Planned) * SubunitsPerCent
    ensures s.totalCommitted == Sum(plan.budgetItems, Committed) * SubunitsPerCent
    ensures s.totalPaid == Sum(plan.budgetItems, Paid) * SubunitsPerCent
    ensures s.staffCost == StaffCost(plan.staff)
    ensures s.remainingBudget == s.targetBudget - (s.totalPaid + s.staffCost)
    ensures s.isOverBudget <==> s.remainingBudget < 0
  {
    var planned := Sum(plan.budgetItems, Planned) * SubunitsPerCent;
    var committed := Sum(plan.budgetItems, Committed) * SubunitsPerCent;
    var paid := Sum(plan.budgetItems, Paid) * SubunitsPerCent;
    var staffCost := StaffCost(plan.staff);
    var spent := paid + staffCost;
    var remaining := plan.targetBudget * SubunitsPerCent - spent;
    EventSummary(plan.id, plan.name, plan.targetBudget * SubunitsPerCent,
                 planned, committed, paid, staffCost, remaining, remaining < 0)
  }

  /** A single item counts towards its own status only. */
  lemma SumOfOne(item: BudgetItem, status: BudgetStatus)
    ensures Sum([item], status) == if item.status == status then item.amount else 0
  {
    assert [item][..0] == [];
  }

  /** A single assignment costs its rate times its hours. */
  lemma StaffCostOfOne(staff: StaffAssignment)
    ensures StaffCost([staff]) == staff.hourlyRate * staff.hoursBooked
  {
    assert [staff][..0] == [];
  }

  /** The per-status sum distributes over concatenation. */
  lemma {:induction false} SumConcat(a: seq<BudgetItem>, b: seq<BudgetItem>, status: BudgetStatus)
    ensures Sum(a + b, status) == Sum(a, status) + Sum(b, status)
  {
    if b != [] {
      assert (a + b)[..|a + b| - 1] == a + b[..|b| - 1];
      SumConcat(a, b[..|b| - 1], status);
    } else {
      assert a + b == a;
    }
  }

  /** The cents of the items whose status is none of the three named ones. */
  function UnnamedAmount(items: seq<BudgetItem>): int
  {
    if items == [] then 0
    else UnnamedAmount(items[..|items| - 1]) + (if IsNamedStatus(items[|items| - 1].status) then 0 else items[|items| - 1].amount)
  }

  /**
   * Every item is counted under at most one status: the three totals and the items with an
   * unnamed status add up to all the items.
   */
  lemma {:induction false} StatusTotalsPartition(items: seq<BudgetItem>)
    ensures Sum(items, Planned) + Sum(items, Committed) + Sum(items, Paid) + UnnamedAmount(items) == TotalAmount(items)
  {
    if items != [] {
      StatusTotalsPartition(items[..|items| - 1]);
    }
  }

  /** When every status is a named one, the three totals add up to all the items. */
  lemma {:induction false} NamedStatusTotals(items: seq<BudgetItem>)
    requires forall i :: 0 <= i < |items| ==> IsNamedStatus(items[i].status)
    ensures Sum(items, Planned) + Sum(items, Committed) + Sum(items, Paid) == TotalAmount(items)
  {
    StatusTotalsPartition(items);
    NoUnnamedAmount(items);
  }

  lemma {:induction false} NoUnnamedAmount(items: seq<BudgetItem>)
    requires forall i :: 0 <= i < |items| ==> IsNamedStatus(items[i].status)
    ensures UnnamedAmount(items) == 0
  {
    if items != [] {
      NoUnnamedAmount(items[..|items| - 1]);
    }
  }

  /** An item with an unnamed status, `(BudgetStatus)3` say, is in none of the three totals. */
  lemma UnnamedStatusUncounted(item: BudgetItem)
    requires !IsNamedStatus(item.status)
    ensures Sum([item], Planned) == 0 && Sum([item], Committed) == 0 && Sum([item], Paid) == 0
    ensures UnnamedAmount([item]) == item.amount
  {
    assert [item][..0] == [];
  }

  /** A status that no item has totals zero. */
  lemma {:induction false} SumOfAbsentStatus(items: seq<BudgetItem>, status: BudgetStatus)
    requires forall i :: 0 <= i < |items| ==> items[i].status != status
    ensures Sum(items, status) == 0
  {
    if items != [] {
      SumOfAbsentStatus(items[..|items| - 1], status);
    }
  }

  /** Amounts that are not negative give totals that are not negative. */
  lemma {:induction false} SumNonNegative(items: seq<BudgetItem>, status: BudgetStatus)
    requires forall i :: 0 <= i < |items| ==> items[i].amount >= 0
    ensures Sum(items, status) >= 0
  {
    if items != [] {
      SumNonNegative(items[..|items| - 1], status);
    }
  }

  /** Rates and hours that are not negative give a staff cost that is not negative. */
  lemma {:induction false} StaffCostNonNegative(staff: seq<StaffAssignment>)
    requires forall i :: 0 <= i < |staff| ==> staff[i].hourlyRate >= 0 && staff[i].hoursBooked >= 0
    ensures StaffCost(staff) >= 0
  {
    if staff != [] {
      StaffCostNonNegative(staff[..|staff| - 1]);
      TotalCostSign(staff[|staff| - 1]);
    }
  }

  /**
   * Appending a budget item moves exactly the total of its status, by its amount; the
   * remaining budget drops only when the item is already paid.
   */
  lemma SummaryAfterBudgetItem(plan: EventData, item: BudgetItem)
    ensures var before := BuildEventSummary(plan);
      var after := BuildEventSummary(plan.(budgetItems := plan.budgetItems + [item]));
      var delta := item.amount * SubunitsPerCent;
      && after.totalPlanned == before.totalPlanned + (if item.status == Planned then delta else 0)
      && after.totalCommitted == before.totalCommitted + (if item.status == Committed then delta else 0)
      && after.totalPaid == before.totalPaid + (if item.status == Paid then delta else 0)
      && after.staffCost == before.staffCost
      && after.remainingBudget == before.remainingBudget - (if item.status == Paid then delta else 0)
  {
    var items := plan.budgetItems + [item];
    assert items[..|items| - 1] == plan.budgetItems;
  }

  /** Appending a staff assignment adds its total cost to the staff cost and takes it off the remaining budget. */
  lemma SummaryAfterStaffAssignment(plan: EventData, staff: StaffAssignment)
    ensures var before := BuildEventSummary(plan);
      var after := BuildEventSummary(plan.(staff := plan.staff + [staff]));
      && after.totalPlanned == before.totalPlanned
      && after.totalCommitted == before.totalCommitted
      && after.totalPaid == before.totalPaid
      && after.staffCost == before.staffCost + staff.TotalCost()
      && after.remainingBudget == before.remainingBudget - staff.TotalCost()
  {
    var all := plan.staff + [staff];
    assert all[..|all| - 1] == plan.staff;
  }

  /** With no negative amounts, rates or hours, an event can never have more left than its target. */
  lemma RemainingAtMostTarget(plan: EventData)
    requires forall i :: 0 <= i < |plan.budgetItems| ==> plan.budgetItems[i].amount >= 0
    requires forall i :: 0 <= i < |plan.staff| ==> plan.staff[i].hourlyRate >= 0 && plan.staff[i].hoursBooked >= 0
    ensures BuildEventSummary(plan).remainingBudget <= BuildEventSummary(plan).targetBudget
  {
    SumNonNegative(plan.budgetItems, Paid);
    StaffCostNonNegative(plan.staff);
  }

  /** The summary of each event, in order. */
  function EventSummaries(events: seq<EventData>): (ss: seq<EventSummary>)
    ensures |ss| == |events|
    ensures forall i :: 0 <= i < |events| ==> ss[i] == BuildEventSummary(events[i])
  {
    seq(|events|, i requires 0 <= i < |events| => BuildEventSummary(events[i]))
  }

  /** The sum of the target budgets, in ten-thousandths. */
  function TotalTargetBudget(events: seq<EventData>): int
  {
    if events == [] then 0
    else TotalTargetBudget(events[..|events| - 1]) + events[|events| - 1].targetBudget * SubunitsPerCent
  }

  /** The sum of one field over a sequence of summaries. */
  function SumOf(ss: seq<EventSummary>, field: EventSummary -> int): int
  {
    if ss == [] then 0 else SumOf(ss[..|ss| - 1], field) + field(ss[|ss| - 1])
  }

  /** `summaries.Count(s => s.IsOverBudget)`. */
  function CountOverBudget(ss: seq<EventSummary>): (n: nat)
    ensures n <= |ss|
    ensures n == |set k | 0 <= k < |ss| && ss[k].isOverBudget|
  {
    if ss == [] then 0
    else
      var init, last := ss[..|ss| - 1], |ss| - 1;
      var before := set k | 0 <= k < |init| && init[k].isOverBudget;
      var after := set k | 0 <= k < |ss| && ss[k].isOverBudget;
      assert after == before + (if ss[last].isOverBudget then {last} else {}) by {
        assert forall k :: 0 <= k < |init| ==> init[k] == ss[k];
      }
      assert last !in before;
      CountOverBudget(init) + (if ss[last].isOverBudget then 1 else 0)
  }

  /**
   * `BuildPortfolioSummary`: the number of events, the sum of their targets and of each
   * of their summaries' totals, and how many of them are over budget.
   */
  function BuildPortfolioSummary(events: seq<EventData>): (p: PortfolioSummary)
    ensures p.eventCount == |events|
    ensures p.overBudgetEvents <= p.eventCount
    ensures p.overBudgetEvents == |set k | 0 <= k < |events| && BuildEventSummary(events[k]).isOverBudget|
  {
    var summaries := EventSummaries(events);
    assert (set k | 0 <= k < |summaries| && summaries[k].isOverBudget)
        == (set k | 0 <= k < |events| && BuildEventSummary(events[k]).isOverBudget);
    PortfolioSummary(
      |events|,
      TotalTargetBudget(events),
      SumOf(summaries, (s: EventSummary) => s.totalPlanned),
      SumOf(summaries, (s: EventSummary) => s.totalCommitted),
      SumOf(summaries, (s: EventSummary) => s.totalPaid),
      SumOf(summaries, (s: EventSummary) => s.staffCost),
      CountOverBudget(summaries))
  }

  /** What one more event adds to a portfolio summary. */
  function AddEvent(p: PortfolioSummary, s: EventSummary): PortfolioSummary
  {
    PortfolioSummary(
      p.eventCount + 1,
      p.totalTargetBudget + s.targetBudget,
      p.totalPlanned + s.totalPlanned,
      p.totalCommitted + s.totalCommitted,
      p.totalPaid + s.totalPaid,
      p.totalStaffCost + s.staffCost,
      p.overBudgetEvents + (if s.isOverBudget then 1 else 0))
  }

  /** The portfolio of no events is all zeros. */
  lemma PortfolioOfNone()
    ensures BuildPortfolioSummary([]) == PortfolioSummary(0, 0, 0, 0, 0, 0, 0)
  {
  }

  /** Adding an event at the end adds its own summary's figures to every portfolio total. */
  lemma PortfolioAppend(events: seq<EventData>, e: EventData)
    ensures BuildPortfolioSummary(events + [e]) == AddEvent(BuildPortfolioSummary(events), BuildEventSummary(e))
  {
    var all := events + [e];
    assert all[..|all| - 1] == events;
    assert EventSummaries(all)[..|all| - 1] == EventSummaries(events);
  }

  /** Every total of a one-event portfolio is that event's own figure. */
  lemma PortfolioOfOne(e: EventData)
    ensures var p := BuildPortfolioSummary([e]);
      var s := BuildEventSummary(e);
      && p.eventCount == 1 && p.totalTargetBudget == s.targetBudget
      && p.totalPlanned == s.totalPlanned && p.totalCommitted == s.totalCommitted
      && p.totalPaid == s.totalPaid && p.totalStaffCost == s.staffCost
      && p.overBudgetEvents == (if s.isOverBudget then 1 else 0)
  {
    PortfolioOfNone();
    PortfolioAppend([], e);
    assert [] + [e] == [e];
  }

  /** Two portfolio summaries combined field by field. */
  function Merge(p: PortfolioSummary, q: PortfolioSummary): PortfolioSummary
  {
    PortfolioSummary(
      p.eventCount + q.eventCount,
      p.totalTargetBudget + q.totalTargetBudget,
      p.totalPlanned + q.totalPlanned,
      p.totalCommitted + q.totalCommitted,
      p.totalPaid + q.totalPaid,
      p.totalStaffCost + q.totalStaffCost,
      p.overBudgetEvents + q.overBudgetEvents)
  }

  /** Portfolio summaries are additive: the summary of two lists of events is the merge of theirs. */
  lemma {:induction false} PortfolioConcat(a: seq<EventData>, b: seq<EventData>)
    ensures BuildPortfolioSummary(a + b) == Merge(BuildPortfolioSummary(a), BuildPortfolioSummary(b))
  {
    if b == [] {
      assert a + b == a;
      PortfolioOfNone();
    } else {
      var init, last := b[..|b| - 1], b[|b| - 1];
      assert a + b == (a + init) + [last];
      assert b == init + [last];
      PortfolioConcat(a, init);
      PortfolioAppend(a + init, last);
      PortfolioAppend(init, last);
    }
  }
}
