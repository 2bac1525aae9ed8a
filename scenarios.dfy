/**
 * The planner's worked examples, stated over the functions the service's contracts name
 * rather than by calling its methods: `CreateEvent` appends an event, `AddBudgetItem` and
 * `AddStaffAssignment` give the events `WithBudgetItem` and `WithStaffAssignment` at
 * `FirstIndex` of the event's identifier, and the summaries are computed from the resulting
 * events. Identifiers are handed out as 1, 2, 3, ...
 */
module Scenarios {
  import opened Money
  import opened Models
  import opened Summaries
  import opened Planner

  /** A whole amount given with no decimal places is stored as that many hundreds of hundredths. */
  lemma WholeAmount(units: int)
    ensures RoundToHundredths(Decimal(units, 0)) == units * 100
  {
    RoundToHundredthsExact(Decimal(units, 0));
  }

  /**
   * "Music Fest": a 5000.00 target, a paid 4200.00 stage and 24 hours of staff at 50.00.
   * 4200 paid and 1200 of staff leave -400 (in ten-thousandths), so the event is over budget.
   */
  lemma MusicFest()
    ensures var e := EventData(1, "Music Fest", Date(739416), "Lviv", RoundToHundredths(Decimal(5000, 0)), "EUR", [], []);
      var stage := BudgetItem(2, "Stage", "Stage rental", RoundToHundredths(Decimal(4200, 0)), Paid);
      var anna := StaffAssignment(3, "Anna Kovalenko", "Coordinator", RoundToHundredths(Decimal(50, 0)), RoundToHundredths(Decimal(24, 0)));
      var withStage := WithBudgetItem([e], FirstIndex([e], 1), stage);
      var events := WithStaffAssignment(withStage, FirstIndex(withStage, 1), anna);
      var s := BuildEventSummary(events[FirstIndex(events, 1)]);
      && s.totalPaid == 42000000 && s.staffCost == 12000000
      && s.remainingBudget == -4000000 && s.isOverBudget
  {
    WholeAmount(5000);
    WholeAmount(4200);
    WholeAmount(50);
    WholeAmount(24);
    var e := EventData(1, "Music Fest", Date(739416), "Lviv", 500000, "EUR", [], []);
    var stage := BudgetItem(2, "Stage", "Stage rental", 420000, Paid);
    var anna := StaffAssignment(3, "Anna Kovalenko", "Coordinator", 5000, 2400);
    var withStage := WithBudgetItem([e], 0, stage);
    assert FirstIndex([e], 1) == 0 && FirstIndex(withStage, 1) == 0;
    var events := WithStaffAssignment(withStage, 0, anna);
    assert FirstIndex(events, 1) == 0;
    assert events[0] == e.(budgetItems := [stage], staff := [anna]);
    SumOfOne(stage, Paid);
    StaffCostOfOne(anna);
  }

  /** The two events after the "Conference" and "Workshop" operations, as the service leaves them. */
  lemma ConferenceAndWorkshopEvents(a0: EventData, b0: EventData, hall: BudgetItem, oleh: StaffAssignment, ads: BudgetItem)
    ensures WithBudgetItem(WithStaffAssignment(WithBudgetItem([a0], 0, hall), 0, oleh) + [b0], 1, ads)
      == [a0.(budgetItems := a0.budgetItems + [hall], staff := a0.staff + [oleh]), b0.(budgetItems := b0.budgetItems + [ads])]
  {
    var a := a0.(budgetItems := a0.budgetItems + [hall], staff := a0.staff + [oleh]);
    var b := b0.(budgetItems := b0.budgetItems + [ads]);
    var one := WithStaffAssignment(WithBudgetItem([a0], 0, hall), 0, oleh);
    assert one == [a] by {
      assert one[0] == a;
    }
    assert one + [b0] == [a, b0];
    var events := WithBudgetItem([a, b0], 1, ads);
    assert events == [a, b] by {
      assert events[0] == a && events[1] == b;
    }
  }

  /** The portfolio of the two events: every total is the sum of the two events' own figures. */
  lemma ConferenceAndWorkshopPortfolio(a: EventData, b: EventData)
    requires a.targetBudget == 1000000 && a.budgetItems == [BudgetItem(2, "Venue", "Hall", 300000, Paid)]
    requires a.staff == [StaffAssignment(3, "Oleh", "PM", 6000, 3000)]
    requires b.targetBudget == 600000 && b.budgetItems == [BudgetItem(5, "Marketing", "Ads", 150000, Committed)]
    requires b.staff == []
    ensures BuildPortfolioSummary([a, b]) == PortfolioSummary(2, 160000000, 0, 15000000, 30000000, 18000000, 0)
  {
    var hall, ads := a.budgetItems[0], b.budgetItems[0];
    SumOfOne(hall, Planned);
    SumOfOne(hall, Committed);
    SumOfOne(hall, Paid);
    SumOfOne(ads, Planned);
    SumOfOne(ads, Committed);
    SumOfOne(ads, Paid);
    StaffCostOfOne(a.staff[0]);
    PortfolioOfOne(a);
    PortfolioAppend([a], b);
    assert [a] + [b] == [a, b];
  }

  /**
   * "Conference" (10000.00, a paid 3000.00 hall, 30 hours at 60.00) and "Workshop" (6000.00,
   * 1500.00 of committed ads): two events, 16000 of target, 3000 paid, 1500 committed,
   * 1800 of staff and neither over budget.
   */
  lemma ConferenceAndWorkshop()
    ensures var a := EventData(1, "Conference", Date(739260), "Kyiv", RoundToHundredths(Decimal(10000, 0)), "USD", [], []);
      var hall := BudgetItem(2, "Venue", "Hall", RoundToHundredths(Decimal(3000, 0)), Paid);
      var oleh := StaffAssignment(3, "Oleh", "PM", RoundToHundredths(Decimal(60, 0)), RoundToHundredths(Decimal(30, 0)));
      var b := EventData(4, "Workshop", Date(739286), "Odesa", RoundToHundredths(Decimal(6000, 0)), "USD", [], []);
      var ads := BudgetItem(5, "Marketing", "Ads", RoundToHundredths(Decimal(1500, 0)), Committed);
      var withHall := WithBudgetItem([a], FirstIndex([a], 1), hall);
      var withOleh := WithStaffAssignment(withHall, FirstIndex(withHall, 1), oleh) + [b];
      var workshop := FirstIndex(withOleh, 4);
      && workshop == 1
      && BuildPortfolioSummary(WithBudgetItem(withOleh, workshop, ads))
         == PortfolioSummary(2, 160000000, 0, 15000000, 30000000, 18000000, 0)
  {
    WholeAmount(10000);
    WholeAmount(3000);
    WholeAmount(60);
    WholeAmount(30);
    WholeAmount(6000);
    WholeAmount(1500);
    var hall := BudgetItem(2, "Venue", "Hall", 300000, Paid);
    var oleh := StaffAssignment(3, "Oleh", "PM", 6000, 3000);
    var ads := BudgetItem(5, "Marketing", "Ads", 150000, Committed);
    var a0 := EventData(1, "Conference", Date(739260), "Kyiv", 1000000, "USD", [], []);
    var b0 := EventData(4, "Workshop", Date(739286), "Odesa", 600000, "USD", [], []);
    var withHall := WithBudgetItem([a0], 0, hall);
    assert FirstIndex([a0], 1) == 0 && FirstIndex(withHall, 1) == 0;
    var withOleh := WithStaffAssignment(withHall, 0, oleh) + [b0];
    assert FirstIndex(withOleh, 4) == 1 by {
      assert withOleh[0].id == 1 && withOleh[1].id == 4;
    }
    ConferenceAndWorkshopEvents(a0, b0, hall, oleh, ads);
    ConferenceAndWorkshopPortfolio(a0.(budgetItems := [hall], staff := [oleh]), b0.(budgetItems := [ads]));
  }
}
