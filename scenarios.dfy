/** Worked inputs for the ledger engine, evaluated through the model. */
module Scenarios {
  import opened Entries
  import opened Events
  import opened DateSort
  import opened RunningBalance
  import opened Transfers
  import opened Ledger

  /** No entries and a zero starting balance: one row, no recommendations, all figures zero. */
  lemma OpeningOnly(firstOfMonth: int)
    ensures LedgerOf(firstOfMonth, 0, [], [])
      == Report([Row(OpeningEvent(firstOfMonth, 0), 0, 0, false)], [], Stats(0, 0, 0, 0))
  {
    var o := OpeningEvent(firstOfMonth, 0);
    assert PushedEvents(firstOfMonth, 0, [], []) == [o];
    assert [o][1..] == [];
    assert SortByDate([o]) == Insert(o, []) == [o];
    assert SortedEvents(firstOfMonth, 0, [], []) == [o];
    assert [o][..0] == [];
    assert Timeline([o]) == [Row(o, 0, 0, false)];
    assert MinBalance([o]) == Finite(0);
    assert Plan(0, [o]) == PassState(0, []);
    assert TransferNeeded(Finite(0)) == 0;
    LedgerTotals(firstOfMonth, 0, [], []);
    assert BalanceAfter([o]) == 0;
  }

  lemma RentSalarySorted()
    ensures SortedEvents(1, 1000, [Entry("i", "Salary", 500, 10)], [Entry("e", "Rent", 2000, 5)])
      == [OpeningEvent(1, 1000), Event(5, "Rent", Expense, 2000), Event(10, "Salary", Income, 500)]
  {
    var o, rent, salary := OpeningEvent(1, 1000), Event(5, "Rent", Expense, 2000), Event(10, "Salary", Income, 500);
    assert [Entry("i", "Salary", 500, 10)][..0] == [] && [Entry("e", "Rent", 2000, 5)][..0] == [];
    assert PushedEvents(1, 1000, [Entry("i", "Salary", 500, 10)], [Entry("e", "Rent", 2000, 5)]) == [o, salary, rent];
    assert [o, salary, rent][1..] == [salary, rent] && [salary, rent][1..] == [rent] && [rent][1..] == [];
    assert SortByDate([rent]) == [rent];
    assert SortByDate([salary, rent]) == Insert(salary, [rent]) == [rent, salary];
  }

  lemma RentSalaryTimeline()
    ensures Timeline([OpeningEvent(1, 1000), Event(5, "Rent", Expense, 2000), Event(10, "Salary", Income, 500)]) == [
        Row(OpeningEvent(1, 1000), 0, 1000, false),
        Row(Event(5, "Rent", Expense, 2000), -2000, -1000, true),
        Row(Event(10, "Salary", Income, 500), 500, -500, true)]
    ensures MinBalance([OpeningEvent(1, 1000), Event(5, "Rent", Expense, 2000), Event(10, "Salary", Income, 500)]) == Finite(-1000)
  {
    var o, rent, salary := OpeningEvent(1, 1000), Event(5, "Rent", Expense, 2000), Event(10, "Salary", Income, 500);
    var sorted := [o, rent, salary];
    assert sorted[..2] == [o, rent] && [o, rent][..1] == [o] && [o][..0] == [];
    assert BalanceAfter([o]) == 1000;
    assert BalanceAfter([o, rent]) == -1000;
    assert BalanceAfter(sorted) == -500;
    assert Timeline([o]) == [Row(o, 0, 1000, false)];
    assert Timeline([o, rent]) == [Row(o, 0, 1000, false), Row(rent, -2000, -1000, true)];
    assert MinBalance([o]) == Finite(1000);
    assert MinBalance([o, rent]) == Finite(-1000);
  }

  lemma RentSalaryPlan()
    ensures Plan(1000, [OpeningEvent(1, 1000), Event(5, "Rent", Expense, 2000), Event(10, "Salary", Income, 500)])
      == PassState(500, [Transfer(5, "Rent", 1000)])
  {
    var o, rent, salary := OpeningEvent(1, 1000), Event(5, "Rent", Expense, 2000), Event(10, "Salary", Income, 500);
    assert [o, rent, salary][..2] == [o, rent] && [o, rent][..1] == [o] && [o][..0] == [];
    assert Plan(1000, [o]) == PassState(1000, []);
    assert RoundUpToHundred(1000) == 1000;
    assert Plan(1000, [o, rent]) == Step(PassState(1000, []), rent) == PassState(0, [Transfer(5, "Rent", 1000)]);
  }

  /** Starting balance 1000, an expense of 2000 on day 5 and an income of 500
      on day 10: the expense takes the balance to -1000, a transfer of 1000 is
      recommended before it, and the later income does not reduce it. */
  lemma ExpenseBeforeIncome()
    ensures var r := LedgerOf(1, 1000, [Entry("i", "Salary", 500, 10)], [Entry("e", "Rent", 2000, 5)]);
      && r.timeline == [
        Row(OpeningEvent(1, 1000), 0, 1000, false),
        Row(Event(5, "Rent", Expense, 2000), -2000, -1000, true),
        Row(Event(10, "Salary", Income, 500), 500, -500, true)]
      && r.transfers == [Transfer(5, "Rent", 1000)]
      && r.stats == Stats(500, 2000, -500, 1000)
  {
    var sorted := [OpeningEvent(1, 1000), Event(5, "Rent", Expense, 2000), Event(10, "Salary", Income, 500)];
    RentSalarySorted();
    RentSalaryTimeline();
    RentSalaryPlan();
    LedgerTotals(1, 1000, [Entry("i", "Salary", 500, 10)], [Entry("e", "Rent", 2000, 5)]);
    assert [Entry("i", "Salary", 500, 10)][..0] == [] && [Entry("e", "Rent", 2000, 5)][..0] == [];
    TimelineAt(sorted);
    assert BalanceAfter(sorted) == BalanceAt(sorted, 2) == -500 by {
      assert sorted[..3] == sorted;
    }
  }

  /** An income dated before the first of the month sorts ahead of the opening
      event, which then overwrites the balance: the income is counted in the
      total but lost from the end balance. */
  lemma EarlyEntryOverwritten()
    ensures var r := LedgerOf(10, 1000, [Entry("i", "Bonus", 50, 9)], []);
      && r.stats.totalIncome == 50
      && r.stats.endBalance == 1000
      && r.stats.endBalance != 1000 + r.stats.totalIncome - r.stats.totalExpenses
  {
    var o, bonus := OpeningEvent(10, 1000), Event(9, "Bonus", Income, 50);
    assert SortedEvents(10, 1000, [Entry("i", "Bonus", 50, 9)], []) == [bonus, o];
    assert [bonus, o][..1] == [bonus] && [bonus][..0] == [];
    LedgerTotals(10, 1000, [Entry("i", "Bonus", 50, 9)], []);
    assert [Entry("i", "Bonus", 50, 9)][..0] == [];
  }

  lemma SameDaySorted()
    ensures SortedEvents(1, 100, [], [Entry("a", "A", 150, 3), Entry("b", "B", 120, 3)])
      == [OpeningEvent(1, 100), Event(3, "A", Expense, 150), Event(3, "B", Expense, 120)]
  {
    var o, a, b := OpeningEvent(1, 100), Event(3, "A", Expense, 150), Event(3, "B", Expense, 120);
    var expenses := [Entry("a", "A", 150, 3), Entry("b", "B", 120, 3)];
    assert expenses[..1] == [Entry("a", "A", 150, 3)] && expenses[..1][..0] == [];
    assert AsEvents(expenses, Expense) == [a, b];
    assert PushedEvents(1, 100, [], expenses) == [o, a, b];
    assert [o, a, b][1..] == [a, b] && [a, b][1..] == [b] && [b][1..] == [];
    assert SortByDate([b]) == [b];
    assert SortByDate([a, b]) == [a, b];
  }

  /** The source's pass on the same-day input: the second expense finds the
      day's recommendation of 100 already large enough and leaves it. */
  lemma SameDayPlan()
    ensures Plan(100, [OpeningEvent(1, 100), Event(3, "A", Expense, 150), Event(3, "B", Expense, 120)])
      == PassState(-70, [Transfer(3, "A", 100)])
  {
    var o, a, b := OpeningEvent(1, 100), Event(3, "A", Expense, 150), Event(3, "B", Expense, 120);
    assert [o, a, b][..2] == [o, a] && [o, a][..1] == [o] && [o][..0] == [];
    assert Plan(100, [o]) == PassState(100, []);
    assert RoundUpToHundred(50) == 100;
    assert Plan(100, [o, a]) == Step(PassState(100, []), a) == PassState(50, [Transfer(3, "A", 100)]);
    assert RoundUpToHundred(70) == 100;
    assert FindByDate([Transfer(3, "A", 100)], 3) == 0;
  }

  /** The corrected pass on the same input raises the day's recommendation to 200. */
  lemma SameDayCoveringPlan()
    ensures CoveringPlan(100, [OpeningEvent(1, 100), Event(3, "A", Expense, 150), Event(3, "B", Expense, 120)])
      == PassState(30, [Transfer(3, "A", 200)])
  {
    var o, a, b := OpeningEvent(1, 100), Event(3, "A", Expense, 150), Event(3, "B", Expense, 120);
    assert [o, a, b][..2] == [o, a] && [o, a][..1] == [o] && [o][..0] == [];
    assert CoveringPlan(100, [o]) == PassState(100, []);
    assert RoundUpToHundred(50) == 100;
    assert CoveringPlan(100, [o, a]) == CoveringStep(PassState(100, []), a) == PassState(50, [Transfer(3, "A", 100)]);
    assert RoundUpToHundred(70) == 100;
    assert FindByDate([Transfer(3, "A", 100)], 3) == 0;
  }

  /** The balance on the same-day input ends at -170. */
  lemma SameDayTimeline()
    ensures Timeline([OpeningEvent(1, 100), Event(3, "A", Expense, 150), Event(3, "B", Expense, 120)]) == [
        Row(OpeningEvent(1, 100), 0, 100, false),
        Row(Event(3, "A", Expense, 150), -150, -50, true),
        Row(Event(3, "B", Expense, 120), -120, -170, true)]
  {
    var o, a, b := OpeningEvent(1, 100), Event(3, "A", Expense, 150), Event(3, "B", Expense, 120);
    assert [o, a, b][..2] == [o, a] && [o, a][..1] == [o] && [o][..0] == [];
    assert BalanceAfter([o]) == 100;
    assert BalanceAfter([o, a]) == -50;
    assert Timeline([o]) == [Row(o, 0, 100, false)];
  }

  /** Two expenses of 150 and 120 on day 3 against a starting balance of 100:
      the source recommends one transfer of 100 for the day, although the
      balance that day ends at -170, so the recommended deposit leaves it at -70.
      The input has no entry before the first of the month, so the corrected
      pass, which recommends 200 for that date, covers every row. */
  lemma SameDayShortfallUndersized()
    ensures NoEarlyEntries(1, [], [Entry("a", "A", 150, 3), Entry("b", "B", 120, 3)])
    ensures var r := LedgerOf(1, 100, [], [Entry("a", "A", 150, 3), Entry("b", "B", 120, 3)]);
      && r.transfers == [Transfer(3, "A", 100)]
      && r.timeline[|r.timeline| - 1].balance == -170
      && r.timeline[|r.timeline| - 1].balance + Recommended(r.transfers) < 0
      && CoveringPlan(100, RowEvents(r.timeline)).transfers == [Transfer(3, "A", 200)]
  {
    var sorted := [OpeningEvent(1, 100), Event(3, "A", Expense, 150), Event(3, "B", Expense, 120)];
    SameDaySorted();
    SameDayPlan();
    SameDayCoveringPlan();
    SameDayTimeline();
    TimelineEvents(sorted);
    assert [Transfer(3, "A", 100)][..0] == [];
  }
}
