/** The ledger engine: from a starting balance and the month's entries to the
    timeline, the itemised transfer recommendations and the statistics. */
module Ledger {
  import opened Entries
  import opened Events
  import opened DateSort
  import opened RunningBalance
  import opened Transfers

  datatype Stats = Stats(totalIncome: int, totalExpenses: int, endBalance: int, transferNeeded: int)

  /** What the engine hands back: the timeline rows, the recommendations, the statistics. */
  datatype Report = Report(timeline: seq<Row>, transfers: seq<Transfer>, stats: Stats)

  /** One deposit, rounded up to 100, that would lift the lowest
      balance of the timeline to zero; 0 when the balance never goes negative. */
  function TransferNeeded(minBalance: Extended): (r: int)
    ensures r >= 0 && r % 100 == 0
    ensures r == 0 <==> !(minBalance.Finite? && minBalance.value < 0)
    ensures minBalance.Finite? && minBalance.value < 0 ==> -minBalance.value <= r < -minBalance.value + 100
  {
    if minBalance.Finite? && minBalance.value < 0 then RoundUpToHundred(-minBalance.value) else 0
  }

  /** The pushed events after the stable sort by date. */
  function SortedEvents(firstOfMonth: int, startingBalance: int, incomes: seq<Entry>, expenses: seq<Entry>): seq<Event>
  {
    SortByDate(PushedEvents(firstOfMonth, startingBalance, incomes, expenses))
  }

  /** The engine's result, as a function of its inputs. */
  function LedgerOf(firstOfMonth: int, startingBalance: int, incomes: seq<Entry>, expenses: seq<Entry>): Report
  {
    var events := SortedEvents(firstOfMonth, startingBalance, incomes, expenses);
    Report(
      Timeline(events),
      Plan(startingBalance, events).transfers,
      Stats(TotalOf(events, Income), TotalOf(events, Expense), BalanceAfter(events), TransferNeeded(MinBalance(events))))
  }

  /** Builds the events, sorts them in place, makes the running-balance pass
      and the transfer pass, and computes the aggregate transfer figure. */
  method ComputeLedger(firstOfMonth: int, startingBalance: int, incomes: seq<Entry>, expenses: seq<Entry>)
    returns (report: Report)
    ensures report == LedgerOf(firstOfMonth, startingBalance, incomes, expenses)
    ensures |report.timeline| == 1 + |incomes| + |expenses|
    ensures report.stats.totalIncome == SumAmounts(incomes)
    ensures report.stats.totalExpenses == SumAmounts(expenses)
  {
    var pushed := BuildEvents(firstOfMonth, startingBalance, incomes, expenses);
    var events := new Event[|pushed|](k requires 0 <= k < |pushed| => pushed[k]);
    assert events[..] == pushed;
    SortInPlace(events);
    var rows, balance, totalIncome, totalExpenses, minBalance := RunningBalancePass(events[..]);
    var transfers := TransferPass(startingBalance, events[..]);
    report := Report(rows, transfers, Stats(totalIncome, totalExpenses, balance, TransferNeeded(minBalance)));
    LedgerRowCount(firstOfMonth, startingBalance, incomes, expenses);
    LedgerTotals(firstOfMonth, startingBalance, incomes, expenses);
  }

  lemma {:induction false} TotalOfInsert(x: Event, s: seq<Event>, kind: Kind)
    ensures TotalOf(Insert(x, s), kind) == TotalOf([x] + s, kind)
  {
    if s != [] && x.date > s[0].date {
      TotalOfInsert(x, s[1..], kind);
      TotalOfConcat([s[0]], Insert(x, s[1..]), kind);
      TotalOfConcat([x], s[1..], kind);
      TotalOfConcat([x], s, kind);
      TotalOfConcat([s[0]], s[1..], kind);
      assert s == [s[0]] + s[1..];
    }
  }

  /** Sorting does not change the totals: they do not depend on the date order. */
  lemma {:induction false} TotalOfSorted(s: seq<Event>, kind: Kind)
    ensures TotalOf(SortByDate(s), kind) == TotalOf(s, kind)
  {
    if s != [] {
      TotalOfSorted(s[1..], kind);
      TotalOfInsert(s[0], SortByDate(s[1..]), kind);
      TotalOfConcat([s[0]], SortByDate(s[1..]), kind);
      TotalOfConcat([s[0]], s[1..], kind);
      assert s == [s[0]] + s[1..];
    }
  }

  lemma {:induction false} TotalOfEntries(entries: seq<Entry>, kind: Kind, counted: Kind)
    ensures TotalOf(AsEvents(entries, kind), counted) == if kind == counted then SumAmounts(entries) else 0
  {
    if entries != [] {
      TotalOfEntries(entries[..|entries| - 1], kind, counted);
    }
  }

  /** The timeline has one row per pushed event: the opening balance, each income, each expense. */
  lemma LedgerRowCount(firstOfMonth: int, startingBalance: int, incomes: seq<Entry>, expenses: seq<Entry>)
    ensures |LedgerOf(firstOfMonth, startingBalance, incomes, expenses).timeline| == 1 + |incomes| + |expenses|
  {
    var pushed := PushedEvents(firstOfMonth, startingBalance, incomes, expenses);
    PushedEventsLayout(firstOfMonth, startingBalance, incomes, expenses);
    SortByDateProperties(pushed);
    TimelineAt(SortByDate(pushed));
  }

  /** The rows are in date order, hold exactly the pushed events, and on each
      day keep push order: the opening balance, then incomes in list order,
      then expenses in list order. */
  lemma LedgerRowOrder(firstOfMonth: int, startingBalance: int, incomes: seq<Entry>, expenses: seq<Entry>)
    ensures var rows := RowEvents(LedgerOf(firstOfMonth, startingBalance, incomes, expenses).timeline);
      && SortedByDate(rows)
      && multiset(rows) == multiset(PushedEvents(firstOfMonth, startingBalance, incomes, expenses))
      && forall d :: OnDate(rows, d) ==
           (if d == firstOfMonth then [OpeningEvent(firstOfMonth, startingBalance)] else [])
           + OnDate(AsEvents(incomes, Income), d) + OnDate(AsEvents(expenses, Expense), d)
  {
    var pushed := PushedEvents(firstOfMonth, startingBalance, incomes, expenses);
    SortByDateProperties(pushed);
    TimelineEvents(SortByDate(pushed));
    forall d ensures OnDate(pushed, d) ==
      (if d == firstOfMonth then [OpeningEvent(firstOfMonth, startingBalance)] else [])
      + OnDate(AsEvents(incomes, Income), d) + OnDate(AsEvents(expenses, Expense), d)
    {
      PushedOnDate(firstOfMonth, startingBalance, incomes, expenses, d);
    }
  }

  /** The pushed events of one day: the opening event if it is the first of
      the month, then that day's incomes, then that day's expenses. */
  lemma PushedOnDate(firstOfMonth: int, startingBalance: int, incomes: seq<Entry>, expenses: seq<Entry>, d: int)
    ensures OnDate(PushedEvents(firstOfMonth, startingBalance, incomes, expenses), d) ==
      (if d == firstOfMonth then [OpeningEvent(firstOfMonth, startingBalance)] else [])
      + OnDate(AsEvents(incomes, Income), d) + OnDate(AsEvents(expenses, Expense), d)
  {
    var opening := OpeningEvent(firstOfMonth, startingBalance);
    OnDateConcat([opening] + AsEvents(incomes, Income), AsEvents(expenses, Expense), d);
    OnDateConcat([opening], AsEvents(incomes, Income), d);
    OnDateTail([opening], d);
    assert [opening][1..] == [];
  }

  /** Each row's change is +amount for an income, -amount for an expense and 0
      for the opening balance; a row is flagged negative exactly when its balance is. */
  lemma LedgerRowSigns(firstOfMonth: int, startingBalance: int, incomes: seq<Entry>, expenses: seq<Entry>)
    ensures var rows := LedgerOf(firstOfMonth, startingBalance, incomes, expenses).timeline;
      forall k :: 0 <= k < |rows| ==>
        && (rows[k].event.kind == Opening ==> rows[k].change == 0)
        && (rows[k].event.kind == Income ==> rows[k].change == rows[k].event.amount)
        && (rows[k].event.kind == Expense ==> rows[k].change == -rows[k].event.amount)
        && (rows[k].isNegative <==> rows[k].balance < 0)
  {
    TimelineAt(SortedEvents(firstOfMonth, startingBalance, incomes, expenses));
  }

  /** The totals are the sums of the entry amounts, whatever their dates. */
  lemma LedgerTotals(firstOfMonth: int, startingBalance: int, incomes: seq<Entry>, expenses: seq<Entry>)
    ensures LedgerOf(firstOfMonth, startingBalance, incomes, expenses).stats.totalIncome == SumAmounts(incomes)
    ensures LedgerOf(firstOfMonth, startingBalance, incomes, expenses).stats.totalExpenses == SumAmounts(expenses)
  {
    var opening := OpeningEvent(firstOfMonth, startingBalance);
    var pushed := PushedEvents(firstOfMonth, startingBalance, incomes, expenses);
    TotalOfSorted(pushed, Income);
    TotalOfSorted(pushed, Expense);
    TotalOfConcat([opening] + AsEvents(incomes, Income), AsEvents(expenses, Expense), Income);
    TotalOfConcat([opening] + AsEvents(incomes, Income), AsEvents(expenses, Expense), Expense);
    TotalOfConcat([opening], AsEvents(incomes, Income), Income);
    TotalOfConcat([opening], AsEvents(incomes, Income), Expense);
    TotalOfEntries(incomes, Income, Income);
    TotalOfEntries(incomes, Income, Expense);
    TotalOfEntries(expenses, Expense, Income);
    TotalOfEntries(expenses, Expense, Expense);
    assert [opening][..0] == [];
  }

  /** No entry dated before the first of the month. */
  predicate NoEarlyEntries(firstOfMonth: int, incomes: seq<Entry>, expenses: seq<Entry>)
  {
    && (forall e :: e in incomes ==> firstOfMonth <= e.date)
    && (forall e :: e in expenses ==> firstOfMonth <= e.date)
  }

  /** An event no later than all the others sorts in front of them. */
  lemma EarliestSortsFirst(s: seq<Event>)
    requires s != [] && forall x :: x in s ==> s[0].date <= x.date
    ensures SortByDate(s) == [s[0]] + SortByDate(s[1..])
  {
    var rest := SortByDate(s[1..]);
    SortByDateProperties(s[1..]);
    if rest != [] {
      assert rest[0] in multiset(s[1..]);
      assert rest[0] in s;
    }
  }

  /** Every pushed event falls on or after the first of the month. */
  lemma PushedNotEarly(firstOfMonth: int, startingBalance: int, incomes: seq<Entry>, expenses: seq<Entry>)
    requires NoEarlyEntries(firstOfMonth, incomes, expenses)
    ensures forall x :: x in PushedEvents(firstOfMonth, startingBalance, incomes, expenses) ==> firstOfMonth <= x.date
  {
    var pushed := PushedEvents(firstOfMonth, startingBalance, incomes, expenses);
    PushedEventsLayout(firstOfMonth, startingBalance, incomes, expenses);
    forall k | 0 <= k < |pushed| ensures firstOfMonth <= pushed[k].date {
      if 1 <= k < 1 + |incomes| {
        assert incomes[k - 1] in incomes;
      } else if 1 + |incomes| <= k {
        assert expenses[k - 1 - |incomes|] in expenses;
      }
    }
  }

  /** With no entry before the first of the month the opening event sorts
      first, and it is the only opening event. */
  lemma OpeningSortsFirst(firstOfMonth: int, startingBalance: int, incomes: seq<Entry>, expenses: seq<Entry>)
    requires NoEarlyEntries(firstOfMonth, incomes, expenses)
    ensures var sorted := SortedEvents(firstOfMonth, startingBalance, incomes, expenses);
      && sorted != []
      && sorted[0] == OpeningEvent(firstOfMonth, startingBalance)
      && forall k :: 1 <= k < |sorted| ==> sorted[k].kind != Opening
  {
    var pushed := PushedEvents(firstOfMonth, startingBalance, incomes, expenses);
    PushedEventsLayout(firstOfMonth, startingBalance, incomes, expenses);
    PushedNotEarly(firstOfMonth, startingBalance, incomes, expenses);
    EarliestSortsFirst(pushed);
    var rest := SortByDate(pushed[1..]);
    SortByDateProperties(pushed[1..]);
    forall k | 0 <= k < |rest| ensures rest[k].kind != Opening {
      assert rest[k] in multiset(pushed[1..]);
      var j :| 0 <= j < |pushed| - 1 && pushed[1..][j] == rest[k];
      assert pushed[j + 1] == rest[k];
    }
  }

  /** With no entry before the first of the month: the first row is the
      opening balance, each later row moves the balance by its change, and the
      month ends at the starting balance plus income minus expenses. */
  lemma LedgerFromOpening(firstOfMonth: int, startingBalance: int, incomes: seq<Entry>, expenses: seq<Entry>)
    requires NoEarlyEntries(firstOfMonth, incomes, expenses)
    ensures var r := LedgerOf(firstOfMonth, startingBalance, incomes, expenses);
      && r.timeline != []
      && r.timeline[0].event == OpeningEvent(firstOfMonth, startingBalance)
      && r.timeline[0].change == 0
      && r.timeline[0].balance == startingBalance
      && (forall k :: 1 <= k < |r.timeline| ==> r.timeline[k].balance == r.timeline[k - 1].balance + r.timeline[k].change)
      && r.stats.endBalance == startingBalance + r.stats.totalIncome - r.stats.totalExpenses
  {
    var sorted := SortedEvents(firstOfMonth, startingBalance, incomes, expenses);
    OpeningSortsFirst(firstOfMonth, startingBalance, incomes, expenses);
    TimelineAt(sorted);
    BalanceAtStep(sorted, 0);
    forall k | 1 <= k < |sorted| ensures BalanceAt(sorted, k) == BalanceAt(sorted, k - 1) + Change(sorted[k]) {
      BalanceAtStep(sorted, k);
    }
    BalanceFromOpening(sorted);
  }

  /** The net change of a list of events is its income minus its expenses. */
  lemma {:induction false} NetChangeTotals(s: seq<Event>)
    ensures NetChange(s) == TotalOf(s, Income) - TotalOf(s, Expense)
  {
    if s != [] {
      NetChangeTotals(s[..|s| - 1]);
    }
  }

  /** With no entry before the first of the month, the corrected pass keeps
      every row covered: the row's balance plus the deposits recommended up to
      and including that row is never negative. */
  lemma CoveringPlanCoversRows(firstOfMonth: int, startingBalance: int, incomes: seq<Entry>, expenses: seq<Entry>)
    requires NoEarlyEntries(firstOfMonth, incomes, expenses)
    ensures var rows := LedgerOf(firstOfMonth, startingBalance, incomes, expenses).timeline;
      forall k :: 0 <= k < |rows| ==>
        rows[k].balance + Recommended(CoveringPlan(startingBalance, RowEvents(rows)[..k + 1]).transfers) >= 0
  {
    var sorted := SortedEvents(firstOfMonth, startingBalance, incomes, expenses);
    OpeningSortsFirst(firstOfMonth, startingBalance, incomes, expenses);
    TimelineAt(sorted);
    TimelineEvents(sorted);
    forall k | 0 <= k < |sorted|
      ensures BalanceAt(sorted, k) + Recommended(CoveringPlan(startingBalance, sorted[..k + 1]).transfers) >= 0
    {
      var p := sorted[..k + 1];
      assert p[0] == sorted[0];
      assert forall j :: 1 <= j < |p| ==> p[j] == sorted[j];
      BalanceFromOpening(p);
      NetChangeTotals(p);
      CoveringPlanCovers(startingBalance, p);
    }
  }

  /** The aggregate figure: 0 exactly when no row goes negative; otherwise the
      least multiple of 100 that covers the lowest row balance, so depositing it
      up front keeps every row non-negative. */
  lemma LedgerTransferNeeded(firstOfMonth: int, startingBalance: int, incomes: seq<Entry>, expenses: seq<Entry>)
    ensures var r := LedgerOf(firstOfMonth, startingBalance, incomes, expenses);
      && (r.stats.transferNeeded == 0 <==> forall k :: 0 <= k < |r.timeline| ==> r.timeline[k].balance >= 0)
      && (forall k :: 0 <= k < |r.timeline| ==> r.timeline[k].balance + r.stats.transferNeeded >= 0)
      && exists k :: LowestCovered(r.timeline, k, r.stats.transferNeeded)
  {
    var pushed := PushedEvents(firstOfMonth, startingBalance, incomes, expenses);
    var sorted := SortByDate(pushed);
    PushedEventsLayout(firstOfMonth, startingBalance, incomes, expenses);
    SortByDateProperties(pushed);
    AggregateTransfer(sorted);
    var r := LedgerOf(firstOfMonth, startingBalance, incomes, expenses);
    assert r.timeline == Timeline(sorted);
    assert r.stats.transferNeeded == TransferNeeded(MinBalance(sorted));
  }

  /** The lowest balance is the balance of some row and no row is lower. */
  lemma LowestRow(s: seq<Event>)
    requires s != []
    ensures MinBalance(s).Finite? && |Timeline(s)| == |s|
    ensures forall j :: 0 <= j < |s| ==> MinBalance(s).value <= Timeline(s)[j].balance
    ensures exists k :: 0 <= k < |s| && Timeline(s)[k].balance == MinBalance(s).value
  {
    TimelineAt(s);
    MinBalanceIsMinimum(s);
    var k :| 0 <= k < |s| && MinBalance(s).value == BalanceAt(s, k);
    assert Timeline(s)[k].balance == MinBalance(s).value;
  }

  lemma AggregateTransfer(s: seq<Event>)
    requires s != []
    ensures var rows, t := Timeline(s), TransferNeeded(MinBalance(s));
      && (t == 0 <==> forall k :: 0 <= k < |rows| ==> rows[k].balance >= 0)
      && (forall k :: 0 <= k < |rows| ==> rows[k].balance + t >= 0)
      && exists k :: LowestCovered(rows, k, t)
  {
    var rows, lowest := Timeline(s), MinBalance(s);
    LowestRow(s);
    var k :| 0 <= k < |rows| && rows[k].balance == lowest.value;
    CoverFromLowest(rows, k, lowest);
    assert LowestCovered(rows, k, TransferNeeded(lowest));
  }

  /** Row k is a lowest row and, when negative, the figure `t` is the least
      multiple of 100 covering it. */
  predicate LowestCovered(rows: seq<Row>, k: int, t: int)
  {
    && 0 <= k < |rows|
    && (forall j :: 0 <= j < |rows| ==> rows[k].balance <= rows[j].balance)
    && (rows[k].balance < 0 ==> t % 100 == 0 && -rows[k].balance <= t < -rows[k].balance + 100)
  }

  /** Given the lowest of some rows, the aggregate figure for it is 0 exactly
      when no row is negative, covers every row, and is the least multiple of
      100 covering the lowest one. */
  lemma CoverFromLowest(rows: seq<Row>, k: int, lowest: Extended)
    requires 0 <= k < |rows| && lowest == Finite(rows[k].balance)
    requires forall j :: 0 <= j < |rows| ==> rows[k].balance <= rows[j].balance
    ensures TransferNeeded(lowest) == 0 <==> forall j :: 0 <= j < |rows| ==> rows[j].balance >= 0
    ensures forall j :: 0 <= j < |rows| ==> rows[j].balance + TransferNeeded(lowest) >= 0
    ensures rows[k].balance < 0 ==>
      TransferNeeded(lowest) % 100 == 0 && -rows[k].balance <= TransferNeeded(lowest) < -rows[k].balance + 100
  {
    if rows[k].balance < 0 {
      assert !(rows[k].balance >= 0);
    }
  }

  /** The itemised recommendations: one per date at most, each a positive
      multiple of 100, in date order, each on the date of a timeline row. */
  lemma LedgerTransfers(firstOfMonth: int, startingBalance: int, incomes: seq<Entry>, expenses: seq<Entry>)
    ensures var r := LedgerOf(firstOfMonth, startingBalance, incomes, expenses);
      && DistinctDates(r.transfers)
      && PositiveHundreds(r.transfers)
      && InDateOrder(r.transfers)
      && forall k :: 0 <= k < |r.transfers| ==> r.transfers[k].date in Dates(RowEvents(r.timeline))
  {
    var sorted := SortedEvents(firstOfMonth, startingBalance, incomes, expenses);
    SortByDateProperties(PushedEvents(firstOfMonth, startingBalance, incomes, expenses));
    TimelineEvents(sorted);
    PlanShape(startingBalance, sorted);
    PlanDates(startingBalance, sorted);
    PlanInDateOrder(startingBalance, sorted);
  }
}
