/** The running-balance pass over the sorted events: timeline rows, totals and the lowest balance. */
module RunningBalance {
  import opened Events

  /** A timeline row: the event, the change it applied, the balance after it. */
  datatype Row = Row(event: Event, change: int, balance: int, isNegative: bool)

  /** The lowest balance seen so far; `PosInfinity` before any event. */
  datatype Extended = PosInfinity | Finite(value: int)

  /** The balance after `s`, starting from 0: the opening event sets the
      balance to its amount, every other event adds its change. */
  function BalanceAfter(s: seq<Event>): int
  {
    if s == [] then 0
    else
      var e := s[|s| - 1];
      if e.kind == Opening then e.amount else BalanceAfter(s[..|s| - 1]) + Change(e)
  }

  /** The balance right after event k of `s`. */
  function BalanceAt(s: seq<Event>, k: int): int
    requires 0 <= k < |s|
  {
    BalanceAfter(s[..k + 1])
  }

  function RowFor(e: Event, balance: int): Row
  {
    Row(e, Change(e), balance, balance < 0)
  }

  /** One row per event of `s`, each carrying the balance after it. */
  function Timeline(s: seq<Event>): seq<Row>
  {
    if s == [] then [] else Timeline(s[..|s| - 1]) + [RowFor(s[|s| - 1], BalanceAfter(s))]
  }

  /** The sum of the amounts of the events of `s` of kind `kind`. */
  function TotalOf(s: seq<Event>, kind: Kind): int
  {
    if s == [] then 0
    else TotalOf(s[..|s| - 1], kind) + (if s[|s| - 1].kind == kind then s[|s| - 1].amount else 0)
  }

  /** The lowest balance so far once `balance` has been reached. */
  function Lower(m: Extended, balance: int): Extended
  {
    if m.PosInfinity? || balance < m.value then Finite(balance) else m
  }

  /** The lowest balance reached over `s`, starting from positive infinity. */
  function MinBalance(s: seq<Event>): Extended
  {
    if s == [] then PosInfinity else Lower(MinBalance(s[..|s| - 1]), BalanceAfter(s))
  }

  /** Row k describes event k: its signed change and the balance after the
      first k + 1 events, negative exactly when below zero. */
  lemma {:induction false} TimelineAt(s: seq<Event>)
    ensures |Timeline(s)| == |s|
    ensures forall k :: 0 <= k < |s| ==> Timeline(s)[k] == RowFor(s[k], BalanceAt(s, k))
  {
    if s != [] {
      var p := s[..|s| - 1];
      TimelineAt(p);
      forall k | 0 <= k < |p| ensures BalanceAt(p, k) == BalanceAt(s, k) {
        assert p[..k + 1] == s[..k + 1];
      }
      assert s[..|s|] == s;
    }
  }

  /** The lowest balance is the balance after some prefix and no prefix goes
      lower; it stays infinite only for an empty event list. */
  lemma {:induction false} MinBalanceIsMinimum(s: seq<Event>)
    ensures MinBalance(s).PosInfinity? <==> s == []
    ensures s != [] ==> exists k :: 0 <= k < |s| && MinBalance(s).value == BalanceAt(s, k)
    ensures forall k :: 0 <= k < |s| ==> MinBalance(s).value <= BalanceAt(s, k)
  {
    if s != [] {
      var p := s[..|s| - 1];
      MinBalanceIsMinimum(p);
      forall k | 0 <= k < |p| ensures BalanceAt(p, k) == BalanceAt(s, k) {
        assert p[..k + 1] == s[..k + 1];
      }
      assert s[..|s|] == s;
      assert BalanceAt(s, |s| - 1) == BalanceAfter(s);
      if p != [] && MinBalance(s) == MinBalance(p) {
        var k :| 0 <= k < |p| && MinBalance(p).value == BalanceAt(p, k);
        assert MinBalance(s).value == BalanceAt(s, k);
      } else {
        assert MinBalance(s).value == BalanceAt(s, |s| - 1);
      }
    }
  }

  /** The events the rows of a timeline describe, in row order. */
  function RowEvents(rows: seq<Row>): seq<Event>
  {
    seq(|rows|, k requires 0 <= k < |rows| => rows[k].event)
  }

  /** The timeline lists the events in the order it was given them. */
  lemma TimelineEvents(s: seq<Event>)
    ensures RowEvents(Timeline(s)) == s
  {
    TimelineAt(s);
  }

  /** After an income or expense the balance moves by exactly its change;
      after the opening event it is the opening amount, whatever came before. */
  lemma BalanceAtStep(s: seq<Event>, k: int)
    requires 0 <= k < |s|
    ensures s[k].kind == Opening ==> BalanceAt(s, k) == s[k].amount
    ensures 0 < k && s[k].kind != Opening ==> BalanceAt(s, k) == BalanceAt(s, k - 1) + Change(s[k])
  {
    assert s[..k + 1][..k] == s[..k];
  }

  lemma {:induction false} TotalOfConcat(a: seq<Event>, b: seq<Event>, kind: Kind)
    ensures TotalOf(a + b, kind) == TotalOf(a, kind) + TotalOf(b, kind)
  {
    if b == [] {
      assert a + b == a;
    } else {
      assert (a + b)[..|a + b| - 1] == a + b[..|b| - 1];
      TotalOfConcat(a, b[..|b| - 1], kind);
    }
  }

  /** Once the opening event stands first and nowhere else, the balance is the
      starting balance plus all income minus all expenses. */
  lemma {:induction false} BalanceFromOpening(s: seq<Event>)
    requires s != [] && s[0].kind == Opening
    requires forall k :: 1 <= k < |s| ==> s[k].kind != Opening
    ensures BalanceAfter(s) == s[0].amount + TotalOf(s, Income) - TotalOf(s, Expense)
  {
    if |s| > 1 {
      var p := s[..|s| - 1];
      BalanceFromOpening(p);
    }
  }

  /** Visits the events in order, producing one row per event while it
      updates the balance, both totals and the lowest balance. */
  method RunningBalancePass(events: seq<Event>)
    returns (rows: seq<Row>, balance: int, totalIncome: int, totalExpenses: int, minBalance: Extended)
    ensures rows == Timeline(events)
    ensures balance == BalanceAfter(events)
    ensures totalIncome == TotalOf(events, Income) && totalExpenses == TotalOf(events, Expense)
    ensures minBalance == MinBalance(events)
  {
    rows, balance, totalIncome, totalExpenses, minBalance := [], 0, 0, 0, PosInfinity;
    var i := 0;
    while i < |events|
      invariant 0 <= i <= |events|
      invariant rows == Timeline(events[..i])
      invariant balance == BalanceAfter(events[..i])
      invariant totalIncome == TotalOf(events[..i], Income)
      invariant totalExpenses == TotalOf(events[..i], Expense)
      invariant minBalance == MinBalance(events[..i])
    {
      var event := events[i];
      var change := 0;
      if event.kind == Opening {
        balance := event.amount;
      } else if event.kind == Income {
        change := event.amount;
        balance := balance + event.amount;
        totalIncome := totalIncome + event.amount;
      } else {
        change := -event.amount;
        balance := balance - event.amount;
        totalExpenses := totalExpenses + event.amount;
      }
      if minBalance.PosInfinity? || balance < minBalance.value {
        minBalance := Finite(balance);
      }
      rows := rows + [Row(event, change, balance, balance < 0)];
      assert events[..i + 1][..i] == events[..i];
      i := i + 1;
    }
    assert events[..i] == events;
  }
}
