/** The greedy transfer-recommendation pass over the sorted events. */
module Transfers {
  import opened Events
  import opened DateSort

  /** A recommended deposit, to be made by `date`, before the event named `beforeEvent`. */
  datatype Transfer = Transfer(date: int, beforeEvent: string, amount: int)

  /** The pass's working state: its own running balance and the recommendations so far. */
  datatype PassState = PassState(running: int, transfers: seq<Transfer>)

  /** The least multiple of 100 not below the whole amount n. */
  function RoundUpToHundred(n: nat): (r: nat)
    ensures r % 100 == 0
    ensures n <= r < n + 100
  {
    (n + 99) / 100 * 100
  }

  /** The first index of a recommendation with that date, or -1 when there is none. */
  function FindByDate(transfers: seq<Transfer>, date: int): (r: int)
    ensures -1 <= r < |transfers|
    ensures r >= 0 ==> transfers[r].date == date && forall k :: 0 <= k < r ==> transfers[k].date != date
    ensures r == -1 ==> forall k :: 0 <= k < |transfers| ==> transfers[k].date != date
  {
    if transfers == [] then -1
    else if transfers[0].date == date then 0
    else
      var r := FindByDate(transfers[1..], date);
      if r == -1 then -1 else r + 1
  }

  /** One visit of the pass: apply the event's change and, if the running
      balance is negative, recommend a deposit for the event's date or raise
      that date's recommendation when the new need exceeds it. */
  function Step(st: PassState, e: Event): PassState
  {
    var running := st.running + Change(e);
    if running >= 0 then PassState(running, st.transfers)
    else
      var amount := RoundUpToHundred(-running);
      var idx := FindByDate(st.transfers, e.date);
      if idx >= 0 then
        if amount > st.transfers[idx].amount then
          var delta := amount - st.transfers[idx].amount;
          PassState(running + delta, st.transfers[idx := st.transfers[idx].(amount := amount)])
        else PassState(running, st.transfers)
      else PassState(running + amount, st.transfers + [Transfer(e.date, e.description, amount)])
  }

  /** The state after the pass has visited all of `s`, starting from `startingBalance`. */
  function Plan(startingBalance: int, s: seq<Event>): PassState
  {
    if s == [] then PassState(startingBalance, [])
    else Step(Plan(startingBalance, s[..|s| - 1]), s[|s| - 1])
  }

  /** The dates the events of `s` fall on. */
  function Dates(s: seq<Event>): set<int>
  {
    set e | e in s :: e.date
  }

  predicate DistinctDates(ts: seq<Transfer>)
  {
    forall i, j :: 0 <= i < j < |ts| ==> ts[i].date != ts[j].date
  }

  predicate PositiveHundreds(ts: seq<Transfer>)
  {
    forall i :: 0 <= i < |ts| ==> ts[i].amount > 0 && ts[i].amount % 100 == 0
  }

  predicate InDateOrder(ts: seq<Transfer>)
  {
    forall i, j :: 0 <= i < j < |ts| ==> ts[i].date <= ts[j].date
  }

  /** `later` extends `earlier`: every recommendation is still there, at the
      same position, for the same date and event, with an amount no smaller. */
  predicate Extends(later: seq<Transfer>, earlier: seq<Transfer>)
  {
    && |earlier| <= |later|
    && forall k :: 0 <= k < |earlier| ==>
         && later[k].date == earlier[k].date
         && later[k].beforeEvent == earlier[k].beforeEvent
         && earlier[k].amount <= later[k].amount
  }

  /** What one step does to the recommendations: it keeps every existing one
      (raising at most the one for the event's date), or appends one for a date
      not yet recommended, sized so that the running balance lands in [0, 100). */
  lemma StepEffect(st: PassState, e: Event)
    ensures var r := Step(st, e);
      && Extends(r.transfers, st.transfers)
      && |r.transfers| <= |st.transfers| + 1
      && (forall k :: 0 <= k < |st.transfers| && st.transfers[k].date != e.date ==> r.transfers[k] == st.transfers[k])
      && (|r.transfers| == |st.transfers| + 1 ==>
            && 0 <= r.running < 100
            && r.transfers[|st.transfers|] == Transfer(e.date, e.description, r.running - (st.running + Change(e)))
            && forall k :: 0 <= k < |st.transfers| ==> st.transfers[k].date != e.date)
      && (st.running + Change(e) >= 0 ==> r == PassState(st.running + Change(e), st.transfers))
  {
  }

  /** Every step keeps the recommendations on distinct dates and at positive
      multiples of 100, and only ever recommends for the date of a visited event. */
  lemma StepKeepsShape(st: PassState, e: Event)
    requires DistinctDates(st.transfers) && PositiveHundreds(st.transfers)
    ensures DistinctDates(Step(st, e).transfers) && PositiveHundreds(Step(st, e).transfers)
    ensures forall k :: 0 <= k < |Step(st, e).transfers| ==>
      Step(st, e).transfers[k].date == e.date || Step(st, e).transfers[k].date == st.transfers[k].date
  {
    StepEffect(st, e);
  }

  /** Over the whole pass: no two recommendations share a date
      and every amount is a positive multiple of 100. */
  lemma {:induction false} PlanShape(startingBalance: int, s: seq<Event>)
    ensures DistinctDates(Plan(startingBalance, s).transfers)
    ensures PositiveHundreds(Plan(startingBalance, s).transfers)
  {
    if s != [] {
      PlanShape(startingBalance, s[..|s| - 1]);
      StepKeepsShape(Plan(startingBalance, s[..|s| - 1]), s[|s| - 1]);
    }
  }

  /** Recommendations are only made for the dates of visited events. */
  lemma {:induction false} PlanDates(startingBalance: int, s: seq<Event>)
    ensures forall k :: 0 <= k < |Plan(startingBalance, s).transfers| ==> Plan(startingBalance, s).transfers[k].date in Dates(s)
  {
    if s != [] {
      var p, e := s[..|s| - 1], s[|s| - 1];
      PlanDates(startingBalance, p);
      StepEffect(Plan(startingBalance, p), e);
      assert forall x :: x in p ==> x in s;
      assert Dates(p) <= Dates(s);
      assert e.date in Dates(s);
    }
  }

  /** Over date-sorted events, recommendations come out in date order. */
  lemma {:induction false} PlanInDateOrder(startingBalance: int, s: seq<Event>)
    requires SortedByDate(s)
    ensures InDateOrder(Plan(startingBalance, s).transfers)
  {
    if s != [] {
      var p, e := s[..|s| - 1], s[|s| - 1];
      var before := Plan(startingBalance, p);
      assert SortedByDate(p);
      PlanInDateOrder(startingBalance, p);
      PlanDates(startingBalance, p);
      StepEffect(before, e);
      forall k | 0 <= k < |before.transfers| ensures before.transfers[k].date <= e.date {
        var x :| x in p && x.date == before.transfers[k].date;
        var i :| 0 <= i < |p| && p[i] == x;
        assert s[i] == x;
      }
    }
  }

  /** A recommendation, once made, stays in place and its amount never decreases
      as the pass visits further events. */
  lemma {:induction false} PlanOnlyGrows(startingBalance: int, s: seq<Event>, n: int)
    requires 0 <= n <= |s|
    ensures Extends(Plan(startingBalance, s).transfers, Plan(startingBalance, s[..n]).transfers)
    decreases |s| - n
  {
    if n == |s| {
      assert s[..n] == s;
    } else {
      PlanOnlyGrows(startingBalance, s, n + 1);
      StepEffect(Plan(startingBalance, s[..n]), s[n]);
      assert s[..n + 1][..n] == s[..n];
    }
  }

  /** When visiting event n appends a recommendation, that recommendation is
      for event n's date and lifts the pass's running balance into [0, 100). */
  lemma PlanNewRecommendation(startingBalance: int, s: seq<Event>, n: int)
    requires 0 <= n < |s|
    ensures var before, after := Plan(startingBalance, s[..n]), Plan(startingBalance, s[..n + 1]);
      |after.transfers| > |before.transfers| ==>
        && 0 <= after.running < 100
        && after.transfers[|before.transfers|].date == s[n].date
        && after.transfers[|before.transfers|].amount == after.running - (before.running + Change(s[n]))
  {
    assert s[..n + 1][..n] == s[..n];
    StepEffect(Plan(startingBalance, s[..n]), s[n]);
  }

  /** The sum of the signed changes of `s`; the opening event contributes nothing. */
  function NetChange(s: seq<Event>): int
  {
    if s == [] then 0 else NetChange(s[..|s| - 1]) + Change(s[|s| - 1])
  }

  /** The total of the recommended amounts. */
  function Recommended(ts: seq<Transfer>): int
  {
    if ts == [] then 0 else Recommended(ts[..|ts| - 1]) + ts[|ts| - 1].amount
  }

  lemma {:induction false} RecommendedUpdate(ts: seq<Transfer>, i: int, amount: int)
    requires 0 <= i < |ts|
    ensures Recommended(ts[i := ts[i].(amount := amount)]) == Recommended(ts) - ts[i].amount + amount
  {
    var us := ts[i := ts[i].(amount := amount)];
    if i < |ts| - 1 {
      assert us[..|us| - 1] == ts[..|ts| - 1][i := ts[i].(amount := amount)];
      RecommendedUpdate(ts[..|ts| - 1], i, amount);
    } else {
      assert us[..|us| - 1] == ts[..|ts| - 1];
    }
  }

  /** A step moves the running balance by the event's change plus whatever
      it adds to the recommended total. */
  lemma StepAccounts(st: PassState, e: Event)
    ensures Step(st, e).running - st.running == Change(e) + Recommended(Step(st, e).transfers) - Recommended(st.transfers)
  {
    var running := st.running + Change(e);
    if running < 0 {
      var idx := FindByDate(st.transfers, e.date);
      if idx >= 0 {
        RecommendedUpdate(st.transfers, idx, RoundUpToHundred(-running));
      } else {
        assert (st.transfers + [Transfer(e.date, e.description, RoundUpToHundred(-running))])[..|st.transfers|] == st.transfers;
      }
    }
  }

  /** The pass's running balance is the starting balance plus the events'
      changes plus every amount recommended so far: a raise is added back as
      its delta, a new recommendation in full. */
  lemma {:induction false} PlanAccounts(startingBalance: int, s: seq<Event>)
    ensures Plan(startingBalance, s).running
      == startingBalance + NetChange(s) + Recommended(Plan(startingBalance, s).transfers)
  {
    if s != [] {
      PlanAccounts(startingBalance, s[..|s| - 1]);
      StepAccounts(Plan(startingBalance, s[..|s| - 1]), s[|s| - 1]);
    }
  }

  /** The step as evidently intended: a further shortfall on a date that
      already has a recommendation raises it by the extra amount needed. */
  function CoveringStep(st: PassState, e: Event): PassState
  {
    var running := st.running + Change(e);
    if running >= 0 then PassState(running, st.transfers)
    else
      var amount := RoundUpToHundred(-running);
      var idx := FindByDate(st.transfers, e.date);
      if idx >= 0 then
        PassState(running + amount, st.transfers[idx := st.transfers[idx].(amount := st.transfers[idx].amount + amount)])
      else PassState(running + amount, st.transfers + [Transfer(e.date, e.description, amount)])
  }

  function CoveringPlan(startingBalance: int, s: seq<Event>): PassState
  {
    if s == [] then PassState(startingBalance, [])
    else CoveringStep(CoveringPlan(startingBalance, s[..|s| - 1]), s[|s| - 1])
  }

  /** One corrected step accounts like the original step and always ends at a
      non-negative balance. */
  lemma CoveringStepAccounts(st: PassState, e: Event)
    ensures CoveringStep(st, e).running - st.running
      == Change(e) + Recommended(CoveringStep(st, e).transfers) - Recommended(st.transfers)
    ensures CoveringStep(st, e).running >= 0
  {
    var running := st.running + Change(e);
    if running < 0 {
      var amount := RoundUpToHundred(-running);
      var idx := FindByDate(st.transfers, e.date);
      if idx >= 0 {
        RecommendedUpdate(st.transfers, idx, st.transfers[idx].amount + amount);
      } else {
        assert (st.transfers + [Transfer(e.date, e.description, amount)])[..|st.transfers|] == st.transfers;
      }
    }
  }

  /** One corrected step keeps distinct dates and positive multiples of 100. */
  lemma CoveringStepShape(st: PassState, e: Event)
    requires DistinctDates(st.transfers) && PositiveHundreds(st.transfers)
    ensures DistinctDates(CoveringStep(st, e).transfers) && PositiveHundreds(CoveringStep(st, e).transfers)
  {
    var running := st.running + Change(e);
    if running < 0 {
      var amount := RoundUpToHundred(-running);
      var idx := FindByDate(st.transfers, e.date);
      var ts := CoveringStep(st, e).transfers;
      if idx >= 0 {
        assert ts == st.transfers[idx := st.transfers[idx].(amount := st.transfers[idx].amount + amount)];
        assert forall k :: 0 <= k < |ts| ==> ts[k].date == st.transfers[k].date;
      } else {
        assert ts == st.transfers + [Transfer(e.date, e.description, amount)];
        assert forall k :: 0 <= k < |st.transfers| ==> ts[k] == st.transfers[k];
      }
    }
  }

  /** The corrected pass keeps the recommendations' shape and makes them cover
      every event: after each event, the starting balance plus the changes so
      far plus the deposits recommended so far is never negative. */
  lemma {:induction false} CoveringPlanCovers(startingBalance: int, s: seq<Event>)
    ensures var st := CoveringPlan(startingBalance, s);
      && st.running == startingBalance + NetChange(s) + Recommended(st.transfers)
      && (s != [] ==> st.running >= 0)
      && DistinctDates(st.transfers) && PositiveHundreds(st.transfers)
  {
    if s != [] {
      CoveringPlanCovers(startingBalance, s[..|s| - 1]);
      CoveringStepAccounts(CoveringPlan(startingBalance, s[..|s| - 1]), s[|s| - 1]);
      CoveringStepShape(CoveringPlan(startingBalance, s[..|s| - 1]), s[|s| - 1]);
    }
  }

  /** The pass as a loop over the events, updating the running balance and the
      recommendation list, raising an existing recommendation in place. */
  method TransferPass(startingBalance: int, events: seq<Event>) returns (transfers: seq<Transfer>)
    ensures transfers == Plan(startingBalance, events).transfers
    ensures DistinctDates(transfers) && PositiveHundreds(transfers)
    ensures SortedByDate(events) ==> InDateOrder(transfers)
  {
    transfers := [];
    var runningBalance := startingBalance;
    var i := 0;
    while i < |events|
      invariant 0 <= i <= |events|
      invariant PassState(runningBalance, transfers) == Plan(startingBalance, events[..i])
    {
      var event := events[i];
      ghost var before := PassState(runningBalance, transfers);
      if event.kind == Income {
        runningBalance := runningBalance + event.amount;
      } else if event.kind == Expense {
        runningBalance := runningBalance - event.amount;
      }
      assert runningBalance == before.running + Change(event);
      if runningBalance < 0 {
        var existingIdx := FindByDate(transfers, event.date);
        var amount := RoundUpToHundred(-runningBalance);
        if existingIdx >= 0 {
          if amount > transfers[existingIdx].amount {
            var delta := amount - transfers[existingIdx].amount;
            transfers := transfers[existingIdx := transfers[existingIdx].(amount := amount)];
            runningBalance := runningBalance + delta;
          }
        } else {
          transfers := transfers + [Transfer(event.date, event.description, amount)];
          runningBalance := runningBalance + amount;
        }
      }
      assert PassState(runningBalance, transfers) == Step(before, event);
      assert events[..i + 1][..i] == events[..i];
      i := i + 1;
    }
    assert events[..i] == events;
    PlanShape(startingBalance, events);
    if SortedByDate(events) {
      PlanInDateOrder(startingBalance, events);
    }
  }
}
