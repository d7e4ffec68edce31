/** The stable sort of the event list by date. */
module DateSort {
  import opened Events

  predicate SortedByDate(s: seq<Event>)
  {
    forall i, j :: 0 <= i < j < |s| ==> s[i].date <= s[j].date
  }

  /** The events of `s` that fall on day `d`, in their order in `s`. */
  function OnDate(s: seq<Event>, d: int): seq<Event>
  {
    if s == [] then []
    else (if s[0].date == d then [s[0]] else []) + OnDate(s[1..], d)
  }

  /** Inserts `x` in front of the first event of `s` that is not earlier than it. */
  function Insert(x: Event, s: seq<Event>): seq<Event>
  {
    if s == [] || x.date <= s[0].date then [x] + s
    else [s[0]] + Insert(x, s[1..])
  }

  /** Stable insertion sort: events with equal dates keep their relative order. */
  function SortByDate(s: seq<Event>): seq<Event>
  {
    if s == [] then [] else Insert(s[0], SortByDate(s[1..]))
  }

  /** Splits off the first event of the day's subsequence. */
  lemma OnDateTail(s: seq<Event>, d: int)
    requires s != []
    ensures OnDate(s, d) == (if s[0].date == d then [s[0]] else []) + OnDate(s[1..], d)
  {
  }

  lemma {:induction false} OnDateConcat(a: seq<Event>, b: seq<Event>, d: int)
    ensures OnDate(a + b, d) == OnDate(a, d) + OnDate(b, d)
  {
    if a == [] {
      assert a + b == b;
    } else {
      assert (a + b)[1..] == a[1..] + b;
      OnDateConcat(a[1..], b, d);
      OnDateTail(a + b, d);
      OnDateTail(a, d);
    }
  }

  lemma {:induction false} OnDateMembers(s: seq<Event>, d: int)
    ensures forall x :: x in OnDate(s, d) <==> x in s && x.date == d
  {
    if s != [] {
      OnDateMembers(s[1..], d);
      assert s == [s[0]] + s[1..];
    }
  }

  /** Inserting adds exactly `x`: one more event, the same events besides. */
  lemma {:induction false} InsertCount(x: Event, s: seq<Event>)
    ensures |Insert(x, s)| == |s| + 1
    ensures multiset(Insert(x, s)) == multiset(s) + multiset{x}
  {
    if s != [] && x.date > s[0].date {
      InsertCount(x, s[1..]);
      assert s == [s[0]] + s[1..];
    }
  }

  /** Inserting `x` puts it behind no event of its own day: day by day, the
      result lists what `[x] + s` lists, in the same order. */
  lemma {:induction false} InsertOnDate(x: Event, s: seq<Event>, d: int)
    ensures OnDate(Insert(x, s), d) == OnDate([x] + s, d)
  {
    if s != [] && x.date > s[0].date {
      var rest := Insert(x, s[1..]);
      InsertOnDate(x, s[1..], d);
      OnDateTail([s[0]] + rest, d);
      assert ([s[0]] + rest)[1..] == rest;
      OnDateTail([x] + s, d);
      assert ([x] + s)[1..] == s;
      OnDateTail(s, d);
      OnDateTail([x] + s[1..], d);
      assert ([x] + s[1..])[1..] == s[1..];
    }
  }

  /** An event no later than any event of a sorted list can go in front of it. */
  lemma SortedCons(h: Event, t: seq<Event>)
    requires SortedByDate(t)
    requires forall j :: 0 <= j < |t| ==> h.date <= t[j].date
    ensures SortedByDate([h] + t)
  {
    var u := [h] + t;
    forall i, j | 0 <= i < j < |u| ensures u[i].date <= u[j].date {
      assert u[j] == t[j - 1];
      if i > 0 {
        assert u[i] == t[i - 1];
      }
    }
  }

  /** Inserting into a sorted list keeps it sorted. */
  lemma {:induction false} InsertSorted(x: Event, s: seq<Event>)
    requires SortedByDate(s)
    ensures SortedByDate(Insert(x, s))
  {
    if s == [] || x.date <= s[0].date {
      assert forall j :: 0 <= j < |s| ==> s[0].date <= s[j].date;
      SortedCons(x, s);
    } else {
      var rest := Insert(x, s[1..]);
      assert SortedByDate(s[1..]);
      InsertSorted(x, s[1..]);
      InsertCount(x, s[1..]);
      forall j | 0 <= j < |rest| ensures s[0].date <= rest[j].date {
        var y := rest[j];
        assert y in multiset(rest);
        assert y in multiset(s[1..]) || y == x;
        if y != x {
          assert y in s;
          SortedHeadFirst(s, y);
        }
      }
      SortedCons(s[0], rest);
    }
  }

  /** The sorted list is ordered by date, is a permutation of the input and,
      day by day, keeps the input's order: the sort is stable. */
  lemma {:induction false} SortByDateProperties(s: seq<Event>)
    ensures |SortByDate(s)| == |s|
    ensures multiset(SortByDate(s)) == multiset(s)
    ensures SortedByDate(SortByDate(s))
    ensures forall d :: OnDate(SortByDate(s), d) == OnDate(s, d)
  {
    if s != [] {
      var sorted := SortByDate(s[1..]);
      SortByDateProperties(s[1..]);
      InsertCount(s[0], sorted);
      InsertSorted(s[0], sorted);
      assert s == [s[0]] + s[1..];
      forall d ensures OnDate(SortByDate(s), d) == OnDate(s, d) {
        InsertOnDate(s[0], sorted, d);
        OnDateTail([s[0]] + sorted, d);
        OnDateTail(s, d);
        assert ([s[0]] + sorted)[1..] == sorted;
      }
    }
  }

  /** The head of a sorted list is no later than any of its events. */
  lemma SortedHeadFirst(s: seq<Event>, x: Event)
    requires SortedByDate(s) && x in s
    ensures s[0].date <= x.date
  {
    var k :| 0 <= k < |s| && s[k] == x;
  }

  /** An event of `s` on day `d` makes the day's subsequence non-empty. */
  lemma {:induction false} OnDateNonEmpty(s: seq<Event>, x: Event)
    requires x in s
    ensures x in OnDate(s, x.date)
  {
    OnDateMembers(s, x.date);
  }

  /** A sorted list is determined by what it holds on each day: two sorted
      lists with the same per-day subsequences are equal. */
  lemma {:induction false} SortedUnique(r1: seq<Event>, r2: seq<Event>)
    requires SortedByDate(r1) && SortedByDate(r2)
    requires forall d :: OnDate(r1, d) == OnDate(r2, d)
    ensures r1 == r2
    decreases |r1|
  {
    if r1 != [] {
      OnDateNonEmpty(r1, r1[0]);
      assert OnDate(r2, r1[0].date) != [];
    }
    if r2 != [] {
      OnDateNonEmpty(r2, r2[0]);
      assert OnDate(r1, r2[0].date) != [];
    }
    if r1 != [] && r2 != [] {
      var d1, d2 := r1[0].date, r2[0].date;
      OnDateNonEmpty(r1, r1[0]);
      OnDateNonEmpty(r2, r2[0]);
      OnDateMembers(r2, d1);
      OnDateMembers(r1, d2);
      assert r1[0] in OnDate(r2, d1);
      SortedHeadFirst(r2, r1[0]);
      assert r2[0] in OnDate(r1, d2);
      SortedHeadFirst(r1, r2[0]);
      assert d1 == d2;
      OnDateTail(r1, d1);
      OnDateTail(r2, d1);
      assert OnDate(r1, d1)[0] == r1[0];
      assert OnDate(r2, d1)[0] == r2[0];
      forall d ensures OnDate(r1[1..], d) == OnDate(r2[1..], d) {
        var h: seq<Event> := if r1[0].date == d then [r1[0]] else [];
        OnDateTail(r1, d);
        OnDateTail(r2, d);
        assert OnDate(r1[1..], d) == OnDate(r1, d)[|h|..];
        assert OnDate(r2[1..], d) == OnDate(r2, d)[|h|..];
      }
      assert SortedByDate(r1[1..]) && SortedByDate(r2[1..]);
      SortedUnique(r1[1..], r2[1..]);
      assert r1 == [r1[0]] + r1[1..];
      assert r2 == [r2[0]] + r2[1..];
    }
  }

  /** Swapping two neighbours with different dates leaves the day's subsequence alone. */
  lemma SwapKeepsOnDateAt(p: seq<Event>, x: Event, y: Event, q: seq<Event>, d: int)
    requires x.date != y.date
    ensures OnDate(p + [y, x] + q, d) == OnDate(p + [x, y] + q, d)
  {
    OnDateConcat(p + [x, y], q, d);
    OnDateConcat(p, [x, y], d);
    OnDateConcat(p + [y, x], q, d);
    OnDateConcat(p, [y, x], d);
    OnDateTail([x, y], d);
    OnDateTail([y, x], d);
    assert [x, y][1..] == [y];
    assert [y, x][1..] == [x];
  }

  lemma SwapKeepsOnDate(s: seq<Event>, j: int)
    requires 0 < j < |s| && s[j - 1].date != s[j].date
    ensures forall d :: OnDate(s[j - 1 := s[j]][j := s[j - 1]], d) == OnDate(s, d)
  {
    var t := s[j - 1 := s[j]][j := s[j - 1]];
    var p, q := s[..j - 1], s[j + 1..];
    assert s == p + [s[j - 1], s[j]] + q;
    assert t == p + [s[j], s[j - 1]] + q;
    forall d ensures OnDate(t, d) == OnDate(s, d) {
      SwapKeepsOnDateAt(p, s[j - 1], s[j], q, d);
    }
  }

  /** The first `i + 1` events are in date order once the one at `j` is left out. */
  predicate SortedSkipping(s: seq<Event>, j: int, i: int)
    requires 0 <= j <= i < |s|
  {
    forall k, l :: 0 <= k < l <= i && k != j && l != j ==> s[k].date <= s[l].date
  }

  /** The event at `j` is earlier than every event after it up to `i`. */
  predicate EarlierThanFollowing(s: seq<Event>, j: int, i: int)
    requires 0 <= j <= i < |s|
  {
    forall l :: j < l <= i ==> s[j].date < s[l].date
  }

  /** One swap of the inner loop keeps both of its invariants, one place further left. */
  lemma SwapStep(s: seq<Event>, j: int, i: int)
    requires 0 < j <= i < |s| && s[j - 1].date > s[j].date
    requires SortedSkipping(s, j, i) && EarlierThanFollowing(s, j, i)
    ensures SortedSkipping(s[j - 1 := s[j]][j := s[j - 1]], j - 1, i)
    ensures EarlierThanFollowing(s[j - 1 := s[j]][j := s[j - 1]], j - 1, i)
  {
  }

  /** A swap of neighbours inside the first `i + 1` events keeps what they hold
      and leaves everything after them alone. */
  lemma SwapFrame(s: seq<Event>, j: int, i: int)
    requires 0 < j <= i < |s|
    ensures multiset(s[j - 1 := s[j]][j := s[j - 1]][..i + 1]) == multiset(s[..i + 1])
    ensures s[j - 1 := s[j]][j := s[j - 1]][i + 1..] == s[i + 1..]
  {
    var t := s[j - 1 := s[j]][j := s[j - 1]];
    assert s[..i + 1] == s[..j - 1] + [s[j - 1], s[j]] + s[j + 1..i + 1];
    assert t[..i + 1] == s[..j - 1] + [s[j], s[j - 1]] + s[j + 1..i + 1];
  }

  /** When the inner loop stops, the first `i + 1` events are in date order. */
  lemma SwapDone(s: seq<Event>, j: int, i: int)
    requires 0 <= j <= i < |s| && (j == 0 || s[j - 1].date <= s[j].date)
    requires SortedSkipping(s, j, i) && EarlierThanFollowing(s, j, i)
    ensures SortedByDate(s[..i + 1])
  {
    forall k, l | 0 <= k < l <= i ensures s[k].date <= s[l].date {
      if l == j && k < j - 1 {
        assert s[k].date <= s[j - 1].date;
      }
    }
  }

  /** The inner loop: moves a[i] left past every later-dated event before it,
      so the first i + 1 events become date-ordered, hold the same events as
      before, and nothing after them moves. */
  method InsertLast(a: array<Event>, i: int)
    requires 0 <= i < a.Length && SortedByDate(a[..i])
    modifies a
    ensures SortedByDate(a[..i + 1])
    ensures multiset(a[..i + 1]) == multiset(old(a[..i + 1]))
    ensures a[i + 1..] == old(a[i + 1..])
    ensures forall d :: OnDate(a[..], d) == OnDate(old(a[..]), d)
  {
    var j := i;
    while j > 0 && a[j - 1].date > a[j].date
      invariant 0 <= j <= i
      invariant SortedSkipping(a[..], j, i) && EarlierThanFollowing(a[..], j, i)
      invariant multiset(a[..i + 1]) == multiset(old(a[..i + 1]))
      invariant a[i + 1..] == old(a[i + 1..])
      invariant forall d :: OnDate(a[..], d) == OnDate(old(a[..]), d)
    {
      SwapKeepsOnDate(a[..], j);
      SwapStep(a[..], j, i);
      SwapFrame(a[..], j, i);
      a[j - 1], a[j] := a[j], a[j - 1];
      j := j - 1;
    }
    SwapDone(a[..], j, i);
  }

  /** Sorts the events in place, by insertion with adjacent swaps,
      which only ever exchange events of different dates. */
  method SortInPlace(a: array<Event>)
    modifies a
    ensures SortedByDate(a[..])
    ensures forall d :: OnDate(a[..], d) == OnDate(old(a[..]), d)
    ensures a[..] == SortByDate(old(a[..]))
    ensures multiset(a[..]) == multiset(old(a[..]))
  {
    var i := 0;
    while i < a.Length
      invariant 0 <= i <= a.Length
      invariant SortedByDate(a[..i])
      invariant forall d :: OnDate(a[..], d) == OnDate(old(a[..]), d)
    {
      InsertLast(a, i);
      i := i + 1;
    }
    assert a[..i] == a[..];
    SortByDateProperties(old(a[..]));
    SortedUnique(a[..], SortByDate(old(a[..])));
  }
}
