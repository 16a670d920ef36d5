/** shared/ci/weights.go: busy time, the measure of the union of a group's intervals. */
module Busy {
  import opened Prelude
  import opened Clock

  /** The start and end stamps of one job, zero where the forge gave none. */
  datatype Span = Span(start: Time, end: Time)

  // ---------- The measure of a set of intervals ----------

  /** The nanoseconds of [a, b). */
  ghost function Ticks(a: int, b: int): (r: set<int>)
    ensures forall t :: t in r <==> a <= t < b
    decreases b - a
  {
    if b <= a then {} else Ticks(a, b - 1) + {b - 1}
  }

  lemma {:induction false} TicksCount(a: int, b: int)
    requires a <= b
    ensures |Ticks(a, b)| == b - a
    decreases b - a
  {
    if a < b { TicksCount(a, b - 1); }
  }

  /** Every nanosecond at which at least one interval is open. */
  ghost function Covered(ivs: seq<Span>): (r: set<int>)
    ensures forall t :: t in r <==> exists s :: s in ivs && s.start <= t < s.end
  {
    if ivs == [] then {} else
      var s := ivs[|ivs| - 1];
      assert ivs == ivs[..|ivs| - 1] + [s];
      Covered(ivs[..|ivs| - 1]) + Ticks(s.start, s.end)
  }

  /** The measure of the union of the intervals. */
  ghost function Measure(ivs: seq<Span>): nat { |Covered(ivs)| }

  /** The measure depends on which intervals there are, not on their order. */
  lemma MeasureIgnoresOrder(a: seq<Span>, b: seq<Span>)
    requires multiset(a) == multiset(b)
    ensures Measure(a) == Measure(b)
  {
    assert forall s :: s in a <==> s in multiset(a);
    assert forall s :: s in b <==> s in multiset(b);
    assert Covered(a) == Covered(b);
  }

  function TotalLength(ivs: seq<Span>): int {
    if ivs == [] then 0 else TotalLength(ivs[..|ivs| - 1]) + (ivs[|ivs| - 1].end - ivs[|ivs| - 1].start)
  }

  /** Busy time lies between the longest interval and the sum of the lengths. */
  lemma {:induction false} MeasureBounds(ivs: seq<Span>)
    requires forall s :: s in ivs ==> s.start <= s.end
    ensures forall s :: s in ivs ==> s.end - s.start <= Measure(ivs)
    ensures Measure(ivs) <= TotalLength(ivs)
  {
    if ivs == [] {
    } else {
      var n := |ivs| - 1;
      var s := ivs[n];
      assert ivs == ivs[..n] + [s];
      MeasureBounds(ivs[..n]);
      TicksCount(s.start, s.end);
      SubsetSize(Covered(ivs[..n]), Covered(ivs));
      SubsetSize(Ticks(s.start, s.end), Covered(ivs));
    }
  }

  lemma MeasureWithin(ivs: seq<Span>, first: Time, last: Time)
    requires first <= last
    requires forall s :: s in ivs ==> first <= s.start && s.end <= last
    ensures Measure(ivs) <= last - first
  {
    TicksCount(first, last);
    SubsetSize(Covered(ivs), Ticks(first, last));
  }

  // ---------- busyTime ----------

  /** s with a missing stamp replaced by the outer bound of all the group's stamps. */
  function Borrow(s: Span, first: Time, last: Time): Span {
    Span(if IsZero(s.start) then first else s.start, if IsZero(s.end) then last else s.end)
  }

  /** The intervals that count: borrowed, and not running backwards. */
  function Normalised(shards: seq<Span>, first: Time, last: Time): seq<Span> {
    if shards == [] then [] else
      var before := Normalised(shards[..|shards| - 1], first, last);
      var s := Borrow(shards[|shards| - 1], first, last);
      if s.end < s.start then before else before + [s]
  }

  predicate Measurable(shards: seq<Span>, first: Time, last: Time) {
    !IsZero(first) && !IsZero(last) && Normalised(shards, first, last) != []
  }

  predicate SortedByStart(ivs: seq<Span>) {
    forall i, k :: 0 <= i < k < |ivs| ==> ivs[i].start <= ivs[k].start
  }

  lemma InsertKeepsOrder(sorted: seq<Span>, k: nat, x: Span)
    requires k <= |sorted| && SortedByStart(sorted)
    requires forall i :: 0 <= i < k ==> sorted[i].start <= x.start
    requires forall i :: k <= i < |sorted| ==> x.start <= sorted[i].start
    ensures SortedByStart(sorted[..k] + [x] + sorted[k..])
    ensures multiset(sorted[..k] + [x] + sorted[k..]) == multiset(sorted) + multiset{x}
  {
    assert sorted == sorted[..k] + sorted[k..];
  }

  method Insert(sorted: seq<Span>, x: Span) returns (r: seq<Span>)
    requires SortedByStart(sorted)
    ensures SortedByStart(r) && multiset(r) == multiset(sorted) + multiset{x}
  {
    var k := |sorted|;
    while k > 0 && x.start < sorted[k - 1].start
      invariant 0 <= k <= |sorted|
      invariant forall i :: k <= i < |sorted| ==> x.start < sorted[i].start
    {
      k := k - 1;
    }
    InsertKeepsOrder(sorted, k, x);
    r := sorted[..k] + [x] + sorted[k..];
  }

  /** Any sort by start will do; the ties are left to it. */
  method SortByStart(ivs: seq<Span>) returns (sorted: seq<Span>)
    ensures multiset(sorted) == multiset(ivs)
    ensures SortedByStart(sorted)
  {
    sorted := [];
    for n := 0 to |ivs|
      invariant multiset(sorted) == multiset(ivs[..n])
      invariant SortedByStart(sorted)
    {
      assert ivs[..n + 1] == ivs[..n] + [ivs[n]];
      sorted := Insert(sorted, ivs[n]);
    }
    assert ivs[..|ivs|] == ivs;
  }

  lemma {:induction false} NormalisedIntervals(shards: seq<Span>, first: Time, last: Time)
    ensures forall s :: s in Normalised(shards, first, last) <==>
      s.start <= s.end && exists x :: x in shards && Borrow(x, first, last) == s
  {
    if shards != [] {
      var n := |shards| - 1;
      assert shards == shards[..n] + [shards[n]];
      NormalisedIntervals(shards[..n], first, last);
    }
  }

  /** Adding an interval that starts inside the current one, or past it. */
  lemma CoveredNext(ivs: seq<Span>, n: nat)
    requires n < |ivs|
    ensures Covered(ivs[..n + 1]) == Covered(ivs[..n]) + Ticks(ivs[n].start, ivs[n].end)
  {
    assert ivs[..n + 1][..n] == ivs[..n];
  }

  lemma CoveredNothing(ivs: seq<Span>)
    ensures Covered(ivs[..0]) == {}
  {
  }

  lemma Stretch(a: int, b: int, c: int, d: int)
    requires a <= c <= b && c <= d
    ensures Ticks(a, b) + Ticks(c, d) == Ticks(a, Max(b, d))
  {
  }

  lemma StretchUnion(a: set<int>, b: set<int>, c: set<int>)
    ensures (a + b) + c == a + (b + c)
  {
  }

  lemma PastTheCurrent(done: set<int>, a: int, b: int, c: int)
    requires a <= b && b < c
    requires forall t :: t in done ==> t < a
    ensures |done + Ticks(a, b)| == |done| + (b - a)
    ensures forall t :: t in done + Ticks(a, b) ==> t < c
  {
    TicksCount(a, b);
    assert done !! Ticks(a, b);
  }

  method Normalise(shards: seq<Span>, first: Time, last: Time) returns (ivs: seq<Span>)
    ensures ivs == Normalised(shards, first, last)
  {
    ivs := [];
    for n := 0 to |shards|
      invariant ivs == Normalised(shards[..n], first, last)
    {
      assert shards[..n + 1][..n] == shards[..n];
      var s := shards[n];
      if IsZero(s.start) {
        s := s.(start := first);
      }
      if IsZero(s.end) {
        s := s.(end := last);
      }
      if s.end < s.start {
        continue;
      }
      ivs := ivs + [s];
    }
    assert shards[..|shards|] == shards;
  }

  /** Where the sweep stands after n intervals: the closed stretches measure total, and
      with the current one they are everything covered so far. */
  ghost predicate Swept(ivs: seq<Span>, n: nat, done: set<int>, cur: Span, total: int) {
    && 1 <= n <= |ivs|
    && cur.start <= cur.end && cur.start <= ivs[n - 1].start
    && (forall t :: t in done ==> t < cur.start)
    && total == |done|
    && Covered(ivs[..n]) == done + Ticks(cur.start, cur.end)
  }

  lemma SweepStarts(ivs: seq<Span>)
    requires ivs != [] && ivs[0].start <= ivs[0].end
    ensures Swept(ivs, 1, {}, ivs[0], 0)
  {
    CoveredNothing(ivs);
    CoveredNext(ivs, 0);
  }

  lemma SweepStretches(ivs: seq<Span>, n: nat, done: set<int>, cur: Span, total: int)
    requires n < |ivs| && Swept(ivs, n, done, cur, total)
    requires ivs[n - 1].start <= ivs[n].start <= ivs[n].end && ivs[n].start <= cur.end
    ensures Swept(ivs, n + 1, done, Span(cur.start, Max(cur.end, ivs[n].end)), total)
  {
    hide Ticks, Covered;
    CoveredNext(ivs, n);
    Stretch(cur.start, cur.end, ivs[n].start, ivs[n].end);
    StretchUnion(done, Ticks(cur.start, cur.end), Ticks(ivs[n].start, ivs[n].end));
  }

  lemma SweepMovesOn(ivs: seq<Span>, n: nat, done: set<int>, cur: Span, total: int)
    requires n < |ivs| && Swept(ivs, n, done, cur, total)
    requires ivs[n].start <= ivs[n].end && cur.end < ivs[n].start
    ensures Swept(ivs, n + 1, done + Ticks(cur.start, cur.end), ivs[n], total + (cur.end - cur.start))
  {
    hide Ticks, Covered;
    CoveredNext(ivs, n);
    PastTheCurrent(done, cur.start, cur.end, ivs[n].start);
  }

  lemma SweepEnds(ivs: seq<Span>, done: set<int>, cur: Span, total: int)
    requires Swept(ivs, |ivs|, done, cur, total)
    ensures total + (cur.end - cur.start) == Measure(ivs)
  {
    PastTheCurrent(done, cur.start, cur.end, cur.end + 1);
    assert ivs[..|ivs|] == ivs;
  }

  /** The sweep: stretch the current interval while the next one starts inside it. */
  method Sweep(ivs: seq<Span>) returns (total: int)
    requires ivs != [] && SortedByStart(ivs)
    requires forall s :: s in ivs ==> s.start <= s.end
    ensures total == Measure(ivs)
  {
    hide Swept, Measure, Covered, Ticks;
    total := 0;
    var cur := ivs[0];
    ghost var done: set<int> := {};
    SweepStarts(ivs);
    for n := 1 to |ivs|
      invariant Swept(ivs, n, done, cur, total)
    {
      var s := ivs[n];
      if !(cur.end < s.start) {
        SweepStretches(ivs, n, done, cur, total);
        cur := cur.(end := Latest(cur.end, s.end));
      } else {
        SweepMovesOn(ivs, n, done, cur, total);
        done := done + Ticks(cur.start, cur.end);
        total := total + (cur.end - cur.start);
        cur := s;
      }
    }
    SweepEnds(ivs, done, cur, total);
    total := total + (cur.end - cur.start);
  }

  method BusyTime(shards: seq<Span>, first: Time, last: Time) returns (busy: int, ok: bool)
    ensures ok <==> Measurable(shards, first, last)
    ensures ok ==> busy == Measure(Normalised(shards, first, last))
  {
    hide Normalised, Measure, Covered;
    if IsZero(first) || IsZero(last) {
      return 0, false;
    }
    var ivs := Normalise(shards, first, last);
    if |ivs| == 0 {
      return 0, false;
    }
    NormalisedIntervals(shards, first, last);
    var sorted := SortByStart(ivs);
    SameElements(ivs, sorted);
    MeasureIgnoresOrder(ivs, sorted);
    busy := Sweep(sorted);
    ok := true;
  }

  lemma SameElements(a: seq<Span>, b: seq<Span>)
    requires multiset(a) == multiset(b)
    ensures forall s :: s in a <==> s in b
    ensures a == [] <==> b == []
  {
    assert forall s :: s in a <==> s in multiset(a);
    assert forall s :: s in b <==> s in multiset(b);
    assert |multiset(a)| == |a| && |multiset(b)| == |b|;
  }
}
