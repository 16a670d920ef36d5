/** shared/widgets/manager.go: one widget per series of a multi source - the cap on how many
    there are, and the grace a series has before it is dropped. */
module SeriesWidgets {
  import opened Prelude
  import opened Clock
  import opened Widgets

  datatype Series = Series(lastValue: real, lastSent: Time, missCount: nat)

  /** maxSeries and missGrace are taken as configured, defaults filled in. */
  datatype Limits = Limits(maxSeries: nat, missGrace: int, cleanup: bool)

  /** One labelled value: its slug, if the template renders, the value, if it is finite,
      and whether the request it leads to is applied. */
  datatype Sample = Sample(slug: Option<string>, value: Option<real>, lands: bool)

  /** The series being kept, and the value the server shows under each slug. */
  datatype Multi = Multi(series: map<string, Series>, server: map<string, real>)

  predicate Usable(s: Sample) { s.slug.Some? && s.value.Some? }

  /** A sample past the cap is dropped, and its slug does not count as seen. */
  predicate Counts(l: Limits, m: Multi, s: Sample) {
    Usable(s) && (s.slug.value in m.series || |m.series| < l.maxSeries)
  }

  predicate Sends(spec: Spec, state: Series, v: real, now: Time) {
    spec.always || ValueChanged(state.lastValue, v, spec.minChange) || HeartbeatDue(spec, state.lastSent, now)
  }

  function Sampled(spec: Spec, l: Limits, m: Multi, s: Sample, now: Time): Multi {
    if !Counts(l, m, s) then m
    else
      var slug, v := s.slug.value, s.value.value;
      if slug !in m.series || Sends(spec, m.series[slug], v, now) then
        if s.lands then Multi(m.series[slug := Series(v, now, 0)], m.server[slug := v]) else m
      else m.(series := m.series[slug := m.series[slug].(missCount := 0)])
  }

  function SampledAll(spec: Spec, l: Limits, m: Multi, samples: seq<Sample>, now: Time): Multi {
    if samples == [] then m
    else Sampled(spec, l, SampledAll(spec, l, m, samples[..|samples| - 1], now), samples[|samples| - 1], now)
  }

  function Seen(spec: Spec, l: Limits, m: Multi, samples: seq<Sample>, now: Time): set<string> {
    if samples == [] then {}
    else
      var before, last := samples[..|samples| - 1], samples[|samples| - 1];
      if Counts(l, SampledAll(spec, l, m, before, now), last)
      then Seen(spec, l, m, before, now) + {last.slug.value}
      else Seen(spec, l, m, before, now)
  }

  function Missed(s: Series): Series { s.(missCount := s.missCount + 1) }

  /** A series unseen for its grace goes, once its widget is deleted if that is wanted. */
  predicate Drops(l: Limits, m: Multi, seen: set<string>, deletes: set<string>, slug: string)
    requires slug in m.series
  {
    slug !in seen && m.series[slug].missCount + 1 >= l.missGrace && (!l.cleanup || slug in deletes)
  }

  function Pruned(l: Limits, m: Multi, seen: set<string>, deletes: set<string>): Multi {
    Multi(
      map k | k in m.series && !Drops(l, m, seen, deletes, k) ::
        if k in seen then m.series[k] else Missed(m.series[k]),
      map k | k in m.server && !(k in m.series && l.cleanup && Drops(l, m, seen, deletes, k)) :: m.server[k])
  }

  /** One poll: what it returned, when, and which deletions the server would accept. */
  datatype Poll = Poll(samples: seq<Sample>, now: Time, deletes: set<string>)

  function Applied(spec: Spec, l: Limits, m: Multi, p: Poll): Multi {
    Pruned(l, SampledAll(spec, l, m, p.samples, p.now), Seen(spec, l, m, p.samples, p.now), p.deletes)
  }

  // ---------- The loop ----------

  /** The pruning with some of the series still to come. */
  ghost predicate PrunedSoFar(l: Limits, was: Multi, m: Multi, seen: set<string>, deletes: set<string>, done: set<string>) {
    && (forall k :: k in m.series <==> k in was.series && !(k in done && Drops(l, was, seen, deletes, k)))
    && (forall k :: k in m.series ==> m.series[k] == if k in done && k !in seen then Missed(was.series[k]) else was.series[k])
    && (forall k :: k in m.server <==> k in was.server && !(k in done && k in was.series && l.cleanup && Drops(l, was, seen, deletes, k)))
    && (forall k :: k in m.server ==> m.server[k] == was.server[k])
  }

  function PruneOne(l: Limits, m: Multi, seen: set<string>, deletes: set<string>, slug: string): Multi {
    if slug !in m.series || slug in seen then m
    else if !Drops(l, m, seen, deletes, slug) then m.(series := m.series[slug := Missed(m.series[slug])])
    else Multi(m.series - {slug}, if l.cleanup then m.server - {slug} else m.server)
  }

  lemma PrunedMore(l: Limits, was: Multi, m: Multi, seen: set<string>, deletes: set<string>, done: set<string>, slug: string)
    requires PrunedSoFar(l, was, m, seen, deletes, done) && slug !in done
    ensures PrunedSoFar(l, was, PruneOne(l, m, seen, deletes, slug), seen, deletes, done + {slug})
  {
  }

  lemma AllPruned(l: Limits, was: Multi, m: Multi, seen: set<string>, deletes: set<string>, done: set<string>)
    requires PrunedSoFar(l, was, m, seen, deletes, done) && forall k :: k in was.series ==> k in done
    ensures m == Pruned(l, was, seen, deletes)
  {
    var p := Pruned(l, was, seen, deletes);
    assert forall k :: k in m.series <==> k in p.series;
    assert forall k :: k in m.series ==> m.series[k] == p.series[k];
    assert forall k :: k in m.server <==> k in p.server;
    assert forall k :: k in m.server ==> m.server[k] == p.server[k];
  }

  class MultiWidget {
    const spec: Spec
    const limits: Limits
    var series: map<string, Series>
    ghost var server: map<string, real>

    ghost function View(): Multi
      reads this
    {
      Multi(series, server)
    }

    constructor (spec: Spec, limits: Limits)
      ensures this.spec == spec && this.limits == limits && View() == Multi(map[], map[])
    {
      this.spec, this.limits, series, server := spec, limits, map[], map[];
    }

    /** One value of a poll. Whether it is a create that failed. */
    method ApplyOne(lv: Sample, now: Time) returns (seen: bool, failed: bool)
      modifies this
      ensures View() == Sampled(spec, limits, old(View()), lv, now)
      ensures seen == Counts(limits, old(View()), lv)
      ensures failed <==> seen && lv.slug.value !in old(series) && !lv.lands
    {
      seen, failed := false, false;
      if !Usable(lv) || (lv.slug.value !in series && |series| >= limits.maxSeries) {
        return;
      }
      seen := true;
      var slug, v := lv.slug.value, lv.value.value;
      if slug !in series {
        failed := !lv.lands;
        if lv.lands {
          series := series[slug := Series(v, now, 0)];
          server := server[slug := v];
        }
        return;
      }
      var state := series[slug];
      if spec.always || ValueChanged(state.lastValue, v, spec.minChange) || HeartbeatDue(spec, state.lastSent, now) {
        if lv.lands {
          series := series[slug := Series(v, now, 0)];
          server := server[slug := v];
        }
      } else if state.missCount != 0 {
        series := series[slug := state.(missCount := 0)];
      }
    }

    /** A poll's values, then the pruning. order is the order in which Go happens to range
        over the series. The first poll gives up at a create that fails. */
    method ApplyMulti(p: Poll, order: seq<string>, firstTime: bool) returns (ok: bool)
      requires Distinct(order)
      requires forall k :: k in series || (exists i :: 0 <= i < |p.samples| && p.samples[i].slug == Some(k)) ==> k in order
      modifies this
      ensures ok ==> View() == Applied(spec, limits, old(View()), p)
      ensures !ok ==> firstTime && exists n ::
        0 <= n <= |p.samples| && View() == SampledAll(spec, limits, old(View()), p.samples[..n], p.now)
    {
      ghost var was := View();
      var seen: set<string> := {};
      var i := 0;
      hide Sampled, Pruned, Counts;
      while i < |p.samples|
        invariant i <= |p.samples|
        invariant View() == SampledAll(spec, limits, was, p.samples[..i], p.now)
        invariant seen == Seen(spec, limits, was, p.samples[..i], p.now)
        invariant forall k :: k in series ==> k in order
      {
        assert p.samples[..i + 1][..i] == p.samples[..i];
        var lv := p.samples[i];
        SampledKeys(spec, limits, View(), lv, p.now);
        var counts, failed := ApplyOne(lv, p.now);
        i := i + 1;
        if failed && firstTime {
          return false;
        }
        if counts {
          seen := seen + {lv.slug.value};
        }
      }
      assert p.samples[..i] == p.samples;
      Prune(seen, p.deletes, order);
      ok := true;
    }

    method MissOne(slug: string, seen: set<string>, deletes: set<string>)
      modifies this
      ensures View() == PruneOne(limits, old(View()), seen, deletes, slug)
    {
      if slug in series && slug !in seen {
        var st := Missed(series[slug]);
        if st.missCount < limits.missGrace {
          series := series[slug := st];
        } else if limits.cleanup && slug !in deletes {
          series := series[slug := st];
        } else {
          if limits.cleanup {
            server := server - {slug};
          }
          series := series - {slug};
        }
      }
    }

    method Prune(seen: set<string>, deletes: set<string>, order: seq<string>)
      requires Distinct(order) && forall k :: k in series ==> k in order
      modifies this
      ensures View() == Pruned(limits, old(View()), seen, deletes)
    {
      ghost var was := View();
      ghost var done: set<string> := {};
      var i := 0;
      assert PrunedSoFar(limits, was, View(), seen, deletes, done);
      hide PrunedSoFar, PruneOne, Pruned;
      while i < |order|
        invariant i <= |order| && forall k :: k in done <==> k in order[..i]
        invariant PrunedSoFar(limits, was, View(), seen, deletes, done)
      {
        var slug := order[i];
        assert order[..i + 1] == order[..i] + [slug] && slug !in order[..i];
        PrunedMore(limits, was, View(), seen, deletes, done, slug);
        MissOne(slug, seen, deletes);
        done := done + {slug};
        i := i + 1;
      }
      assert order[..i] == order;
      AllPruned(limits, was, View(), seen, deletes, done);
    }
  }

  lemma SampledKeys(spec: Spec, l: Limits, m: Multi, s: Sample, now: Time)
    ensures Counts(l, m, s) ==> Usable(s)
    ensures forall k :: k in Sampled(spec, l, m, s, now).series ==> k in m.series || s.slug == Some(k)
  {
  }

  // ---------- What the loop promises ----------

  function From(spec: Spec, l: Limits, polls: seq<Poll>): Multi {
    if polls == [] then Multi(map[], map[])
    else Applied(spec, l, From(spec, l, polls[..|polls| - 1]), polls[|polls| - 1])
  }

  /** Within the cap, each kept series shown on the server as remembered. */
  ghost predicate Inv(l: Limits, m: Multi) {
    |m.series| <= l.maxSeries && forall k :: k in m.series ==> k in m.server && m.server[k] == m.series[k].lastValue
  }

  lemma {:induction false} SampledKeepsInv(spec: Spec, l: Limits, m: Multi, samples: seq<Sample>, now: Time)
    requires Inv(l, m)
    ensures Inv(l, SampledAll(spec, l, m, samples, now))
  {
    if samples != [] {
      SampledKeepsInv(spec, l, m, samples[..|samples| - 1], now);
    }
  }

  lemma PrunedKeepsInv(l: Limits, m: Multi, seen: set<string>, deletes: set<string>)
    requires Inv(l, m)
    ensures Inv(l, Pruned(l, m, seen, deletes))
  {
    var p := Pruned(l, m, seen, deletes);
    SubsetSize(p.series.Keys, m.series.Keys);
    assert |p.series| == |p.series.Keys| && |m.series| == |m.series.Keys|;
  }

  /** The cap holds whatever polls return and whatever the server answers, and a series kept
      is shown as the loop remembers it. */
  lemma {:induction false} CapAlwaysHolds(spec: Spec, l: Limits, polls: seq<Poll>)
    ensures Inv(l, From(spec, l, polls))
  {
    if polls != [] {
      var before, p := polls[..|polls| - 1], polls[|polls| - 1];
      CapAlwaysHolds(spec, l, before);
      var m := From(spec, l, before);
      SampledKeepsInv(spec, l, m, p.samples, p.now);
      hide Inv, Pruned, SampledAll, Seen;
      PrunedKeepsInv(l, SampledAll(spec, l, m, p.samples, p.now), Seen(spec, l, m, p.samples, p.now), p.deletes);
    }
  }

  /** When a value of a kept series is sent - every time if that is wanted, else when it is off by
      more than the tolerance or a heartbeat is due - and what that leaves: once it has landed, or
      was passed over, the server shows a value within the tolerance of it. A new series is taken
      on while there is room under the cap. */
  lemma WhenASeriesIsSent(spec: Spec, l: Limits, m: Multi, s: Sample, now: Time)
    requires Inv(l, m) && s.slug.Some? && s.value.Some? && spec.minChange >= 0.0
    ensures var slug, v := s.slug.value, s.value.value; var after := Sampled(spec, l, m, s, now);
      && (slug in m.series ==>
          var was := m.series[slug];
          var due := spec.always || v < was.lastValue - spec.minChange || v > was.lastValue + spec.minChange
            || (spec.heartbeat > 0 && was.lastSent > 0 && now - was.lastSent >= spec.heartbeat);
          && (due && s.lands ==> after.series == m.series[slug := Series(v, now, 0)] && after.server == m.server[slug := v])
          && (due && !s.lands ==> after == m)
          && (!due ==> after.series == m.series[slug := was.(missCount := 0)] && after.server == m.server)
          && (s.lands || !due ==> slug in after.server && v - spec.minChange <= after.server[slug] <= v + spec.minChange))
      && (slug !in m.series && |m.series| < l.maxSeries && s.lands ==>
          after.series == m.series[slug := Series(v, now, 0)] && after.server == m.server[slug := v])
      && (slug !in m.series && !(|m.series| < l.maxSeries && s.lands) ==> after == m)
  {
  }

  // ---------- The grace ----------

  /** A sample that settles its series: it is within tolerance, or its request lands. The
      one way not to is the guard of the failing branch - a request that is due, or a
      create, and does not land. */
  predicate Settles(spec: Spec, l: Limits, m: Multi, s: Sample, now: Time, slug: string) {
    && Counts(l, m, s) && s.slug.value == slug
    && (s.lands || (slug in m.series && !Sends(spec, m.series[slug], s.value.value, now)))
  }

  predicate Settled(spec: Spec, l: Limits, m: Multi, samples: seq<Sample>, now: Time, slug: string) {
    samples != [] &&
      (var before := samples[..|samples| - 1];
       Settled(spec, l, m, before, now, slug)
       || Settles(spec, l, SampledAll(spec, l, m, before, now), samples[|samples| - 1], now, slug))
  }

  /** What a poll does to one series, whatever lands: settled, it is kept with a clean
      slate; shown but not settled, or not shown, it is left as it was. */
  lemma {:induction false} SamplesOfOne(spec: Spec, l: Limits, m: Multi, samples: seq<Sample>, now: Time, slug: string)
    ensures var after := SampledAll(spec, l, m, samples, now);
      if Settled(spec, l, m, samples, now, slug) then
        slug in Seen(spec, l, m, samples, now) && slug in after.series && after.series[slug].missCount == 0
      else (slug in after.series <==> slug in m.series) && (slug in m.series ==> after.series[slug] == m.series[slug])
  {
    if samples != [] {
      SamplesOfOne(spec, l, m, samples[..|samples| - 1], now, slug);
    }
  }

  /** The count of a series shown by a poll is cleared exactly when it was clear before, or
      one of the poll's samples settles it. */
  lemma WhenAPollClears(spec: Spec, l: Limits, m: Multi, p: Poll, slug: string)
    requires slug in m.series && slug in Seen(spec, l, m, p.samples, p.now)
    ensures slug in Applied(spec, l, m, p).series
    ensures Applied(spec, l, m, p).series[slug].missCount == 0 <==>
      m.series[slug].missCount == 0 || Settled(spec, l, m, p.samples, p.now, slug)
  {
    SamplesOfOne(spec, l, m, p.samples, p.now, slug);
    hide SampledAll, Seen, Settled;
  }

  predicate SeenAt(spec: Spec, l: Limits, polls: seq<Poll>, i: nat, slug: string)
    requires i < |polls|
  {
    slug in Seen(spec, l, From(spec, l, polls[..i]), polls[i].samples, polls[i].now)
  }

  predicate SettledAt(spec: Spec, l: Limits, polls: seq<Poll>, i: nat, slug: string)
    requires i < |polls|
  {
    Settled(spec, l, From(spec, l, polls[..i]), polls[i].samples, polls[i].now, slug)
  }

  lemma PollsPrefix(spec: Spec, l: Limits, polls: seq<Poll>, i: nat, n: nat, slug: string)
    requires i < n <= |polls|
    ensures SeenAt(spec, l, polls[..n], i, slug) == SeenAt(spec, l, polls, i, slug)
    ensures SettledAt(spec, l, polls[..n], i, slug) == SettledAt(spec, l, polls, i, slug)
  {
    assert polls[..n][..i] == polls[..i];
    hide Seen, Settled;
  }

  /** How many polls after poll t did not show the series. */
  function UnseenSince(spec: Spec, l: Limits, polls: seq<Poll>, t: nat, slug: string): nat {
    if |polls| <= t + 1 then 0
    else
      UnseenSince(spec, l, polls[..|polls| - 1], t, slug) + (if SeenAt(spec, l, polls, |polls| - 1, slug) then 0 else 1)
  }

  /** t is the last poll that settled the series. */
  ghost predicate LastSettled(spec: Spec, l: Limits, polls: seq<Poll>, t: nat, slug: string) {
    && t < |polls| && SettledAt(spec, l, polls, t, slug)
    && forall i :: t < i < |polls| ==> !SettledAt(spec, l, polls, i, slug)
  }

  lemma StillLast(spec: Spec, l: Limits, polls: seq<Poll>, t: nat, slug: string)
    requires polls != [] && LastSettled(spec, l, polls[..|polls| - 1], t, slug)
    requires !SettledAt(spec, l, polls, |polls| - 1, slug)
    ensures LastSettled(spec, l, polls, t, slug)
  {
    var n := |polls| - 1;
    hide SettledAt;
    PollsPrefix(spec, l, polls, t, n, slug);
    forall i | t < i < n
      ensures !SettledAt(spec, l, polls, i, slug)
    {
      PollsPrefix(spec, l, polls, i, n, slug);
    }
  }

  lemma PrunedOne(l: Limits, m: Multi, seen: set<string>, deletes: set<string>, slug: string)
    ensures var p := Pruned(l, m, seen, deletes).series;
      if slug in seen then (slug in p <==> slug in m.series) && (slug in p ==> p[slug] == m.series[slug])
      else
        && (slug in p <==> slug in m.series && !DropsNow(l, m.series[slug].missCount + 1, deletes, slug))
        && (slug in p ==> p[slug].missCount == m.series[slug].missCount + 1)
  {
  }

  lemma AppliedOne(spec: Spec, l: Limits, m: Multi, p: Poll, slug: string)
    ensures var after := Applied(spec, l, m, p).series;
      if Settled(spec, l, m, p.samples, p.now, slug) then slug in after && after[slug].missCount == 0
      else if slug in Seen(spec, l, m, p.samples, p.now) then
        (slug in after <==> slug in m.series) && (slug in m.series ==> after[slug] == m.series[slug])
      else
        && (slug in after <==> slug in m.series && !DropsNow(l, m.series[slug].missCount + 1, p.deletes, slug))
        && (slug in after ==> after[slug].missCount == m.series[slug].missCount + 1)
  {
    SamplesOfOne(spec, l, m, p.samples, p.now, slug);
    PrunedOne(l, SampledAll(spec, l, m, p.samples, p.now), Seen(spec, l, m, p.samples, p.now), p.deletes, slug);
    hide SampledAll, Seen, Settled, Pruned, DropsNow;
  }

  lemma PollSteps(spec: Spec, l: Limits, polls: seq<Poll>, slug: string)
    requires polls != []
    ensures var n := |polls| - 1; var m := From(spec, l, polls[..n]); var now := From(spec, l, polls);
      if SettledAt(spec, l, polls, n, slug) then slug in now.series && now.series[slug].missCount == 0
      else if SeenAt(spec, l, polls, n, slug) then
        (slug in now.series <==> slug in m.series) && (slug in m.series ==> now.series[slug] == m.series[slug])
      else
        && (slug in now.series <==> slug in m.series && !DropsNow(l, m.series[slug].missCount + 1, polls[n].deletes, slug))
        && (slug in now.series ==> now.series[slug].missCount == m.series[slug].missCount + 1)
  {
    hide Applied, Seen, Settled, DropsNow;
    AppliedOne(spec, l, From(spec, l, polls[..|polls| - 1]), polls[|polls| - 1], slug);
  }

  /** The grace is used up, and the widget deleted if that is wanted. */
  predicate DropsNow(l: Limits, misses: nat, deletes: set<string>, slug: string) {
    misses >= l.missGrace && (!l.cleanup || slug in deletes)
  }

  /** After any polls, whatever lands: the miss count of a kept series is the number of polls
      that did not show it since the last one that settled it. */
  lemma {:induction false} MissCountIsRight(spec: Spec, l: Limits, polls: seq<Poll>, slug: string) returns (t: nat)
    requires slug in From(spec, l, polls).series
    ensures LastSettled(spec, l, polls, t, slug)
    ensures From(spec, l, polls).series[slug].missCount == UnseenSince(spec, l, polls, t, slug)
  {
    t := 0;
    if polls != [] {
      var n := |polls| - 1;
      PollSteps(spec, l, polls, slug);
      hide From, SeenAt, SettledAt;
      if SettledAt(spec, l, polls, n, slug) {
        t := n;
      } else {
        t := MissCountIsRight(spec, l, polls[..n], slug);
        StillLast(spec, l, polls, t, slug);
      }
    }
  }

  /** A kept series is dropped by a poll exactly when the poll does not show it, its misses
      since it was last settled reach the grace, and its widget can go. */
  lemma WhenASeriesIsDropped(spec: Spec, l: Limits, polls: seq<Poll>, slug: string) returns (t: nat)
    requires polls != [] && slug in From(spec, l, polls[..|polls| - 1]).series
    ensures LastSettled(spec, l, polls[..|polls| - 1], t, slug)
    ensures slug !in From(spec, l, polls).series <==>
      && !SeenAt(spec, l, polls, |polls| - 1, slug)
      && UnseenSince(spec, l, polls, t, slug) >= l.missGrace && (l.cleanup ==> slug in polls[|polls| - 1].deletes)
  {
    t := MissCountIsRight(spec, l, polls[..|polls| - 1], slug);
    PollSteps(spec, l, polls, slug);
    SettledIsSeen(spec, l, polls, |polls| - 1, slug);
    hide From, SeenAt, SettledAt;
  }

  lemma SettledIsSeen(spec: Spec, l: Limits, polls: seq<Poll>, i: nat, slug: string)
    requires i < |polls|
    ensures SettledAt(spec, l, polls, i, slug) ==> SeenAt(spec, l, polls, i, slug)
  {
    SamplesOfOne(spec, l, From(spec, l, polls[..i]), polls[i].samples, polls[i].now, slug);
    hide SampledAll, Seen, Settled, From;
  }

  /** The failing branch: an update of the series is due, does not land, and leaves misses
      on it. Nothing else in the poll settles it either. */
  predicate FailedWithMisses(spec: Spec, l: Limits, polls: seq<Poll>, i: nat, slug: string)
    requires i < |polls|
  {
    var m := From(spec, l, polls[..i]);
    && SeenAt(spec, l, polls, i, slug) && !SettledAt(spec, l, polls, i, slug)
    && slug in m.series && m.series[slug].missCount > 0
  }

  ghost predicate NeverFailedSince(spec: Spec, l: Limits, polls: seq<Poll>, t: nat, slug: string) {
    forall i :: t < i < |polls| ==> !FailedWithMisses(spec, l, polls, i, slug)
  }

  /** None of the last k polls shows the series. */
  ghost predicate UnseenLast(spec: Spec, l: Limits, polls: seq<Poll>, k: nat, slug: string) {
    k <= |polls| && forall i :: |polls| - k <= i < |polls| ==> !SeenAt(spec, l, polls, i, slug)
  }

  lemma NotLastBefore(spec: Spec, l: Limits, polls: seq<Poll>, t: nat, slug: string)
    requires polls != [] && LastSettled(spec, l, polls, t, slug) && t < |polls| - 1
    ensures LastSettled(spec, l, polls[..|polls| - 1], t, slug)
  {
    var n := |polls| - 1;
    hide SettledAt;
    forall i | t <= i < n
      ensures SettledAt(spec, l, polls[..n], i, slug) == SettledAt(spec, l, polls, i, slug)
    {
      PollsPrefix(spec, l, polls, i, n, slug);
    }
  }

  lemma NeverFailedStep(spec: Spec, l: Limits, polls: seq<Poll>, t: nat, slug: string)
    requires polls != [] && t < |polls| - 1
    ensures NeverFailedSince(spec, l, polls, t, slug) <==>
      NeverFailedSince(spec, l, polls[..|polls| - 1], t, slug) && !FailedWithMisses(spec, l, polls, |polls| - 1, slug)
  {
    var n := |polls| - 1;
    hide SeenAt, SettledAt, From;
    forall i | t < i < n
      ensures FailedWithMisses(spec, l, polls[..n], i, slug) == FailedWithMisses(spec, l, polls, i, slug)
    {
      PollsPrefix(spec, l, polls, i, n, slug);
      assert polls[..n][..i] == polls[..i];
    }
  }

  lemma UnseenStep(spec: Spec, l: Limits, polls: seq<Poll>, k: nat, slug: string)
    requires polls != [] && k < |polls|
    ensures UnseenLast(spec, l, polls, k + 1, slug) <==>
      UnseenLast(spec, l, polls[..|polls| - 1], k, slug) && !SeenAt(spec, l, polls, |polls| - 1, slug)
  {
    var n := |polls| - 1;
    hide SeenAt;
    forall i | 0 <= i < n
      ensures SeenAt(spec, l, polls[..n], i, slug) == SeenAt(spec, l, polls, i, slug)
    {
      PollsPrefix(spec, l, polls, i, n, slug);
    }
  }

  lemma LastPollFailed(spec: Spec, l: Limits, polls: seq<Poll>, slug: string)
    requires polls != []
    ensures var n := |polls| - 1; var m := From(spec, l, polls[..n]);
      FailedWithMisses(spec, l, polls, n, slug) <==>
        SeenAt(spec, l, polls, n, slug) && !SettledAt(spec, l, polls, n, slug) && slug in m.series && m.series[slug].missCount > 0
  {
    hide From, SeenAt, SettledAt;
  }

  /** The misses counted against a kept series are those of the very last polls exactly when
      no update of it has failed with misses counted since it was last settled. */
  lemma {:induction false} WhenMissesAreConsecutive(spec: Spec, l: Limits, polls: seq<Poll>, t: nat, slug: string)
    requires slug in From(spec, l, polls).series && LastSettled(spec, l, polls, t, slug)
    ensures var k := From(spec, l, polls).series[slug].missCount;
      k < |polls| - t && (UnseenLast(spec, l, polls, k, slug) <==> NeverFailedSince(spec, l, polls, t, slug))
  {
    hide From, SeenAt, SettledAt, DropsNow, FailedWithMisses;
    var n := |polls| - 1;
    PollSteps(spec, l, polls, slug);
    if t < n {
      NotLastBefore(spec, l, polls, t, slug);
      WhenMissesAreConsecutive(spec, l, polls[..n], t, slug);
      NeverFailedStep(spec, l, polls, t, slug);
      UnseenStep(spec, l, polls, From(spec, l, polls[..n]).series[slug].missCount, slug);
      LastPollFailed(spec, l, polls, slug);
      hide LastSettled, NeverFailedSince;
    }
  }

  lemma UnseenFewer(spec: Spec, l: Limits, polls: seq<Poll>, k: nat, fewer: nat, slug: string)
    requires UnseenLast(spec, l, polls, k, slug) && fewer <= k
    ensures UnseenLast(spec, l, polls, fewer, slug)
  {
    hide SeenAt;
  }

  lemma DroppedUnseen(spec: Spec, l: Limits, polls: seq<Poll>, t: nat, slug: string)
    requires polls != [] && LastSettled(spec, l, polls[..|polls| - 1], t, slug)
    requires slug in From(spec, l, polls[..|polls| - 1]).series && slug !in From(spec, l, polls).series
    ensures t < |polls| - 1 && !SeenAt(spec, l, polls, |polls| - 1, slug)
    ensures From(spec, l, polls[..|polls| - 1]).series[slug].missCount + 1 >= l.missGrace
    ensures !FailedWithMisses(spec, l, polls, |polls| - 1, slug)
  {
    hide From, SettledAt, SeenAt;
    PollSteps(spec, l, polls, slug);
  }

  /** The misses that drop a series are those of the very last polls, the dropping one
      included, exactly when no update of it has failed with misses counted since it was last
      settled. */
  lemma WhenADropIsEarned(spec: Spec, l: Limits, polls: seq<Poll>, t: nat, slug: string)
    requires polls != [] && LastSettled(spec, l, polls[..|polls| - 1], t, slug)
    requires slug in From(spec, l, polls[..|polls| - 1]).series && slug !in From(spec, l, polls).series
    ensures var k := From(spec, l, polls[..|polls| - 1]).series[slug].missCount + 1;
      k >= l.missGrace && (UnseenLast(spec, l, polls, k, slug) <==> NeverFailedSince(spec, l, polls, t, slug))
  {
    var n := |polls| - 1;
    hide From, SeenAt, SettledAt, LastSettled, FailedWithMisses, UnseenLast, NeverFailedSince;
    DroppedUnseen(spec, l, polls, t, slug);
    WhenMissesAreConsecutive(spec, l, polls[..n], t, slug);
    NeverFailedStep(spec, l, polls, t, slug);
    UnseenStep(spec, l, polls, From(spec, l, polls[..n]).series[slug].missCount, slug);
  }

  /** So a series that is dropped has gone unseen for its whole grace, poll after poll, unless
      an update of its own failed with misses counted - whatever becomes of the other series,
      and of its own other updates. */
  lemma DroppedOnlyAfterItsGrace(spec: Spec, l: Limits, polls: seq<Poll>, slug: string)
    requires polls != [] && forall i :: 0 <= i < |polls| ==> !FailedWithMisses(spec, l, polls, i, slug)
    requires slug in From(spec, l, polls[..|polls| - 1]).series && slug !in From(spec, l, polls).series
    ensures UnseenLast(spec, l, polls, Max(1, l.missGrace), slug)
  {
    var t := MissCountIsRight(spec, l, polls[..|polls| - 1], slug);
    WhenADropIsEarned(spec, l, polls, t, slug);
    hide From, LastSettled, FailedWithMisses, UnseenLast;
    UnseenFewer(spec, l, polls, From(spec, l, polls[..|polls| - 1]).series[slug].missCount + 1, Max(1, l.missGrace), slug);
  }

  // ---------- An update that fails ----------

  const GRACE_OF_TWO: Limits := Limits(20, 2, false)

  function Showing(v: real, lands: bool, now: Time): Poll { Poll([Sample(Some("s"), Some(v), lands)], now, {}) }

  function Silent(now: Time): Poll { Poll([], now, {}) }

  const FLAPPING: seq<Poll> := [Showing(1.0, true, 1), Silent(2), Showing(2.0, false, 3), Silent(4)]

  lemma OneSample(spec: Spec, l: Limits, m: Multi, s: Sample, now: Time)
    ensures SampledAll(spec, l, m, [s], now) == Sampled(spec, l, m, s, now)
    ensures Seen(spec, l, m, [s], now) == if Counts(l, m, s) then {s.slug.value} else {}
  {
    assert [s][..0] == [];
  }

  /** With a request failing in between, two misses that are not consecutive drop a series
      whose grace is two: the failed update keeps its old miss count. */
  lemma FailedUpdatesKeepTheMisses()
    ensures var spec := Spec(false, 0.0, 0, false, map[]);
      && "s" in From(spec, GRACE_OF_TWO, FLAPPING[..3]).series && "s" !in From(spec, GRACE_OF_TWO, FLAPPING).series
      && FailedWithMisses(spec, GRACE_OF_TWO, FLAPPING, 2, "s")
  {
    var spec, l := Spec(false, 0.0, 0, false, map[]), GRACE_OF_TWO;
    var m0: Multi := Multi(map[], map[]);
    OneSample(spec, l, m0, FLAPPING[0].samples[0], 1);
    var m1 := Applied(spec, l, m0, FLAPPING[0]);
    assert m1.series == map["s" := Series(1.0, 1, 0)];
    var m2 := Applied(spec, l, m1, FLAPPING[1]);
    assert m2.series == map["s" := Series(1.0, 1, 1)];
    OneSample(spec, l, m2, FLAPPING[2].samples[0], 3);
    var m3 := Applied(spec, l, m2, FLAPPING[2]);
    assert m3.series == map["s" := Series(1.0, 1, 1)];
    assert "s" !in Applied(spec, l, m3, FLAPPING[3]).series;
    FromSteps(spec, l);
  }

  lemma FromSteps(spec: Spec, l: Limits)
    ensures From(spec, l, FLAPPING[..0]) == Multi(map[], map[])
    ensures From(spec, l, FLAPPING[..1]) == Applied(spec, l, From(spec, l, FLAPPING[..0]), FLAPPING[0])
    ensures From(spec, l, FLAPPING[..2]) == Applied(spec, l, From(spec, l, FLAPPING[..1]), FLAPPING[1])
    ensures From(spec, l, FLAPPING[..3]) == Applied(spec, l, From(spec, l, FLAPPING[..2]), FLAPPING[2])
    ensures From(spec, l, FLAPPING) == Applied(spec, l, From(spec, l, FLAPPING[..3]), FLAPPING[3])
  {
    hide Applied;
    assert FLAPPING[..1][..0] == FLAPPING[..0] && FLAPPING[..2][..1] == FLAPPING[..1] && FLAPPING[..3][..2] == FLAPPING[..2];
  }
}
