/** shared/ci/weights.go: pill weights, measured from a finished run and completed
    against the run they came from. */
module Weights {
  import opened Prelude
  import opened Clock
  import opened JobNames
  import opened Steps
  import opened Busy

  const STEP_WEIGHT_FLOOR: real := 1.0

  /** Weights in seconds by group name. None is Go's nil map: nothing could be timed. */
  type ByName = map<string, real>

  ghost predicate AtLeastFloor(w: ByName) {
    forall n :: n in w ==> w[n] >= STEP_WEIGHT_FLOOR
  }

  // ---------- GroupWeights ----------

  function LastEnd(jobs: seq<Job>): Time {
    if jobs == [] then 0 else Latest(LastEnd(jobs[..|jobs| - 1]), jobs[|jobs| - 1].completedAt)
  }

  /** The stamped intervals of a group's shards; a shard stamped on neither side has none. */
  function Spans(shards: seq<Job>): seq<Span> {
    if shards == [] then [] else
      var before := Spans(shards[..|shards| - 1]);
      var job := shards[|shards| - 1];
      if IsZero(job.startedAt) && IsZero(job.completedAt) then before
      else before + [Span(job.startedAt, job.completedAt)]
  }

  datatype Group = Group(first: Time, last: Time, shards: seq<Span>)

  function GroupOf(jobs: seq<Job>, name: string): Group {
    var s := Shards(jobs, name);
    Group(FirstStart(s), LastEnd(s), Spans(s))
  }

  ghost predicate Timed(jobs: seq<Job>, name: string) {
    var g := GroupOf(jobs, name);
    Measurable(g.shards, g.first, g.last)
  }

  /** How long at least one of the group's shards was running. */
  ghost function BusyOf(jobs: seq<Job>, name: string): nat {
    var g := GroupOf(jobs, name);
    Measure(Normalised(g.shards, g.first, g.last))
  }

  ghost function PillOf(jobs: seq<Job>, name: string): real {
    MaxReal(STEP_WEIGHT_FLOOR, Seconds(BusyOf(jobs, name)))
  }

  /** What a finished run measures: one floored busy time per group it could time. */
  ghost function Measured(jobs: seq<Job>): Option<ByName> {
    var weights := Pills(jobs);
    if weights == map[] then None else Some(weights)
  }

  ghost function Pills(jobs: seq<Job>): ByName {
    map n | n in Labels(jobs) && Timed(jobs, n) :: PillOf(jobs, n)
  }

  /** A group's record with one more job. */
  function Join(g: Group, startedAt: Time, completedAt: Time): Group {
    Group(Earliest(g.first, startedAt), Latest(g.last, completedAt),
      if IsZero(startedAt) && IsZero(completedAt) then g.shards else g.shards + [Span(startedAt, completedAt)])
  }

  lemma GroupOfNext(jobs: seq<Job>, name: string)
    requires jobs != []
    ensures var n := |jobs| - 1; var job := jobs[n]; var before := GroupOf(jobs[..n], name);
      GroupOf(jobs, name) == if job.group != name then before else Join(before, job.startedAt, job.completedAt)
  {
    var n := |jobs| - 1;
    if jobs[n].group == name {
      var s, t := Shards(jobs, name), Shards(jobs[..n], name);
      assert s == t + [jobs[n]] && s[..|s| - 1] == t;
    }
  }

  /** groups holds the record of every group of jobs. */
  ghost predicate Collected(jobs: seq<Job>, groups: map<string, Group>) {
    && (forall n :: n in groups <==> n in Labels(jobs))
    && (forall n :: n in groups ==> groups[n] == GroupOf(jobs, n))
  }

  lemma CollectNext(jobs: seq<Job>, groups: map<string, Group>)
    requires jobs != [] && Collected(jobs[..|jobs| - 1], groups)
    ensures var job := jobs[|jobs| - 1];
      var g := if job.group in groups then groups[job.group] else Group(0, 0, []);
      Collected(jobs, groups[job.group := Join(g, job.startedAt, job.completedAt)])
  {
    var n := |jobs| - 1;
    var job := jobs[n];
    hide Labels, GroupOf, Join;
    LabelsNext(jobs);
    if job.group !in groups { UnseenHasNoRecord(jobs[..n], job.group); }
    forall name { GroupOfNext(jobs, name); }
  }

  lemma UnseenHasNoRecord(jobs: seq<Job>, name: string)
    requires name !in Labels(jobs)
    ensures GroupOf(jobs, name) == Group(0, 0, [])
  {
    UnseenGroup(jobs, name);
  }

  method CollectGroups(jobs: seq<ForgeJob>) returns (groups: map<string, Group>)
    ensures Collected(GroupedAll(jobs), groups)
  {
    ghost var all := GroupedAll(jobs);
    groups := map[];
    assert all[..0] == [];
    assert Collected(all[..0], groups);
    hide Collected, BaseJobName, Earliest, Latest;
    for k := 0 to |jobs|
      invariant Collected(all[..k], groups)
    {
      ghost var next := all[..k + 1];
      assert next[..k] == all[..k] && next[k] == Grouped(jobs[k]);
      CollectNext(next, groups);
      var job := jobs[k];
      var base := BaseJobName(job.name);
      var g := if base in groups then groups[base] else Group(0, 0, []);
      g := g.(first := Earliest(g.first, job.startedAt), last := Latest(g.last, job.completedAt));
      if !IsZero(job.startedAt) || !IsZero(job.completedAt) {
        g := g.(shards := g.shards + [Span(job.startedAt, job.completedAt)]);
      }
      assert g == Join(if base in groups then groups[base] else Group(0, 0, []), job.startedAt, job.completedAt);
      groups := groups[base := g];
    }
    assert all[..|jobs|] == all;
  }

  method GroupWeights(jobs: seq<ForgeJob>) returns (weights: Option<ByName>)
    ensures weights == Measured(GroupedAll(jobs))
  {
    ghost var all := GroupedAll(jobs);
    var groups := CollectGroups(jobs);
    weights := None;
    var rest := groups.Keys;
    hide Labels, GroupOf, Measurable, Measure, Normalised;
    while rest != {}
      invariant rest <= groups.Keys
      invariant weights.None? ==> forall n :: n in groups.Keys - rest ==> !Timed(all, n)
      invariant weights.Some? ==> weights.value != map[]
      invariant weights.Some? ==> forall n :: n in weights.value <==> n in groups.Keys - rest && Timed(all, n)
      invariant weights.Some? ==> forall n :: n in weights.value ==> weights.value[n] == PillOf(all, n)
    {
      var base :| base in rest;
      rest := rest - {base};
      var g := groups[base];
      var busy, ok := BusyTime(g.shards, g.first, g.last);
      assert ok <==> Timed(all, base);
      if !ok {
        continue;
      }
      var soFar := weights.GetOr(map[]);
      weights := Some(soFar[base := MaxReal(STEP_WEIGHT_FLOOR, Seconds(busy))]);
      assert base in weights.value;
    }
    hide Timed, PillOf;
    if weights.None? {
      assert Pills(all) == map[];
    } else {
      assert Pills(all) == weights.value;
    }
  }

  // ---------- What the measurement means ----------

  lemma {:induction false} FirstStartIsLeast(jobs: seq<Job>)
    ensures var f := FirstStart(jobs);
      && (IsZero(f) <==> forall j :: j in jobs ==> IsZero(j.startedAt))
      && (!IsZero(f) ==> exists j :: j in jobs && j.startedAt == f)
      && (forall j :: j in jobs && !IsZero(j.startedAt) ==> f <= j.startedAt)
  {
    if jobs != [] {
      var n := |jobs| - 1;
      assert jobs == jobs[..n] + [jobs[n]];
      FirstStartIsLeast(jobs[..n]);
    }
  }

  lemma {:induction false} LastEndIsGreatest(jobs: seq<Job>)
    ensures var l := LastEnd(jobs);
      && (IsZero(l) <==> forall j :: j in jobs ==> IsZero(j.completedAt))
      && (!IsZero(l) ==> exists j :: j in jobs && j.completedAt == l)
      && (forall j :: j in jobs ==> j.completedAt <= l)
  {
    if jobs != [] {
      var n := |jobs| - 1;
      assert jobs == jobs[..n] + [jobs[n]];
      LastEndIsGreatest(jobs[..n]);
    }
  }

  lemma {:induction false} SpansOfShards(shards: seq<Job>)
    ensures forall s :: s in Spans(shards) <==>
      !(IsZero(s.start) && IsZero(s.end)) && exists j :: j in shards && Span(j.startedAt, j.completedAt) == s
  {
    if shards != [] {
      var n := |shards| - 1;
      assert shards == shards[..n] + [shards[n]];
      SpansOfShards(shards[..n]);
    }
  }

  ghost predicate SameJobs(a: seq<Job>, b: seq<Job>) {
    forall j :: j in a <==> j in b
  }

  lemma EndsIgnoreOrder(a: seq<Job>, b: seq<Job>)
    requires SameJobs(a, b)
    ensures FirstStart(a) == FirstStart(b) && LastEnd(a) == LastEnd(b)
    ensures forall s :: s in Spans(a) <==> s in Spans(b)
  {
    FirstStartIsLeast(a);
    FirstStartIsLeast(b);
    LastEndIsGreatest(a);
    LastEndIsGreatest(b);
    SpansOfShards(a);
    SpansOfShards(b);
  }

  lemma NormalisedIgnoresOrder(a: seq<Span>, b: seq<Span>, first: Time, last: Time)
    requires forall s :: s in a <==> s in b
    ensures Measurable(a, first, last) <==> Measurable(b, first, last)
    ensures Measure(Normalised(a, first, last)) == Measure(Normalised(b, first, last))
  {
    NormalisedIntervals(a, first, last);
    NormalisedIntervals(b, first, last);
    var x, y := Normalised(a, first, last), Normalised(b, first, last);
    hide Normalised, Borrow, Covered;
    assert forall s :: s in x <==> s in y;
    assert Covered(x) == Covered(y);
    if x != [] { assert x[0] in y; }
    if y != [] { assert y[0] in x; }
  }

  /** A group's busy time does not depend on the order the forge lists its jobs in. */
  lemma BusyIgnoresOrder(a: seq<Job>, b: seq<Job>, name: string)
    requires SameJobs(a, b)
    ensures Timed(a, name) <==> Timed(b, name)
    ensures BusyOf(a, name) == BusyOf(b, name)
  {
    ShardsOfAGroup(a, name);
    ShardsOfAGroup(b, name);
    var x, y := Shards(a, name), Shards(b, name);
    hide Shards, FirstStart, LastEnd, Spans, Measurable, Measure, Normalised;
    EndsIgnoreOrder(x, y);
    NormalisedIgnoresOrder(Spans(x), Spans(y), FirstStart(x), LastEnd(x));
  }

  /** Nor, then, does anything the run measures. */
  lemma MeasuredIgnoresOrder(a: seq<Job>, b: seq<Job>)
    requires SameJobs(a, b)
    ensures Measured(a) == Measured(b)
  {
    hide Timed, BusyOf;
    forall n
      ensures n in Labels(a) <==> n in Labels(b)
      ensures Timed(a, n) <==> Timed(b, n)
      ensures PillOf(a, n) == PillOf(b, n)
    {
      BusyIgnoresOrder(a, b, n);
      InLabels(a, n);
      InLabels(b, n);
    }
    hide Labels, PillOf;
    assert Pills(a) == Pills(b);
  }

  lemma InLabels(jobs: seq<Job>, name: string)
    ensures name in Labels(jobs) <==> exists j :: j in jobs && j.group == name
  {
    LabelsAreTheGroups(jobs);
    if name in Labels(jobs) {
      ShardsOfAGroup(jobs, name);
      assert Shards(jobs, name)[0] in Shards(jobs, name);
    }
  }

  /** A group is timed exactly when some shard has a start, some has an end, and some
      interval does not run backwards once borrowed sides are filled in. Its busy time
      is at least any fully stamped shard's length, at most the sum of the intervals,
      and never more than the group's outer span. */
  lemma BusyTimeBounds(jobs: seq<Job>, name: string)
    requires Timed(jobs, name)
    ensures var g := GroupOf(jobs, name);
      && g.first <= g.last
      && BusyOf(jobs, name) <= g.last - g.first
      && BusyOf(jobs, name) <= TotalLength(Normalised(g.shards, g.first, g.last))
      && (forall j :: j in jobs && j.group == name && 0 < j.startedAt <= j.completedAt ==>
            j.completedAt - j.startedAt <= BusyOf(jobs, name))
  {
    var s, g := Shards(jobs, name), GroupOf(jobs, name);
    ShardsOfAGroup(jobs, name);
    FirstStartIsLeast(s);
    LastEndIsGreatest(s);
    SpansOfShards(s);
    NormalisedIntervals(g.shards, g.first, g.last);
    var ivs := Normalised(g.shards, g.first, g.last);
    hide Shards, FirstStart, LastEnd, Spans, Normalised, Covered;
    assert ivs[0] in ivs;
    forall iv | iv in ivs
      ensures g.first <= iv.start && iv.end <= g.last
    {
    }
    MeasureBounds(ivs);
    MeasureWithin(ivs, g.first, g.last);
    forall j | j in jobs && j.group == name && 0 < j.startedAt <= j.completedAt
      ensures j.completedAt - j.startedAt <= BusyOf(jobs, name)
    {
      var sp := Span(j.startedAt, j.completedAt);
      assert sp in g.shards;
      assert Borrow(sp, g.first, g.last) == sp;
      assert sp in ivs;
    }
  }

  // ---------- The weight returned, read off the jobs ----------

  /** The instant a shard of the group counts from: its own start, or without one the
      earliest start any shard has. */
  ghost predicate Starts(jobs: seq<Job>, name: string, job: Job, at: Time) {
    if job.startedAt > 0 then at == job.startedAt
    else
      && (exists j :: j in jobs && j.group == name && j.startedAt == at > 0)
      && (forall j :: j in jobs && j.group == name && j.startedAt > 0 ==> at <= j.startedAt)
  }

  /** And the instant it counts to: its own end, or without one the latest any shard has. */
  ghost predicate Stops(jobs: seq<Job>, name: string, job: Job, at: Time) {
    if job.completedAt > 0 then at == job.completedAt
    else
      && (exists j :: j in jobs && j.group == name && j.completedAt == at > 0)
      && (forall j :: j in jobs && j.group == name ==> j.completedAt <= at)
  }

  /** A shard of the group, stamped on one side at least, counts from a to b. */
  ghost predicate Counts(jobs: seq<Job>, name: string, job: Job, a: Time, b: Time) {
    && job in jobs && job.group == name && (job.startedAt > 0 || job.completedAt > 0)
    && Starts(jobs, name, job, a) && Stops(jobs, name, job, b)
  }

  ghost predicate BusyAt(jobs: seq<Job>, name: string, t: int) {
    exists job, a: Time, b: Time :: Counts(jobs, name, job, a, b) && a <= t < b
  }

  lemma ShardEnds(jobs: seq<Job>, name: string, job: Job)
    requires job in jobs && job.group == name
    requires var g := GroupOf(jobs, name); g.first > 0 && g.last > 0
    ensures var g := GroupOf(jobs, name); var s := Borrow(Span(job.startedAt, job.completedAt), g.first, g.last);
      && (forall a :: Starts(jobs, name, job, a) <==> a == s.start)
      && (forall b :: Stops(jobs, name, job, b) <==> b == s.end)
  {
    var shards := Shards(jobs, name);
    ShardsOfAGroup(jobs, name);
    FirstStartIsLeast(shards);
    LastEndIsGreatest(shards);
    hide Shards, FirstStart, LastEnd, Spans;
  }

  lemma ShardIsCounted(jobs: seq<Job>, name: string, x: Span)
    ensures x in GroupOf(jobs, name).shards <==>
      (x.start > 0 || x.end > 0) && exists job :: job in jobs && job.group == name && Span(job.startedAt, job.completedAt) == x
  {
    ShardsOfAGroup(jobs, name);
    SpansOfShards(Shards(jobs, name));
    hide Shards, FirstStart, LastEnd, Spans;
  }

  /** The intervals of a group's record are those its shards count. */
  lemma IntervalsOfTheShards(jobs: seq<Job>, name: string, s: Span)
    requires var g := GroupOf(jobs, name); g.first > 0 && g.last > 0
    ensures var g := GroupOf(jobs, name);
      s in Normalised(g.shards, g.first, g.last) <==> s.start <= s.end && exists job :: Counts(jobs, name, job, s.start, s.end)
  {
    var g := GroupOf(jobs, name);
    NormalisedIntervals(g.shards, g.first, g.last);
    hide GroupOf, Normalised, Starts, Stops, Borrow;
    if s in Normalised(g.shards, g.first, g.last) {
      var x :| x in g.shards && Borrow(x, g.first, g.last) == s;
      ShardIsCounted(jobs, name, x);
      var job :| job in jobs && job.group == name && Span(job.startedAt, job.completedAt) == x;
      ShardEnds(jobs, name, job);
      assert Counts(jobs, name, job, s.start, s.end);
    }
    if job :| s.start <= s.end && Counts(jobs, name, job, s.start, s.end) {
      var x := Span(job.startedAt, job.completedAt);
      ShardIsCounted(jobs, name, x);
      ShardEnds(jobs, name, job);
      assert x in g.shards && Borrow(x, g.first, g.last) == s;
    }
  }

  lemma CountingNeedsStamps(jobs: seq<Job>, name: string, job: Job, a: Time, b: Time)
    requires Counts(jobs, name, job, a, b)
    ensures GroupOf(jobs, name).first > 0 && GroupOf(jobs, name).last > 0
  {
    ShardsOfAGroup(jobs, name);
    FirstStartIsLeast(Shards(jobs, name));
    LastEndIsGreatest(Shards(jobs, name));
    hide Shards, FirstStart, LastEnd, Spans;
  }

  /** A group is measured exactly when some shard of it counts an interval that does not run
      backwards. */
  lemma WhichGroupsAreMeasured(jobs: seq<Job>, name: string)
    ensures Measured(jobs).Some? && name in Measured(jobs).value <==>
      exists job, a: Time, b: Time :: Counts(jobs, name, job, a, b) && a <= b
  {
    var g := GroupOf(jobs, name);
    InLabels(jobs, name);
    hide Labels, GroupOf, Normalised, PillOf, Counts;
    if job, a: Time, b: Time :| Counts(jobs, name, job, a, b) && a <= b {
      CountingNeedsStamps(jobs, name, job, a, b);
      IntervalsOfTheShards(jobs, name, Span(a, b));
      assert Timed(jobs, name);
      assert name in Labels(jobs) by { CountedIsListed(jobs, name, job, a, b); }
      assert name in Pills(jobs);
    }
    if Measured(jobs).Some? && name in Measured(jobs).value {
      var s := Normalised(g.shards, g.first, g.last)[0];
      IntervalsOfTheShards(jobs, name, s);
      var job :| Counts(jobs, name, job, s.start, s.end);
    }
  }

  lemma CountedIsListed(jobs: seq<Job>, name: string, job: Job, a: Time, b: Time)
    requires Counts(jobs, name, job, a, b)
    ensures name in Labels(jobs)
  {
    InLabels(jobs, name);
  }

  lemma CoveredIsBusy(jobs: seq<Job>, name: string, t: int)
    requires var g := GroupOf(jobs, name); g.first > 0 && g.last > 0
    ensures var g := GroupOf(jobs, name); t in Covered(Normalised(g.shards, g.first, g.last)) <==> BusyAt(jobs, name, t)
  {
    hide GroupOf, Normalised, Counts, Covered;
    var g := GroupOf(jobs, name);
    var ivs := Normalised(g.shards, g.first, g.last);
    if t in Covered(ivs) {
      var s :| s in ivs && s.start <= t < s.end;
      IntervalsOfTheShards(jobs, name, s);
    }
    if BusyAt(jobs, name, t) {
      var job, a: Time, b: Time :| Counts(jobs, name, job, a, b) && a <= t < b;
      IntervalsOfTheShards(jobs, name, Span(a, b));
      assert Span(a, b) in ivs;
    }
  }

  lemma MeasuredAs(jobs: seq<Job>, name: string)
    requires Measured(jobs).Some? && name in Measured(jobs).value
    ensures var g := GroupOf(jobs, name);
      && g.first > 0 && g.last > 0
      && Measured(jobs).value[name] == MaxReal(STEP_WEIGHT_FLOOR, Seconds(|Covered(Normalised(g.shards, g.first, g.last))|))
  {
    hide Labels, GroupOf, Normalised, Covered;
  }

  /** The weight of a group measured is how many seconds at least one of its shards counts,
      one second at the least. */
  lemma MeasuredIsBusyTime(jobs: seq<Job>, name: string, busy: set<int>)
    requires Measured(jobs).Some? && name in Measured(jobs).value
    requires forall t :: t in busy <==> BusyAt(jobs, name, t)
    ensures var secs := |busy| as real / 1_000_000_000.0; Measured(jobs).value[name] == if secs > 1.0 then secs else 1.0
  {
    hide GroupOf, Normalised, BusyAt, Covered, Measured;
    MeasuredAs(jobs, name);
    var g := GroupOf(jobs, name);
    var covered := Covered(Normalised(g.shards, g.first, g.last));
    forall t
      ensures t in covered <==> t in busy
    {
      CoveredIsBusy(jobs, name, t);
    }
    assert covered == busy;
  }

  /** So it is no less than any fully stamped shard took, and no more - the floor aside -
      than lies between the group's first start and its last end, nor than its intervals
      take together. */
  lemma WeightBounds(jobs: seq<Job>, name: string)
    requires Measured(jobs).Some? && name in Measured(jobs).value
    ensures var w := Measured(jobs).value[name]; var g := GroupOf(jobs, name);
      && w >= 1.0
      && (forall j :: j in jobs && j.group == name && 0 < j.startedAt <= j.completedAt ==>
            w >= (j.completedAt - j.startedAt) as real / 1_000_000_000.0)
      && (w > 1.0 ==> w <= (g.last - g.first) as real / 1_000_000_000.0)
      && (w > 1.0 ==> w <= TotalLength(Normalised(g.shards, g.first, g.last)) as real / 1_000_000_000.0)
  {
    BusyTimeBounds(jobs, name);
    hide Labels, GroupOf, BusyOf, Normalised, TotalLength;
  }
}
