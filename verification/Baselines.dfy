/** shared/cipoll/poller.go: what a prior run contributes to the next one - from the seed
    cache, or from the forge rung by rung - and why its weights are fit for the card. */
module Baselines {
  import opened Prelude
  import opened Clock
  import opened Steps
  import opened Weights
  import opened Pills
  import opened Poller
  import opened SeedCache
  import Card
  import PollLoop

  /** One candidate ref asked of the forge: an error, or a finished run's jobs and length. */
  datatype Rung = Unavailable | Answered(jobs: seq<ForgeJob>, duration: int)

  /** What detection takes over. Go's nil weights are the empty map. */
  datatype Prior = Prior(shape: StepInfo, weights: ByName)

  // ---------- Weights at least the floor ----------

  /** ci.BaselineWeights, whatever the jobs and however long the run. */
  lemma BaselineWeightsAtLeastFloor(jobs: seq<Job>, labels: seq<string>, run: int)
    ensures AtLeastFloor(Filled(Weights.Pills(jobs), labels, run))
  {
    MeasuredAtLeastFloor(jobs);
    FillBounds(Weights.Pills(jobs), labels, run);
  }

  /** What a cached run contributes, built anew on every read. */
  ghost function SeedWeights(e: Seed): ByName { Filled(e.weights.GetOr(map[]), e.shape.stepLabels, e.duration) }

  ghost predicate Floored(e: Seed) { AtLeastFloor(e.weights.GetOr(map[])) }

  ghost predicate AllFloored(c: Cache) { forall k :: k in c.entries ==> Floored(c.entries[k]) }

  lemma SeedWeightsAtLeastFloor(e: Seed)
    requires Floored(e)
    ensures AtLeastFloor(SeedWeights(e))
  {
    FillBounds(e.weights.GetOr(map[]), e.shape.stepLabels, e.duration);
  }

  /** The loop files what GroupWeights measured, or nothing. */
  ghost predicate FiledAsMeasured(put: Put) {
    put.seed.weights.Some? ==> exists jobs :: put.seed.weights == Measured(jobs)
  }

  lemma FiledIsFloored(put: Put)
    requires FiledAsMeasured(put)
    ensures Floored(put.seed)
  {
    if put.seed.weights.Some? {
      var jobs :| put.seed.weights == Measured(jobs);
      MeasuredAtLeastFloor(jobs);
    }
  }

  lemma StoredIsFloored(c: Cache, key: Key, e: Seed)
    requires AllFloored(c) && Floored(e)
    ensures Floored(Stored(c, key, e))
  {
    if key in c.entries {
      var seen, prev := e.weights, c.entries[key].weights;
      assert Floored(c.entries[key]);
      var merged := MergeWeights(seen, prev);
      assert forall g :: merged.Some? && g in merged.value ==> Weight(merged, g) == Weight(seen, g).Or(Weight(prev, g));
    }
  }

  /** So after any run of filings every cached seed is fit to contribute. */
  lemma {:induction false} EveryCachedSeedIsFloored(puts: seq<Put>, capacity: nat)
    requires forall i :: 0 <= i < |puts| ==> FiledAsMeasured(puts[i])
    ensures AllFloored(SeedCache.From(puts, capacity))
  {
    if puts != [] {
      var before, last := puts[..|puts| - 1], puts[|puts| - 1];
      EveryCachedSeedIsFloored(before, capacity);
      OrderIsRecency(before, capacity);
      var c := SeedCache.From(before, capacity);
      PutFacts(c, capacity, last.key, last.seed);
      FiledIsFloored(last);
      StoredIsFloored(c, last.key, last.seed);
      hide Floored, Stored, Inv;
    }
  }

  // ---------- baselineShape ----------

  /** The rung that answers: the first with jobs, no error before it. */
  ghost predicate Answers(rungs: seq<Rung>, i: int) {
    && 0 <= i < |rungs| && rungs[i].Answered? && rungs[i].jobs != []
    && forall k :: 0 <= k < i ==> rungs[k].Answered? && rungs[k].jobs == []
  }

  ghost function FromForge(cfg: Config, wantTimings: bool, rung: Rung): Prior
    requires rung.Answered?
  {
    var jobs := GroupedAll(rung.jobs);
    var shape := Scan(cfg, jobs);
    Prior(shape, if wantTimings then Filled(Weights.Pills(jobs), shape.stepLabels, rung.duration) else map[])
  }

  /** The ladder of preferences: a cached run unless timings are wanted and it has none to
      give; then the forge; then the cached shape alone. */
  ghost predicate Chosen(cfg: Config, wantTimings: bool, found: Option<Seed>, rungs: seq<Rung>, base: Option<Prior>) {
    if found.Some? && !wantTimings then base == Some(Prior(found.value.shape, map[]))
    else if found.Some? && HasWeights(found.value) then base == Some(Prior(found.value.shape, SeedWeights(found.value)))
    else
      && (forall i :: Answers(rungs, i) ==> base == Some(FromForge(cfg, wantTimings, rungs[i])))
      && ((forall i :: !Answers(rungs, i)) ==> base == if found.Some? then Some(Prior(found.value.shape, map[])) else None)
  }

  /** Whether the seed was measured, or its run can be split evenly. */
  predicate HasWeights(e: Seed) { e.weights.Some? || EvenShare(e.shape.stepLabels, e.duration).Some? }

  method AskForge(rungs: seq<Rung>) returns (jobs: seq<ForgeJob>, duration: int, ghost at: int)
    ensures jobs != [] ==> Answers(rungs, at) && rungs[at] == Answered(jobs, duration)
    ensures jobs == [] ==> forall i :: !Answers(rungs, i)
  {
    var i := 0;
    at := 0;
    while i < |rungs|
      invariant i <= |rungs|
      invariant forall k :: 0 <= k < i ==> rungs[k].Answered? && rungs[k].jobs == []
    {
      if rungs[i].Unavailable? {
        return [], 0, 0;
      }
      if |rungs[i].jobs| > 0 {
        return rungs[i].jobs, rungs[i].duration, i;
      }
      i := i + 1;
    }
    return [], 0, 0;
  }

  method ReadSeed(e: Seed) returns (weights: Option<ByName>)
    ensures weights == if HasWeights(e) then Some(SeedWeights(e)) else None
  {
    hide EvenShare, Filled;
    var source;
    weights, source := FillWeights(e.weights, e.shape.stepLabels, e.duration);
  }

  method ReadForge(cfg: Config, wantTimings: bool, jobs: seq<ForgeJob>, duration: int) returns (base: Prior)
    ensures base == FromForge(cfg, wantTimings, Answered(jobs, duration))
  {
    hide Scan, Filled, Measured, Weights.Pills, EvenShare;
    var shape := PollLoop.ScanJobs(cfg, jobs);
    if !wantTimings {
      return Prior(shape, map[]);
    }
    var measured := GroupWeights(jobs);
    MeasuredAsPills(GroupedAll(jobs));
    var weights, source := FillWeights(measured, shape.stepLabels, duration);
    return Prior(shape, weights.GetOr(map[]));
  }

  /** What a prior run of the workflow contributes, if there is one to be had. */
  method BaselineShape(cfg: Config, hasKey: bool, wantTimings: bool, found: Option<Seed>, rungs: seq<Rung>) returns (base: Option<Prior>)
    ensures !hasKey ==> base == None
    ensures hasKey ==> Chosen(cfg, wantTimings, found, rungs, base)
  {
    hide FromForge, SeedWeights, HasWeights, Answers;
    if !hasKey {
      return None;
    }
    if found.Some? {
      if !wantTimings {
        return Some(Prior(found.value.shape, map[]));
      }
      var weights := ReadSeed(found.value);
      if weights.Some? {
        return Some(Prior(found.value.shape, weights.value));
      }
    }
    var jobs, duration, at := AskForge(rungs);
    if |jobs| == 0 {
      return if found.Some? then Some(Prior(found.value.shape, map[])) else None;
    }
    OneRungAnswers(rungs, at);
    var prior := ReadForge(cfg, wantTimings, jobs, duration);
    return Some(prior);
  }

  lemma MeasuredAsPills(jobs: seq<Job>)
    ensures Measured(jobs).GetOr(map[]) == Weights.Pills(jobs)
  {
  }

  lemma OneRungAnswers(rungs: seq<Rung>, at: int)
    requires Answers(rungs, at)
    ensures forall i :: Answers(rungs, i) ==> i == at
  {
  }

  /** Whatever detection takes over has every weight at the floor or above. */
  lemma EveryBaselineIsFloored(cfg: Config, wantTimings: bool, found: Option<Seed>, rungs: seq<Rung>, base: Option<Prior>)
    requires Chosen(cfg, wantTimings, found, rungs, base) && (found.Some? ==> Floored(found.value))
    ensures base.Some? ==> AtLeastFloor(base.value.weights)
  {
    hide Scan, Filled, Weights.Pills;
    if found.Some? {
      SeedWeightsAtLeastFloor(found.value);
    }
    forall i | Answers(rungs, i)
      ensures AtLeastFloor(FromForge(cfg, wantTimings, rungs[i]).weights)
    {
      var jobs := GroupedAll(rungs[i].jobs);
      BaselineWeightsAtLeastFloor(jobs, Scan(cfg, jobs).stepLabels, rungs[i].duration);
    }
  }

  // ---------- Every baseline fits the card ----------

  /** A put the loop files: the ladder of some jobs, and what was measured of them or nothing. */
  ghost predicate FiledByTheLoop(cfg: Config, put: Put) { exists jobs :: FiledFrom(cfg, put.seed, jobs) }

  ghost predicate FiledFrom(cfg: Config, e: Seed, jobs: seq<Job>) {
    jobs != [] && e.shape == Scan(cfg, jobs) && (e.weights.Some? ==> e.weights == Measured(jobs))
  }

  /** A cached run is enough, whatever the forge would say, when nothing reads timings, when it was
      measured, or when its length split over its groups gives each more than a second. */
  lemma WhenTheCacheIsEnough(cfg: Config, wantTimings: bool, found: Option<Seed>, rungs: seq<Rung>, base: Option<Prior>)
    requires Chosen(cfg, wantTimings, found, rungs, base)
    ensures found.Some? && !wantTimings ==> base == Some(Prior(found.value.shape, map[]))
    ensures found.Some? && wantTimings ==>
      var e := found.value; var labels := e.shape.stepLabels;
      (e.weights.Some? || (labels != [] && e.duration as real / 1_000_000_000.0 / |labels| as real > 1.0) ==>
        base == Some(Prior(e.shape, Filled(e.weights.GetOr(map[]), labels, e.duration))))
  {
    hide Filled, FromForge, EvenShare;
    if found.Some? {
      WhenARunCanBeSplit(found.value.shape.stepLabels, found.value.duration);
    }
  }

  /** A run read from the forge brings the ladder of its jobs and, when timings are read, the weight
      measured for each of their groups, as long as its run does not undercut it. */
  lemma WhatTheForgeContributes(cfg: Config, wantTimings: bool, found: Option<Seed>, rungs: seq<Rung>, base: Option<Prior>, i: nat, group: string)
    requires Chosen(cfg, wantTimings, found, rungs, base) && found.None? && i < |rungs| && Answers(rungs, i)
    ensures var jobs := GroupedAll(rungs[i].jobs); var secs := rungs[i].duration as real / 1_000_000_000.0;
      && base.Some? && base.value.shape.stepLabels == Labels(jobs)
      && (!wantTimings ==> base.value.weights == map[])
      && (wantTimings && Measured(jobs).Some? && group in Measured(jobs).value && (Measured(jobs).value[group] <= secs || secs <= 1.0) ==>
            group in base.value.weights && base.value.weights[group] == Measured(jobs).value[group])
  {
    var jobs := GroupedAll(rungs[i].jobs);
    MeasuredAsPills(jobs);
    WhatFillingKeeps(Weights.Pills(jobs), Scan(cfg, jobs).stepLabels, rungs[i].duration, group);
    hide Filled, Measured, Weights.Pills, Labels, Shards, FirstRunning, FirstUnfinished, FirstStart, Finished;
  }

  /** What an active pass files is such a put: under its key, with the labels of its jobs, their
      weights when timings are read, and a length that ends now. */
  lemma TheLoopFiles(cfg: Config, jobs: seq<Job>, verdict: Card.Verdict, about: PollLoop.About, now: Time, wantTimings: bool)
    requires jobs != []
    ensures var filed := PollLoop.FiledBy(cfg, jobs, verdict, about, now, wantTimings);
      && (filed.Some? <==> Card.Ends(cfg, jobs, verdict))
      && (filed.Some? ==>
          && FiledByTheLoop(cfg, filed.value) && FiledAsMeasured(filed.value)
          && filed.value.key == about.key && filed.value.seed.success == about.success && filed.value.seed.runId == about.runId
          && filed.value.seed.shape.stepLabels == Labels(jobs)
          && (if wantTimings then filed.value.seed.weights == Measured(jobs) else filed.value.seed.weights == None)
          && (about.reportedStart > 0 ==> about.reportedStart + filed.value.seed.duration == now)
          && (about.reportedStart == 0 && about.detectedStart > 0 ==> about.detectedStart + filed.value.seed.duration == now)
          && (about.reportedStart == about.detectedStart == 0 && about.created > 0 ==> about.created + filed.value.seed.duration == now))
  {
    ScanLabels(cfg, jobs);
    hide Scan, Measured;
    var filed := PollLoop.FiledBy(cfg, jobs, verdict, about, now, wantTimings);
    if filed.Some? {
      assert FiledFrom(cfg, filed.value.seed, jobs);
    }
  }

  lemma ScanLabels(cfg: Config, jobs: seq<Job>)
    ensures Scan(cfg, jobs).stepLabels == Labels(jobs)
  {
    hide Labels, Shards, FirstRunning, FirstUnfinished, FirstStart, Finished;
  }

  /** The ladder of a cached run is still that of its jobs. */
  ghost predicate LadderOf(cfg: Config, shape: StepInfo, jobs: seq<Job>) {
    jobs != [] && CopyShape(shape) == CopyShape(Scan(cfg, jobs))
  }

  ghost predicate HasJobs(cfg: Config, shape: StepInfo) { exists jobs :: LadderOf(cfg, shape, jobs) }

  ghost predicate AllHaveJobs(cfg: Config, c: Cache) {
    forall k :: k in c.entries ==> HasJobs(cfg, c.entries[k].shape)
  }

  lemma StoredHasJobs(cfg: Config, c: Cache, put: Put)
    requires FiledByTheLoop(cfg, put)
    ensures HasJobs(cfg, Stored(c, put.key, put.seed).shape) && FiledAsMeasured(put)
  {
    hide Scan, Measured;
    var jobs :| FiledFrom(cfg, put.seed, jobs);
    assert LadderOf(cfg, Stored(c, put.key, put.seed).shape, jobs);
  }

  lemma {:induction false} EveryCachedSeedHasJobs(cfg: Config, puts: seq<Put>, capacity: nat)
    requires forall i :: 0 <= i < |puts| ==> FiledByTheLoop(cfg, puts[i])
    ensures AllHaveJobs(cfg, SeedCache.From(puts, capacity))
  {
    if puts != [] {
      var before, last := puts[..|puts| - 1], puts[|puts| - 1];
      EveryCachedSeedHasJobs(cfg, before, capacity);
      OrderIsRecency(before, capacity);
      var c := SeedCache.From(before, capacity);
      PutFacts(c, capacity, last.key, last.seed);
      StoredHasJobs(cfg, c, last);
      hide HasJobs, Stored, Inv;
    }
  }

  lemma AnsweredFromTheCache(c: Cache, key: Key, found: Option<Seed>, how: Match)
    requires Answer(c, key, found, how) && found.Some?
    ensures exists k :: k in c.entries && c.entries[k] == found.value
  {
  }

  lemma CachedSeedsAreFit(cfg: Config, puts: seq<Put>, capacity: nat, key: Key, found: Option<Seed>, how: Match)
    requires forall i :: 0 <= i < |puts| ==> FiledByTheLoop(cfg, puts[i])
    requires Answer(SeedCache.From(puts, capacity), key, found, how)
    ensures found.Some? ==> Floored(found.value) && HasJobs(cfg, found.value.shape)
  {
    forall i | 0 <= i < |puts|
      ensures FiledAsMeasured(puts[i])
    {
      StoredHasJobs(cfg, EMPTY, puts[i]);
    }
    EveryCachedSeedIsFloored(puts, capacity);
    EveryCachedSeedHasJobs(cfg, puts, capacity);
    hide FiledByTheLoop, FiledAsMeasured, HasJobs, Floored, Answer, SeedCache.From;
    if found.Some? {
      AnsweredFromTheCache(SeedCache.From(puts, capacity), key, found, how);
    }
  }

  lemma GroupedAllSize(jobs: seq<ForgeJob>)
    requires jobs != []
    ensures GroupedAll(jobs) != []
  {
  }

  lemma ForgeHasJobs(cfg: Config, wantTimings: bool, rung: Rung)
    requires rung.Answered? && rung.jobs != []
    ensures HasJobs(cfg, FromForge(cfg, wantTimings, rung).shape)
  {
    GroupedAllSize(rung.jobs);
    hide Scan, Filled, Weights.Pills, GroupedAll;
    assert LadderOf(cfg, FromForge(cfg, wantTimings, rung).shape, GroupedAll(rung.jobs));
  }

  lemma ChosenHasJobs(cfg: Config, wantTimings: bool, found: Option<Seed>, rungs: seq<Rung>, prior: Prior)
    requires Chosen(cfg, wantTimings, found, rungs, Some(prior)) && (found.Some? ==> HasJobs(cfg, found.value.shape))
    ensures HasJobs(cfg, prior.shape)
  {
    hide FromForge, SeedWeights, HasWeights, HasJobs;
    forall i | Answers(rungs, i)
      ensures HasJobs(cfg, FromForge(cfg, wantTimings, rungs[i]).shape)
    {
      ForgeHasJobs(cfg, wantTimings, rungs[i]);
    }
  }

  /** Detection opens the card with the one shape as with the other. */
  ghost predicate OpensAlike(cfg: Config, shape: StepInfo, other: StepInfo, weights: ByName) {
    && shape.totalSteps == other.totalSteps
    && SeedFrame(cfg, shape, weights) == SeedFrame(cfg, other, weights)
    && Seeded(Fresh(cfg), shape, weights) == Seeded(Fresh(cfg), other, weights)
  }

  lemma LadderOpensAlike(cfg: Config, shape: StepInfo, jobs: seq<Job>, weights: ByName)
    requires LadderOf(cfg, shape, jobs)
    ensures jobs != [] && OpensAlike(cfg, shape, Scan(cfg, jobs), weights)
  {
    hide Scan, PayloadWeights;
  }

  /** Whatever a prior run contributes - read from a cache the loop has filled, or measured
      at the forge - opens the card as the ladder of some jobs would, and with those jobs and
      its weights a detection is a possible event of the card. */
  lemma EveryBaselineFitsTheCard(cfg: Config, wantTimings: bool, puts: seq<Put>, capacity: nat, key: Key, found: Option<Seed>, how: Match,
                                 rungs: seq<Rung>, prior: Prior, c: Card.Card, scan: seq<Job>, delivered: bool) returns (jobs: seq<Job>)
    requires forall i :: 0 <= i < |puts| ==> FiledByTheLoop(cfg, puts[i])
    requires Answer(SeedCache.From(puts, capacity), key, found, how)
    requires Chosen(cfg, wantTimings, found, rungs, Some(prior)) && c.phase != Card.OnScreen
    ensures LadderOf(cfg, prior.shape, jobs) && OpensAlike(cfg, prior.shape, Scan(cfg, jobs), prior.weights)
    ensures Card.Possible(c, Card.Detect(scan, Some(Baseline(jobs, prior.weights)), delivered))
  {
    hide FiledByTheLoop, Answer, Chosen, Floored, LadderOf, OpensAlike, Scan;
    CachedSeedsAreFit(cfg, puts, capacity, key, found, how);
    EveryBaselineIsFloored(cfg, wantTimings, found, rungs, Some(prior));
    ChosenHasJobs(cfg, wantTimings, found, rungs, prior);
    jobs :| LadderOf(cfg, prior.shape, jobs);
    LadderOpensAlike(cfg, prior.shape, jobs, prior.weights);
  }
}
