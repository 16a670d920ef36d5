/** The two inputs the loop cannot rule out that make the server refuse a tick. */
module CardLimits {
  import opened Prelude
  import opened Clock
  import opened Steps
  import opened Weights
  import opened Pills
  import opened Server
  import opened Poller
  import opened Card
  import opened CardSync
  import opened CardLate

  lemma DetectedOnce(cfg: Config, scan: seq<Job>, base: Option<Baseline>)
    requires Possible(START, Detect(scan, base, true))
    ensures After(cfg, [Detect(scan, base, true)]) == DetectStep(cfg, START, scan, base, true)
    ensures After(cfg, [Detect(scan, base, true)]).phase == OnScreen
  {
    hide DetectStep;
    var events := [Detect(scan, base, true)];
    assert events == [] + events;
    AfterOneMore(cfg, [], events[0]);
    DetectedIsOnScreen(cfg, START, scan, base, true);
  }

  /** What a one-job tick shows on a card of one group. */
  lemma OneJobShown(cfg: Config, run: Run, job: Job)
    requires job.status == InProgress && job.group != "" && run.maxTotalSteps == 1 && run.maxStepLabels == [job.group]
    ensures var (run', info) := Shown(cfg, run, [job]);
      run' == run && info.currentStepName == job.group && info.currentStep == 1 && info.currentStepStartedAt == job.startedAt
  {
    OneJobScan(cfg, job);
    hide Scan;
  }

  lemma OneJobShape(cfg: Config, job: Job, weights: ByName)
    requires job.status == InProgress && job.group != ""
    ensures var shape := SeedShape(cfg, [job], Some(Baseline([job], weights))); shape.totalSteps == 1 && shape.stepLabels == [job.group]
  {
    OneJobScan(cfg, job);
    hide Scan;
  }

  lemma DetectedRun(cfg: Config, scan: seq<Job>, base: Baseline)
    ensures var run := DetectStep(cfg, START, scan, Some(base), true).run; var shape := SeedShape(cfg, scan, Some(base));
      && run.maxTotalSteps == shape.totalSteps && run.maxStepLabels == shape.stepLabels && run.stepWeightByName == base.weights
      && run.liveSent == cfg.liveProgress && run.liveStepName == "" && IsZero(run.lastPatchAt)
  {
    hide SeedShape, SeedFrame, Landed, Apply;
  }

  lemma OneJobSeeded(cfg: Config, job: Job, weights: ByName)
    requires job.status == InProgress && job.group != ""
    ensures var run := DetectStep(cfg, START, [job], Some(Baseline([job], weights)), true).run;
      && run.maxTotalSteps == 1 && run.maxStepLabels == [job.group] && run.stepWeightByName == weights
      && run.liveSent == cfg.liveProgress && run.liveStepName == "" && IsZero(run.lastPatchAt)
  {
    hide SeedShape, DetectStep;
    OneJobShape(cfg, job, weights);
    DetectedRun(cfg, [job], Baseline([job], weights));
  }

  lemma FirstTickSends(cfg: Config, run: Run, info: StepInfo, now: Time)
    requires IsZero(run.lastPatchAt)
    ensures Decide(cfg, run, info, now).Sends()
  {
    hide LiveAnchor;
  }

  /** A job whose name is over 256 runes: its tick is sent and refused from the first pass on. */
  lemma LongNamesAreRefused(name: string, now: Time)
    requires |name| > MAX_STATE_RUNES
    ensures var job := Job(name, InProgress, Unknown, 0, 0); var base := Some(Baseline([job], map[]));
      var c := After(PLAIN, [Detect([job], base, true)]); var (run, info) := Shown(PLAIN, c.run, [job]);
      var plan := Decide(PLAIN, run, info, now);
      plan.Sends() && !Valid(Merge(c.server, TickFrame(PLAIN, run, info, plan)))
  {
    var job := Job(name, InProgress, Unknown, 0, 0);
    var base := Some(Baseline([job], map[]));
    DetectedOnce(PLAIN, [job], base);
    OneJobSeeded(PLAIN, job, map[]);
    var c := After(PLAIN, [Detect([job], base, true)]);
    OneJobShown(PLAIN, c.run, job);
    FirstTickSends(PLAIN, Shown(PLAIN, c.run, [job]).0, Shown(PLAIN, c.run, [job]).1, now);
    EveryTickAccepted(PLAIN, [Detect([job], base, true)], [job], now);
    hide After, DetectStep, Shown, Decide, TickFrame, Merge, Valid, StepsValid;
  }

  const LIVE: Config := Config(false, false, true, 1, _ => "")

  ghost function Stamped(startedAt: Time): Job { Job("c", InProgress, Unknown, startedAt, 0) }

  ghost function Opening(startedAt: Time): seq<Event> {
    [Detect([Stamped(startedAt)], Some(Baseline([Stamped(startedAt)], map["c" := 100.0])), true)]
  }

  /** The forge stamped the job no earlier than a host clock that reads the Unix epoch, as one
      without a battery does until it is set. */
  lemma EpochAnchor(run: Run, info: StepInfo, now: Time)
    requires run.stepWeightByName == map["c" := 100.0] && run.liveStepName == ""
    requires info.currentStepName == "c" && info.currentStep == 1 && info.currentStepStartedAt >= now && info.currentStepStartedAt > 0
    requires Unix(now) <= 0
    ensures var plan := Decide(LIVE, run, info, now); plan.anchorChanged && plan.anchor.Window? && plan.anchor.start <= 0
  {
    var byName: ByName := map["c" := 100.0];
    assert Drawn("c", byName) == 100.0;
    assert Seconds(MAX_RUN_LIFETIME) == 43200.0;
    assert AnchorLength("c", byName, MAX_RUN_LIFETIME) == 100;
    assert AnchorStart(info, now) == now && "c" != QUEUED_STEP_NAME;
    hide Drawn, AnchorLength;
  }

  lemma StampedShown(startedAt: Time)
    ensures var c := After(LIVE, Opening(startedAt)); var (run, info) := Shown(LIVE, c.run, [Stamped(startedAt)]);
      && c.phase == OnScreen && IsZero(run.lastPatchAt) && info.currentStepName == "c" && info.currentStep == 1
      && info.currentStepStartedAt == startedAt && run.stepWeightByName == map["c" := 100.0] && run.liveStepName == ""
  {
    hide After, DetectStep, Shown;
    var job := Stamped(startedAt);
    DetectedOnce(LIVE, [job], Some(Baseline([job], map["c" := 100.0])));
    OneJobSeeded(LIVE, job, map["c" := 100.0]);
    OneJobShown(LIVE, After(LIVE, Opening(startedAt)).run, job);
  }

  /** While the host's clock reads the Unix epoch or before, the window it anchors is refused,
      and the tick with it. */
  lemma EpochClocksAreRefused(startedAt: Time, now: Time)
    requires startedAt >= now && startedAt > 0 && Unix(now) <= 0
    ensures var c := After(LIVE, Opening(startedAt)); var (run, info) := Shown(LIVE, c.run, [Stamped(startedAt)]);
      var plan := Decide(LIVE, run, info, now);
      plan.Sends() && !Valid(Merge(c.server, TickFrame(LIVE, run, info, plan)))
  {
    hide After, Shown, Decide, TickFrame, Merge, Valid, StepsValid, Unix;
    StampedShown(startedAt);
    var (run, info) := Shown(LIVE, After(LIVE, Opening(startedAt)).run, [Stamped(startedAt)]);
    FirstTickSends(LIVE, run, info, now);
    EveryTickAccepted(LIVE, Opening(startedAt), [Stamped(startedAt)], now);
    EpochAnchor(run, info, now);
  }
}
