/** shared/cipoll/poller.go as the loop runs it: the tracked run's fields updated pass by
    pass, each frame sent to the activity as it is built. Every method takes the card
    one event further. */
module PollLoop {
  import opened Prelude
  import opened Clock
  import opened Steps
  import opened Weights
  import opened Pills
  import opened Server
  import opened Poller
  import opened Card
  import SeedCache

  method ScanJobs(cfg: Config, jobs: seq<ForgeJob>) returns (info: StepInfo)
    ensures info == Scan(cfg, GroupedAll(jobs))
  {
    info := ComputeSteps(jobs, cfg.color);
    if !cfg.stepColors {
      info := info.(stepColors := []);
    }
  }

  method ComputePayloadWeights(cfg: Config, total: int, labels: seq<string>, byName: ByName) returns (w: seq<real>)
    ensures w == PayloadWeights(cfg, total, labels, byName)
  {
    if !cfg.stepWeights {
      return [];
    }
    w := ProjectWeights(labels, byName);
    if |w| == total {
      return;
    }
    w := UniformWeights(total);
  }

  method BuildFullFrame(cfg: Config, shape: StepInfo, byName: ByName, current: int, progress: real, state: string) returns (f: Content)
    ensures f == FullFrame(cfg, shape, byName, current, progress, state)
  {
    var weights := ComputePayloadWeights(cfg, shape.totalSteps, shape.stepLabels, byName);
    var rows, labels := ClampStepShape(shape.stepRows, shape.stepLabels);
    f := Content(Some(TEMPLATE_STEPS), Some(progress), OmitEmpty(state), Some(current), Some(shape.totalSteps),
      OmitEmpty(rows), OmitEmpty(labels), OmitEmpty(shape.stepColors), OmitEmpty(weights), LiveProgressOff(cfg), None, None);
  }

  method ComputeBetweenWaves(info: StepInfo, observed: StepInfo, lastProgress: real) returns (out: StepInfo)
    ensures out == BetweenWaves(info, observed, lastProgress)
  {
    out := info.(allCompleted := false, currentStepName := QUEUED_STEP_NAME, currentStepStartedAt := 0,
                 currentStep := info.totalSteps);
    for i := 0 to |info.stepLabels|
      invariant out == info.(allCompleted := false, currentStepName := QUEUED_STEP_NAME, currentStepStartedAt := 0,
                             currentStep := info.totalSteps)
      invariant forall q :: 0 <= q < i ==> info.stepLabels[q] in observed.stepLabels
    {
      if info.stepLabels[i] !in observed.stepLabels {
        out := out.(currentStep := i + 1);
        break;
      }
    }
    out := out.(progress := lastProgress);
  }

  method ComputePlan(cfg: Config, run: Run, info: StepInfo, now: Time) returns (plan: Plan)
    ensures plan == Decide(cfg, run, info, now)
  {
    var anchor := ComputeAnchor(info, run.stepWeightByName, now, MAX_RUN_LIFETIME);
    var wantLive := cfg.liveProgress && anchor.Window?;
    var shapeChanged := run.shapeSent != run.maxStepLabels;
    var scalarChanged := IsZero(run.lastPatchAt) ||
      info.progress != run.lastProgress ||
      info.currentStepName != run.lastState ||
      info.currentStep != run.lastCurrentStep ||
      info.totalSteps != run.lastTotalSteps;
    var heartbeatDue := !IsZero(run.lastPatchAt) && now - run.lastPatchAt >= cfg.heartbeat;
    var anchorChanged := wantLive && (!run.liveSent || info.currentStepName != run.liveStepName);
    var clearLive := run.liveSent && !wantLive && info.currentStepName != run.liveStepName;
    plan := Plan(shapeChanged, scalarChanged, heartbeatDue, anchorChanged, clearLive, anchor);
  }

  method ChooseShape(cfg: Config, scan: seq<ForgeJob>, base: Option<Baseline>) returns (shape: StepInfo)
    ensures shape == SeedShape(cfg, GroupedAll(scan), base)
  {
    hide Scan;
    shape := BARE;
    if |scan| > 0 {
      shape := ScanJobs(cfg, scan);
    }
    if base.Some? {
      var prior := Scan(cfg, base.value.jobs);
      if prior.totalSteps > shape.totalSteps {
        shape := prior;
      }
    }
  }

  method BuildTickFrame(cfg: Config, run: Run, info: StepInfo, plan: Plan) returns (patch: Content)
    requires plan.anchorChanged ==> plan.anchor.Window?
    ensures patch == TickFrame(cfg, run, info, plan)
  {
    patch := EMPTY.(progress := Some(info.progress), state := Some(info.currentStepName),
                    currentStep := Some(info.currentStep), totalSteps := Some(info.totalSteps));
    if plan.shapeChanged {
      var stepWeights := ComputePayloadWeights(cfg, info.totalSteps, info.stepLabels, run.stepWeightByName);
      var rows, labels := ClampStepShape(info.stepRows, info.stepLabels);
      patch := patch.(stepRows := OmitEmpty(rows), stepLabels := OmitEmpty(labels),
                      stepColors := OmitEmpty(info.stepColors), stepWeights := OmitEmpty(stepWeights));
    }
    if plan.anchorChanged {
      patch := patch.(liveProgress := Some(true), startDate := Some(plan.anchor.start), endDate := Some(plan.anchor.end));
    } else if plan.clearLive {
      patch := patch.(liveProgress := Some(false));
    }
  }

  lemma AnchorChangeHasWindow(cfg: Config, run: Run, info: StepInfo, now: Time)
    ensures var plan := Decide(cfg, run, info, now); plan.anchorChanged ==> plan.anchor.Window?
  {
    hide LiveAnchor;
  }

  /** What the loop knows of a run besides its jobs: where the cache files it, and the stamps
      of the run as first detected and as the forge reports it at the end. */
  datatype About = About(key: SeedCache.Key, runId: int, detectedStart: Time, reportedStart: Time, created: Time, success: bool)

  /** The length filed: up to now since the attempt began - by the forge's last word, else as
      detected - or since the run was created where no start is known. */
  function RunLength(about: About, now: Time): int {
    if !IsZero(about.reportedStart) then now - about.reportedStart
    else if !IsZero(about.detectedStart) then now - about.detectedStart
    else if !IsZero(about.created) then now - about.created
    else 0
  }

  /** What a finished run leaves for the seed cache: its observed shape, what was measured
      when anything reads timings, its length and its outcome. */
  ghost function FiledBy(cfg: Config, jobs: seq<Job>, verdict: Verdict, about: About, now: Time, wantTimings: bool): Option<SeedCache.Put> {
    if Ends(cfg, jobs, verdict) then
      Some(SeedCache.Put(about.key,
        SeedCache.Seed(Scan(cfg, jobs), if wantTimings then Measured(jobs) else None, RunLength(about, now), about.runId, about.success)))
    else None
  }

  method FileSeed(cfg: Config, jobs: seq<ForgeJob>, observed: StepInfo, verdict: Verdict, about: About, now: Time, wantTimings: bool)
    returns (filed: Option<SeedCache.Put>)
    requires observed == Scan(cfg, GroupedAll(jobs)) && Ends(cfg, GroupedAll(jobs), verdict)
    ensures filed == FiledBy(cfg, GroupedAll(jobs), verdict, about, now, wantTimings)
  {
    hide Scan, Measured;
    var started := about.reportedStart;
    if IsZero(started) {
      started := about.detectedStart;
    }
    var weights: Option<ByName> := None;
    if wantTimings {
      weights := GroupWeights(jobs);
    }
    var length := 0;
    if !IsZero(started) {
      length := now - started;
    } else if !IsZero(about.created) {
      length := now - about.created;
    }
    return Some(SeedCache.Put(about.key, SeedCache.Seed(observed, weights, length, about.runId, about.success)));
  }

  lemma DroppingForgets(cfg: Config, c: Card)
    ensures Next(cfg, c, Forget) == c.(phase := Untracked, past := Retire(c))
  {
  }

  /** One repo's tracked entry and the activity its slug names. */
  class RepoCard {
    const activity: Activity
    var phase: Phase
    var maxTotalSteps: int
    var maxStepRows: seq<int>
    var maxStepLabels: seq<string>
    var maxStepColors: seq<string>
    var stepWeightByName: ByName
    var shapeSent: seq<string>
    var lastProgress: real
    var lastState: string
    var lastCurrentStep: int
    var lastTotalSteps: int
    var lastPatchAt: Time
    var liveStepName: string
    var liveSent: bool
    var lastUpdate: Time
    var trackedAt: Time
    ghost var owner: string
    ghost var past: set<Content>

    function Tracked(): Run
      reads this
    {
      Run(maxTotalSteps, maxStepRows, maxStepLabels, maxStepColors, stepWeightByName, shapeSent, lastProgress, lastState,
          lastCurrentStep, lastTotalSteps, lastPatchAt, liveStepName, liveSent)
    }

    ghost function View(): Card
      reads this, activity
    {
      Card(phase, Tracked(), activity.content, owner, past)
    }

    constructor ()
      ensures View() == START && fresh(activity)
    {
      activity := new Activity();
      phase := Untracked;
      maxTotalSteps, maxStepRows, maxStepLabels, maxStepColors := 0, [], [], [];
      stepWeightByName, shapeSent := map[], [];
      lastProgress, lastState, lastCurrentStep, lastTotalSteps, lastPatchAt := 0.0, "", 0, 0, 0;
      liveStepName, liveSent := "", false;
      lastUpdate, trackedAt := 0, 0;
      owner, past := "", {};
    }

    method ForgetSends(cfg: Config)
      modifies `shapeSent, `lastProgress, `lastState, `lastCurrentStep, `lastTotalSteps, `lastPatchAt, `liveStepName, `liveSent
      ensures shapeSent == [] && lastProgress == 0.0 && lastState == "" && lastCurrentStep == 0 && lastTotalSteps == 0
      ensures lastPatchAt == 0 && liveStepName == "" && liveSent == cfg.liveProgress
    {
      shapeSent := [];
      lastProgress, lastState, lastCurrentStep, lastTotalSteps, lastPatchAt := 0.0, "", 0, 0, 0;
      liveStepName, liveSent := "", cfg.liveProgress;
    }

    /** Takes a run off the card; its closing frame may still be sent by a callback that
        has fired. */
    method Drop()
      modifies `phase, `past
      ensures phase == Untracked
      ensures past == if old(phase).Ending? then old(past) + {old(phase).frame} else old(past)
    {
      if phase.Ending? {
        past := past + {phase.frame};
      }
      phase := Untracked;
    }

    method ForgetShape()
      modifies `maxTotalSteps, `maxStepRows, `maxStepLabels, `maxStepColors, `stepWeightByName
      ensures maxTotalSteps == 0 && maxStepRows == [] && maxStepLabels == [] && maxStepColors == [] && stepWeightByName == map[]
    {
      maxTotalSteps, maxStepRows, maxStepLabels, maxStepColors := 0, [], [], [];
      stepWeightByName := map[];
    }

    /** Puts a fresh record on screen. */
    method Track(cfg: Config, now: Time)
      modifies this
      ensures Tracked() == Fresh(cfg) && phase == OnScreen && owner == old(owner) && past == old(past)
      ensures lastUpdate == now && trackedAt == now
    {
      phase := OnScreen;
      lastUpdate, trackedAt := now, now;
      ForgetShape();
      ForgetSends(cfg);
    }

    /** Takes over the opening shape and durations. */
    method AdoptSeed(shape: StepInfo, weightsByName: ByName)
      modifies `maxTotalSteps, `maxStepRows, `maxStepLabels, `maxStepColors, `stepWeightByName
      ensures Tracked() == Seeded(old(Tracked()), shape, weightsByName)
    {
      maxTotalSteps := shape.totalSteps;
      maxStepRows := shape.stepRows;
      maxStepLabels := shape.stepLabels;
      maxStepColors := shape.stepColors;
      stepWeightByName := weightsByName;
    }

    /** pollIdle, once a new run is confirmed: supersede the pending end, create the
        activity, track the run, and seed it. A create that fails leaves the card empty. */
    method Detect(cfg: Config, scan: seq<ForgeJob>, base: Option<Baseline>, created: bool, now: Time, delivered: bool)
      requires Possible(View(), Event.Detect(GroupedAll(scan), base, delivered))
      modifies this, activity
      ensures created ==> View() == Next(cfg, old(View()), Event.Detect(GroupedAll(scan), base, delivered))
      ensures created ==> lastUpdate == now && trackedAt == now
      ensures !created ==> View() == if old(phase).Ending? then Next(cfg, old(View()), Forget) else old(View())
    {
      hide FullFrame, Merge, Valid, Scan, SeedShape, Fresh, Seeded;
      if phase.Ending? {
        Drop();
      }
      if !created {
        return;
      }
      activity.Create();
      Track(cfg, now);
      Seed(cfg, scan, base, delivered);
    }

    /** The opening frame, remembered only once it landed. */
    method Seed(cfg: Config, scan: seq<ForgeJob>, base: Option<Baseline>, delivered: bool)
      requires activity.content == EMPTY
      modifies `maxTotalSteps, `maxStepRows, `maxStepLabels, `maxStepColors, `stepWeightByName, `shapeSent, activity
      ensures var shape := SeedShape(cfg, GroupedAll(scan), base);
        var byName := if base.Some? then base.value.weights else map[];
        var run := Seeded(old(Tracked()), shape, byName); var frame := SeedFrame(cfg, shape, byName);
        && Tracked() == (if Landed(EMPTY, frame, delivered) then run.(shapeSent := shape.stepLabels) else run)
        && activity.content == Apply(EMPTY, frame, delivered)
    {
      hide FullFrame, Merge, Valid, Scan, SeedShape, Seeded;
      var shape := ChooseShape(cfg, scan, base);
      var weightsByName: ByName := if base.Some? then base.value.weights else map[];
      AdoptSeed(shape, weightsByName);
      var frame := BuildFullFrame(cfg, shape, weightsByName, 0, 0.0, "Starting...");
      if delivered {
        var accepted := activity.Patch(frame);
        if accepted {
          shapeSent := shape.stepLabels;
        }
      }
    }

    /** The clamp at the top of a tick. */
    method AdoptScan(scanned: StepInfo) returns (info: StepInfo)
      modifies this
      ensures (Tracked(), info) == Adopt(old(Tracked()), scanned)
      ensures phase == old(phase) && owner == old(owner) && past == old(past)
    {
      info := scanned;
      if info.totalSteps > maxTotalSteps || (info.totalSteps == maxTotalSteps && info.stepLabels != maxStepLabels) {
        maxTotalSteps := info.totalSteps;
        maxStepRows := info.stepRows;
        maxStepLabels := info.stepLabels;
        maxStepColors := info.stepColors;
      } else if info.totalSteps < maxTotalSteps {
        info := info.(currentStep := RealignStep(info.currentStep, info.stepLabels, maxStepLabels));
        info := info.(totalSteps := maxTotalSteps, stepRows := maxStepRows, stepLabels := maxStepLabels,
                      stepColors := maxStepColors);
      }
    }

    method RememberScalars(info: StepInfo, now: Time)
      modifies `lastProgress, `lastState, `lastCurrentStep, `lastTotalSteps, `lastPatchAt
      ensures lastProgress == info.progress && lastState == info.currentStepName && lastCurrentStep == info.currentStep
      ensures lastTotalSteps == info.totalSteps && lastPatchAt == now
    {
      lastProgress := info.progress;
      lastState := info.currentStepName;
      lastCurrentStep := info.currentStep;
      lastTotalSteps := info.totalSteps;
      lastPatchAt := now;
    }

    /** Promotes what a landed frame said. */
    method Remember(info: StepInfo, plan: Plan, now: Time)
      modifies this
      ensures Tracked() == Promote(old(Tracked()), info, plan, now)
      ensures phase == old(phase) && past == old(past)
      ensures owner == if plan.anchorChanged then info.currentStepName else old(owner)
    {
      if plan.shapeChanged {
        shapeSent := maxStepLabels;
      }
      RememberScalars(info, now);
      if plan.anchorChanged {
        liveStepName := info.currentStepName;
        liveSent := true;
        owner := info.currentStepName;
      } else if plan.clearLive {
        liveStepName := "";
        liveSent := false;
      }
    }

    /** The end of a tick: send what changed, and remember it only once it landed. */
    method SendTick(cfg: Config, info: StepInfo, now: Time, delivered: bool)
      modifies this, activity
      ensures var run := old(Tracked()); var plan := Decide(cfg, run, info, now);
        var frame := TickFrame(cfg, run, info, plan); var server := old(activity.content);
        var landed := plan.Sends() && Landed(server, frame, delivered);
        && phase == old(phase) && past == old(past)
        && Tracked() == (if landed then Promote(run, info, plan, now) else run)
        && activity.content == (if plan.Sends() then Apply(server, frame, delivered) else server)
        && owner == (if landed && plan.anchorChanged then info.currentStepName else old(owner))
    {
      hide Tracked, TickFrame, Decide, Merge, Valid, Promote;
      var plan := ComputePlan(cfg, Tracked(), info, now);
      if !plan.shapeChanged && !plan.scalarChanged && !plan.heartbeatDue && !plan.anchorChanged && !plan.clearLive {
        return;
      }
      AnchorChangeHasWindow(cfg, Tracked(), info, now);
      var patch := BuildTickFrame(cfg, Tracked(), info, plan);
      if !delivered {
        return;
      }
      var accepted := activity.Patch(patch);
      if accepted {
        Remember(info, plan, now);
      }
    }

    /** The eviction guards: no jobs for longer than the stale time, or tracked for longer
        than any run may live. */
    predicate Evicted(now: Time, staleAfter: int)
      reads `lastUpdate, `trackedAt
    {
      (!IsZero(lastUpdate) && now - lastUpdate > staleAfter) || (!IsZero(trackedAt) && now - trackedAt > MAX_RUN_LIFETIME)
    }

    /** pollActive on a run on screen: evict it, or read its jobs - which may fail, or find
        none yet - and tick. A run that ended is filed for the next one. */
    method PollActive(cfg: Config, jobs: Option<seq<ForgeJob>>, verdict: Verdict, about: About, now: Time, staleAfter: int,
                      wantTimings: bool, delivered: bool) returns (filed: Option<SeedCache.Put>)
      requires phase == OnScreen
      modifies this, activity
      ensures var gone := (old(lastUpdate) > 0 && now - old(lastUpdate) > staleAfter)
          || (old(trackedAt) > 0 && now - old(trackedAt) > 12 * 3600 * SECOND);
        && (gone ==> View() == Next(cfg, old(View()), Forget) && filed == None)
        && (!gone && jobs.GetOr([]) == [] ==> View() == old(View()) && filed == None)
        && (!gone && jobs.GetOr([]) != [] ==>
          && View() == Next(cfg, old(View()), Tick(GroupedAll(jobs.value), verdict, now, delivered))
          && lastUpdate == now && filed == FiledBy(cfg, GroupedAll(jobs.value), verdict, about, now, wantTimings))
    {
      hide Next, FiledBy;
      DroppingForgets(cfg, View());
      if Evicted(now, staleAfter) {
        Drop();
        return None;
      }
      if jobs.None? || |jobs.value| == 0 {
        return None;
      }
      filed := TickOnce(cfg, jobs.value, verdict, about, now, wantTimings, delivered);
      lastUpdate := now;
    }

    method TickOnce(cfg: Config, jobs: seq<ForgeJob>, verdict: Verdict, about: About, now: Time, wantTimings: bool, delivered: bool)
      returns (filed: Option<SeedCache.Put>)
      requires Possible(View(), Tick(GroupedAll(jobs), verdict, now, delivered))
      modifies this, activity
      ensures View() == Next(cfg, old(View()), Tick(GroupedAll(jobs), verdict, now, delivered))
      ensures filed == FiledBy(cfg, GroupedAll(jobs), verdict, about, now, wantTimings)
    {
      hide Scan, Adopt, TickFrame, Decide, Merge, Valid, BetweenWaves, FullFrame, Promote, Measured;
      var observed := ScanJobs(cfg, jobs);
      ghost var before := Tracked();
      var info := AdoptScan(observed);
      AdoptKeepsCompletion(before, observed);
      if info.allCompleted {
        if verdict.Over? {
          filed := FileSeed(cfg, jobs, observed, verdict, about, now, wantTimings);
          var frame := BuildFullFrame(cfg, info, stepWeightByName, info.totalSteps, 1.0, verdict.state);
          phase := Ending(frame);
          return;
        }
        info := ComputeBetweenWaves(info, observed, lastProgress);
      }
      SendTick(cfg, info, now, delivered);
      filed := None;
    }

    /** Either phase of the end. */
    method SendClosing(cfg: Config, delivered: bool)
      requires phase.Ending?
      modifies activity
      ensures View() == Next(cfg, old(View()), ClosingFrame(delivered))
    {
      if delivered {
        var accepted := activity.Patch(phase.frame);
      }
    }
  }

  lemma AdoptKeepsCompletion(run: Run, info: StepInfo)
    ensures Adopt(run, info).1.allCompleted == info.allCompleted
  {
  }
}
