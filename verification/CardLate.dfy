/** The card with late frames in its runs: a closing frame of a superseded run, sent by a
    callback that had fired before the supersession, can land on the new run's card. When
    the stored total then falls, and what the next tick still shows. */
module CardLate {
  import opened Prelude
  import opened Clock
  import opened Steps
  import opened Pills
  import opened Server
  import opened Poller
  import opened Card
  import opened CardSync
  import opened CardShows

  // ---------- What is stored, late frames included ----------

  /** A ladder with everything on it, as a closing frame leaves it. */
  ghost predicate WholeStored(server: Content) {
    && server.template == Some(TEMPLATE_STEPS) && server.totalSteps.Some?
    && ArraysFit(server, server.totalSteps.value) && server.stepRows.Some?
  }

  /** What is stored is what the run's ticks rely on, or a late frame's whole ladder. */
  ghost predicate OwnOrLate(c: Card) {
    c.phase == OnScreen ==> InSync(c.run, c.server) || WholeStored(c.server)
  }

  lemma LateFrameIsWhole(cfg: Config, c: Card, frame: Content)
    requires Inv(cfg, c) && IsClosing(cfg, frame) && Valid(Merge(c.server, frame))
    ensures WholeStored(Merge(c.server, frame))
  {
    var n :| WholeLadder(cfg, frame, n);
    LateFrameArrays(cfg, c, frame, n);
    hide Valid, ArraysFit, WindowStored, OptionsOnly, RunOk;
  }

  /** A tick on a late ladder is accepted exactly when it re-sends its own, or the late one
      has the same length. */
  lemma TickOnLateLadder(cfg: Config, c: Card, jobs: seq<Job>, now: Time)
    requires Inv(cfg, c) && c.phase == OnScreen && WholeStored(c.server) && jobs != []
    ensures var (run, info) := Shown(cfg, c.run, jobs); var plan := Decide(cfg, run, info, now);
      Valid(Merge(c.server, TickFrame(cfg, run, info, plan))) <==>
        WireSafe(info, plan) && (plan.shapeChanged || c.server.totalSteps == Some(info.totalSteps))
  {
    ShownOk(cfg, c.run, jobs);
    hide Scan, Shown, Decide, TickFrame, Merge, Valid, WireSafe, ArraysFit, ShapeOk, RunOk, WindowStored, OptionsOnly;
    var (run, info) := Shown(cfg, c.run, jobs);
    TickOnLadderOf(cfg, run, info, now, c.server, c.server.totalSteps.value);
  }

  /** And once it is accepted the ladder stored is the run's own again. */
  lemma AcceptedTickRestores(cfg: Config, c: Card, jobs: seq<Job>, now: Time)
    requires Inv(cfg, c) && c.phase == OnScreen && WholeStored(c.server) && jobs != []
    requires var (run, info) := Shown(cfg, c.run, jobs); var plan := Decide(cfg, run, info, now);
      Valid(Merge(c.server, TickFrame(cfg, run, info, plan)))
    ensures var (run, info) := Shown(cfg, c.run, jobs); var plan := Decide(cfg, run, info, now);
      InSync(Promote(run, info, plan, now), Merge(c.server, TickFrame(cfg, run, info, plan)))
  {
    TickOnLateLadder(cfg, c, jobs, now);
    ShownOk(cfg, c.run, jobs);
    var (run, info) := Shown(cfg, c.run, jobs);
    var plan := Decide(cfg, run, info, now);
    LabelsAreTotal(cfg, info.totalSteps, info.stepRows, info.stepLabels, info.stepColors);
    UnsentMeansKnown(cfg, run, info, now);
    TickScalars(cfg, run, info, plan, c.server);
    hide Scan, Shown, Decide, TickFrame, Merge, ArraysFit, WireSafe, WindowStored, OptionsOnly, RunOk, ShapeOk, WindowValid;
  }

  lemma UnsentMeansKnown(cfg: Config, run: Run, info: StepInfo, now: Time)
    ensures !Decide(cfg, run, info, now).shapeChanged ==> run.shapeSent == run.maxStepLabels
  {
  }

  lemma TickKeepsOwnOrLate(cfg: Config, c: Card, jobs: seq<Job>, verdict: Verdict, now: Time, delivered: bool)
    requires Inv(cfg, c) && OwnOrLate(c) && c.phase == OnScreen && jobs != []
    ensures OwnOrLate(TickStep(cfg, c, jobs, verdict, now, delivered))
  {
    if InSync(c.run, c.server) {
      TickSynced(cfg, c, jobs, verdict, now, delivered);
      hide Scan, Shown, Adopt, TickFrame, Merge, Valid, StepsValid, Decide, EndFrame, InSync, ArraysFit;
    } else if !Ends(cfg, jobs, verdict) {
      LateTickStep(cfg, c, jobs, verdict, now, delivered);
    }
  }

  lemma LateTickStep(cfg: Config, c: Card, jobs: seq<Job>, verdict: Verdict, now: Time, delivered: bool)
    requires Inv(cfg, c) && c.phase == OnScreen && WholeStored(c.server) && jobs != [] && !Ends(cfg, jobs, verdict)
    ensures OwnOrLate(TickStep(cfg, c, jobs, verdict, now, delivered))
  {
    hide Scan, Shown, Decide, TickFrame, Merge, Valid, InSync, WholeStored, Promote, Inv;
    var (run, info) := Shown(cfg, c.run, jobs);
    var plan := Decide(cfg, run, info, now);
    if plan.Sends() && Landed(c.server, TickFrame(cfg, run, info, plan), delivered) {
      AcceptedTickRestores(cfg, c, jobs, now);
    }
  }

  lemma NextKeepsOwnOrLate(cfg: Config, c: Card, e: Event)
    requires Inv(cfg, c) && OwnOrLate(c)
    ensures OwnOrLate(Next(cfg, c, e))
  {
    hide DetectStep, TickStep, Apply, WholeStored, InSync, Valid, IsClosing, RunOk, WindowStored, OptionsOnly, BeliefCovers, Merge;
    if Possible(c, e) {
      match e
      case Detect(scan, base, delivered) =>
        DetectSynced(cfg, c, scan, base, delivered);
        DetectedIsOnScreen(cfg, c, scan, base, delivered);
      case Tick(jobs, verdict, now, delivered) => TickKeepsOwnOrLate(cfg, c, jobs, verdict, now, delivered);
      case Stale(frame) =>
        if Valid(Merge(c.server, frame)) { LateFrameIsWhole(cfg, c, frame); }
      case _ =>
    }
  }

  lemma {:induction false} EveryRunIsOwnOrLate(cfg: Config, events: seq<Event>)
    ensures OwnOrLate(After(cfg, events))
  {
    if events != [] {
      var before := events[..|events| - 1];
      EveryRunIsOwnOrLate(cfg, before);
      EveryRunKeepsInv(cfg, before);
      hide Inv, OwnOrLate, Next;
      NextKeepsOwnOrLate(cfg, After(cfg, before), events[|events| - 1]);
    }
  }

  // ---------- When the stored total falls ----------

  ghost predicate StateFits(frame: Content) { frame.state.Some? ==> |frame.state.value| <= MAX_STATE_RUNES }

  /** A closing frame with fewer steps than stored, or a delivered tick that re-sends a
      ladder shorter than the stored one. */
  ghost predicate LowersTotal(cfg: Config, c: Card, e: Event) {
    match e
    case Tick(jobs, verdict, now, delivered) =>
      var (run, info) := Shown(cfg, c.run, jobs); var plan := Decide(cfg, run, info, now);
      && delivered && !Ends(cfg, jobs, verdict) && WireSafe(info, plan)
      && plan.shapeChanged && run.maxTotalSteps < StoredTotal(c.server)
    case ClosingFrame(delivered) =>
      && c.phase.Ending? && delivered && StateFits(c.phase.frame)
      && c.phase.frame.totalSteps.Some? && c.phase.frame.totalSteps.value < StoredTotal(c.server)
    case Stale(frame) =>
      StateFits(frame) && frame.totalSteps.Some? && frame.totalSteps.value < StoredTotal(c.server)
    case _ => false
  }

  lemma TickLowersTotal(cfg: Config, c: Card, jobs: seq<Job>, verdict: Verdict, now: Time, delivered: bool)
    requires Inv(cfg, c) && OwnOrLate(c) && c.phase == OnScreen && jobs != []
    ensures StoredTotal(TickStep(cfg, c, jobs, verdict, now, delivered).server) < StoredTotal(c.server) <==>
      LowersTotal(cfg, c, Tick(jobs, verdict, now, delivered))
  {
    ShownOk(cfg, c.run, jobs);
    var (run, info) := Shown(cfg, c.run, jobs);
    var plan := Decide(cfg, run, info, now);
    TickScalars(cfg, run, info, plan, c.server);
    if InSync(c.run, c.server) {
      hide Scan, Shown, Decide, TickFrame, Merge, Valid, ArraysFit, WireSafe, WindowStored, OptionsOnly, RunOk, ShapeOk;
    } else {
      TickOnLateLadder(cfg, c, jobs, now);
      hide Scan, Shown, Decide, TickFrame, Merge, Valid, ArraysFit, WireSafe, WindowStored, OptionsOnly, RunOk, ShapeOk, InSync;
    }
  }

  lemma ClosingLowersTotal(cfg: Config, c: Card, frame: Content, delivered: bool)
    requires Inv(cfg, c) && IsClosing(cfg, frame)
    ensures frame.totalSteps.Some?
    ensures StoredTotal(Apply(c.server, frame, delivered)) < StoredTotal(c.server) <==>
      delivered && StateFits(frame) && frame.totalSteps.value < StoredTotal(c.server)
  {
    var n :| WholeLadder(cfg, frame, n);
    ClosingAccepted(cfg, c.server, frame, n);
    hide Valid, ArraysFit, FullArrays, WindowStored, OptionsOnly, RunOk, StepsValid;
  }

  /** After any run at all, an event other than a new detection lowers the stored total in
      exactly these cases; so it falls only through a late frame, or a tick or closing frame
      that follows one with more steps. */
  lemma WhenTheTotalFalls(cfg: Config, events: seq<Event>, e: Event)
    requires var c := After(cfg, events); Possible(c, e) && !e.Detect?
    ensures var c := After(cfg, events);
      StoredTotal(Next(cfg, c, e).server) < StoredTotal(c.server) <==> LowersTotal(cfg, c, e)
  {
    EveryRunKeepsInv(cfg, events);
    EveryRunIsOwnOrLate(cfg, events);
    var c := After(cfg, events);
    match e
    case Tick(jobs, verdict, now, delivered) =>
      hide After, Inv, OwnOrLate, TickStep, LowersTotal, Ends;
      TickLowersTotal(cfg, c, jobs, verdict, now, delivered);
    case ClosingFrame(delivered) =>
      hide After, Apply, Valid, RunOk, IsClosing;
      ClosingLowersTotal(cfg, c, c.phase.frame, delivered);
    case Stale(frame) =>
      hide After, Apply, Patched, Valid, RunOk, IsClosing;
      ClosingLowersTotal(cfg, c, frame, true);
      StaleIsDelivered(c.server, frame);
    case Forget =>
      hide After;
  }

  // ---------- What a tick shows, late frames included ----------

  /** What the last frames to land said: the scalars, and the rows and labels of a ladder.
      Ticks say what they were computed from; closing frames, late or not, bring their own. */
  datatype Said = Said(
    progress: Option<real>,
    state: Option<string>,
    currentStep: Option<int>,
    totalSteps: Option<int>,
    stepRows: Option<seq<int>>,
    stepLabels: Option<seq<string>>)

  const NOTHING: Said := Said(None, None, None, None, None, None)

  ghost function SaidBySeed(shape: StepInfo): Said {
    Said(Some(0.0), Some("Starting..."), Some(0), Some(shape.totalSteps),
         OmitEmpty(ClampRows(shape.stepRows)), OmitEmpty(ClampLabels(shape.stepLabels)))
  }

  ghost function SaidByTick(said: Said, info: StepInfo, resent: bool): Said {
    Said(Some(info.progress), Some(info.currentStepName), Some(info.currentStep), Some(info.totalSteps),
         if resent then Some(ClampRows(info.stepRows)) else said.stepRows,
         if resent then Some(ClampLabels(info.stepLabels)) else said.stepLabels)
  }

  /** A closing frame is whole; only an empty state line is left off. */
  ghost function SaidByFrame(said: Said, frame: Content): Said {
    Said(frame.progress, if frame.state.Some? then frame.state else said.state, frame.currentStep, frame.totalSteps,
         frame.stepRows, frame.stepLabels)
  }

  ghost function SaidAfter(cfg: Config, c: Card, e: Event, said: Said): Said {
    if !Possible(c, e) then said
    else match e
      case Detect(scan, base, delivered) => if delivered then SaidBySeed(SeedShape(cfg, scan, base)) else NOTHING
      case Tick(jobs, verdict, now, delivered) =>
        var (run, info) := Shown(cfg, c.run, jobs); var plan := Decide(cfg, run, info, now);
        if !Ends(cfg, jobs, verdict) && plan.Sends() && Landed(c.server, TickFrame(cfg, run, info, plan), delivered)
        then SaidByTick(said, info, plan.shapeChanged) else said
      case ClosingFrame(delivered) => if Landed(c.server, c.phase.frame, delivered) then SaidByFrame(said, c.phase.frame) else said
      case Forget => said
      case Stale(frame) => if Landed(c.server, frame, true) then SaidByFrame(said, frame) else said
  }

  ghost function LastSaid(cfg: Config, events: seq<Event>): Said {
    if events == [] then NOTHING
    else
      var before, e := events[..|events| - 1], events[|events| - 1];
      SaidAfter(cfg, After(cfg, before), e, LastSaid(cfg, before))
  }

  ghost predicate Holds(server: Content, said: Said) {
    && server.progress == said.progress && server.state == said.state
    && server.currentStep == said.currentStep && server.totalSteps == said.totalSteps
    && server.stepRows == said.stepRows && server.stepLabels == said.stepLabels
  }

  lemma SeedSays(cfg: Config, shape: StepInfo, byName: map<string, real>)
    ensures Holds(Merge(EMPTY, SeedFrame(cfg, shape, byName)), SaidBySeed(shape))
  {
    hide ClampRows, ClampLabels, PayloadWeights;
  }

  lemma DetectSays(cfg: Config, c: Card, scan: seq<Job>, base: Option<Baseline>, delivered: bool)
    requires Possible(c, Detect(scan, base, delivered))
    ensures Holds(DetectStep(cfg, c, scan, base, delivered).server,
                  if delivered then SaidBySeed(SeedShape(cfg, scan, base)) else NOTHING)
  {
    DetectSynced(cfg, c, scan, base, delivered);
    SeedSays(cfg, SeedShape(cfg, scan, base), if base.Some? then base.value.weights else map[]);
    hide SeedShape, SeedFrame, Merge, Valid, SaidBySeed, Seeded, Synced;
  }

  lemma TickSays(cfg: Config, run: Run, info: StepInfo, now: Time, server: Content, said: Said)
    requires Holds(server, said) && |info.stepRows| > 0 && |info.stepLabels| > 0
    ensures var plan := Decide(cfg, run, info, now);
      && Holds(Merge(server, TickFrame(cfg, run, info, plan)), SaidByTick(said, info, plan.shapeChanged))
      && (plan.shapeChanged ==> plan.Sends())
  {
    hide LiveAnchor, PayloadWeights;
  }

  lemma ShownIsWhole(cfg: Config, c: Card, jobs: seq<Job>)
    requires Inv(cfg, c) && c.phase == OnScreen && jobs != []
    ensures var info := Shown(cfg, c.run, jobs).1; |info.stepRows| > 0 && |info.stepLabels| > 0
  {
    ShownOk(cfg, c.run, jobs) by { OnScreenRunOk(cfg, c); }
    var info := Shown(cfg, c.run, jobs).1;
    LabelledHasRows(cfg, info.totalSteps, info.stepRows, info.stepLabels, info.stepColors);
    hide Shown, Inv, RunOk, ShapeOk;
  }

  lemma ClosingSays(cfg: Config, server: Content, frame: Content, delivered: bool, said: Said)
    requires IsClosing(cfg, frame) && Holds(server, said)
    ensures Holds(Apply(server, frame, delivered), if Landed(server, frame, delivered) then SaidByFrame(said, frame) else said)
  {
    var n :| WholeLadder(cfg, frame, n);
    hide Valid, ArraysFit;
  }

  lemma NextSays(cfg: Config, c: Card, e: Event, said: Said)
    requires Inv(cfg, c) && Holds(c.server, said)
    ensures Holds(Next(cfg, c, e).server, SaidAfter(cfg, c, e, said))
  {
    hide DetectStep, Apply, Valid, Merge, Holds, RunOk, IsClosing, WindowStored, OptionsOnly, BeliefCovers, SaidByFrame, SaidBySeed,
      SaidByTick, Shown, Decide, TickFrame, EndFrame, Promote;
    if Possible(c, e) {
      match e
      case Detect(scan, base, delivered) => DetectSays(cfg, c, scan, base, delivered);
      case Tick(jobs, verdict, now, delivered) => TickStepSays(cfg, c, jobs, verdict, now, delivered, said);
      case ClosingFrame(delivered) => ClosingSays(cfg, c.server, c.phase.frame, delivered, said);
      case Forget =>
      case Stale(frame) =>
        ClosingSays(cfg, c.server, frame, true, said);
        StaleIsDelivered(c.server, frame);
    }
  }

  lemma TickStepSays(cfg: Config, c: Card, jobs: seq<Job>, verdict: Verdict, now: Time, delivered: bool, said: Said)
    requires Inv(cfg, c) && Holds(c.server, said) && c.phase == OnScreen && jobs != []
    ensures Holds(TickStep(cfg, c, jobs, verdict, now, delivered).server,
                  SaidAfter(cfg, c, Tick(jobs, verdict, now, delivered), said))
  {
    ShownIsWhole(cfg, c, jobs);
    var (run, info) := Shown(cfg, c.run, jobs);
    hide Inv, Shown, Scan, Decide, TickFrame, Merge, Valid, Holds, SaidByTick, Promote, EndFrame, Adopt;
    TickSays(cfg, run, info, now, c.server, said);
  }

  /** In every run, late frames included, the server holds what was last said to it. */
  lemma {:induction false} EveryRunKeepsWhatWasSaid(cfg: Config, events: seq<Event>)
    ensures Holds(After(cfg, events).server, LastSaid(cfg, events))
  {
    if events != [] {
      var before := events[..|events| - 1];
      EveryRunKeepsWhatWasSaid(cfg, before);
      EveryRunKeepsInv(cfg, before);
      hide Inv, Holds, SaidAfter, Next;
      NextSays(cfg, After(cfg, before), events[|events| - 1], LastSaid(cfg, before));
    }
  }

  ghost predicate ScalarsSaid(said: Said, info: StepInfo) {
    && said.progress == Some(info.progress) && said.state == Some(info.currentStepName)
    && said.currentStep == Some(info.currentStep) && said.totalSteps == Some(info.totalSteps)
  }

  /** After any run at all, a tick that lands or has nothing to send shows its scalars exactly
      when it sends, or the last frame to land happened to say the same; and its labels and
      its rows exactly when it re-sends the ladder, or those of the last ladder to land clamp
      to the same. Right after a late frame that is the late frame, and it stays so until a
      tick of the run on screen sends. */
  lemma WhenATickIsShown(cfg: Config, events: seq<Event>, jobs: seq<Job>, verdict: Verdict, now: Time, delivered: bool)
    requires After(cfg, events).phase == OnScreen && jobs != [] && !Ends(cfg, jobs, verdict)
    requires var c := After(cfg, events); var (run, info) := Shown(cfg, c.run, jobs); var plan := Decide(cfg, run, info, now);
      !plan.Sends() || Landed(c.server, TickFrame(cfg, run, info, plan), delivered)
    ensures var c := After(cfg, events); var (run, info) := Shown(cfg, c.run, jobs); var plan := Decide(cfg, run, info, now);
      var shown := Next(cfg, c, Tick(jobs, verdict, now, delivered)).server; var said := LastSaid(cfg, events);
      && (ScalarsAre(shown, info.progress, info.currentStepName, info.currentStep, info.totalSteps) <==>
            plan.Sends() || ScalarsSaid(said, info))
      && (shown.stepLabels == Some(ClampLabels(info.stepLabels)) <==>
            plan.shapeChanged || said.stepLabels == Some(ClampLabels(info.stepLabels)))
      && (shown.stepRows == Some(ClampRows(info.stepRows)) <==>
            plan.shapeChanged || said.stepRows == Some(ClampRows(info.stepRows)))
  {
    EveryRunKeepsInv(cfg, events);
    EveryRunKeepsWhatWasSaid(cfg, events);
    var c := After(cfg, events);
    var said := LastSaid(cfg, events);
    ShownIsWhole(cfg, c, jobs);
    var (run, info) := Shown(cfg, c.run, jobs);
    hide After, LastSaid, Inv, Scan, Shown, Decide, TickFrame, Valid, Merge, Ends, Promote, EndFrame, Adopt, ClampLabels, ClampRows;
    TickSays(cfg, run, info, now, c.server, said);
  }

  /** A late frame is such a frame: it is what was last said once it has landed. */
  lemma ALateFrameIsTheLastWord(cfg: Config, events: seq<Event>, frame: Content)
    requires var c := After(cfg, events); frame in c.past && Valid(Merge(c.server, frame))
    ensures var said := LastSaid(cfg, events + [Stale(frame)]);
      && said.progress == frame.progress && said.currentStep == frame.currentStep && said.totalSteps == frame.totalSteps
      && said.state == frame.state.Or(LastSaid(cfg, events).state)
      && said.stepRows == frame.stepRows && said.stepLabels == frame.stepLabels
  {
    hide After, Valid, Merge;
    assert (events + [Stale(frame)])[..|events|] == events;
  }

  // ---------- A run in which both happen ----------

  const OTHER_JOBS: seq<Job> := [Job("d", InProgress, Unknown, 0, 0)]

  lemma OneLabel(jobs: seq<Job>)
    requires |jobs| == 1
    ensures Labels(jobs) == [jobs[0].group]
  {
    assert jobs[..0] == [];
    assert Labels(jobs[..0]) == [];
  }

  lemma OneShard(jobs: seq<Job>)
    requires |jobs| == 1
    ensures Shards(jobs, jobs[0].group) == jobs
  {
    assert jobs[..0] == [];
    assert Shards(jobs[..0], jobs[0].group) == [];
  }

  lemma OneStart(jobs: seq<Job>)
    requires |jobs| == 1 && jobs[0].status == InProgress
    ensures Finished(jobs) == 0 && FirstStart(jobs) == jobs[0].startedAt && !AllCompleted(jobs)
  {
    assert jobs[..0] == [] && jobs[0] in jobs;
    assert Finished(jobs[..0]) == 0 && FirstStart(jobs[..0]) == 0;
  }

  lemma OneJobGroup(job: Job)
    requires job.status == InProgress && job.group != ""
    ensures Labels([job]) == [job.group] && Shards([job], job.group) == [job]
    ensures Finished([job]) == 0 && FirstStart([job]) == job.startedAt && !AllCompleted([job])
  {
    hide Labels, Shards, Finished, FirstStart, AllCompleted;
    OneLabel([job]);
    OneShard([job]);
    OneStart([job]);
  }

  lemma OneJobRuns(job: Job)
    requires job.status == InProgress && job.group != ""
    ensures FirstRunning([job]) == Some(0)
  {
    OneJobGroup(job);
    hide Labels, Shards, Finished, FirstStart;
    FirstRunningMeans([job]);
    assert job in [job];
    assert GroupRuns([job], job.group);
    hide FirstRunning;
    assert forall n :: n in [job.group] <==> n == job.group;
  }

  lemma OneJobScan(cfg: Config, job: Job)
    requires job.status == InProgress && job.group != ""
    ensures var i := Scan(cfg, [job]);
      && i.totalSteps == 1 && i.stepLabels == [job.group] && i.currentStepName == job.group && i.currentStep == 1
      && i.currentStepStartedAt == job.startedAt && !i.allCompleted && i.progress == 0.0
  {
    OneJobGroup(job);
    OneJobRuns(job);
    hide Labels, Shards, Finished, FirstStart, FirstRunning, FirstUnfinished, AllCompleted, AnyJobFailed;
  }

  // The race once more: a two-group run is superseded by a one-group run, a tick of which
  // lands before the old run's closing frame does.

  const TICK_NEW: Event := Tick(NEW_JOBS, StillGoing, 5, true)

  const RACE: seq<Event> := [DETECT_OLD, FINISH_OLD, DETECT_NEW]

  lemma AfterOneMore(cfg: Config, events: seq<Event>, e: Event)
    ensures After(cfg, events + [e]) == Next(cfg, After(cfg, events), e)
  {
    hide Next;
    assert (events + [e])[..|events|] == events;
  }

  ghost predicate NewRunCarded(c: Card) {
    && c.phase == OnScreen && OldFrame() in c.past
    && c.run.maxTotalSteps == 1 && c.run.maxStepLabels == ["c"] && c.run.shapeSent == ["c"]
  }

  lemma NewRunLabels()
    ensures var run := Reseeded().run; run.maxStepLabels == ["c"] && IsZero(run.lastPatchAt) && !run.liveSent
  {
    ConcreteScans();
    hide Scan, SeedFrame, Apply, Valid, Merge, Ended;
    OldRunEnds();
  }

  lemma RaceReached()
    ensures var c := After(PLAIN, RACE); NewRunCarded(c) && IsZero(c.run.lastPatchAt) && !c.run.liveSent && NoLateFrame(RACE)
  {
    RaceIsAfter();
    NewRunSeeded();
    NewRunLabels();
    hide After, Reseeded, OldFrame;
  }

  /** What a tick of the one-group run shows, whatever it is tracked on. */
  lemma OneGroupShown(run: Run, jobs: seq<Job>)
    requires |jobs| == 1 && jobs[0].status == InProgress && jobs[0].group != "" && run.maxTotalSteps == 1
    ensures var (run', info) := Shown(PLAIN, run, jobs);
      && run' == run.(maxStepLabels := run'.maxStepLabels, maxStepRows := run'.maxStepRows, maxStepColors := run'.maxStepColors)
      && run'.maxStepLabels == [jobs[0].group] == info.stepLabels
      && info.totalSteps == 1 && info.currentStepName == jobs[0].group && info.currentStep == 1 && info.progress == 0.0
  {
    assert jobs == [jobs[0]];
    OneJobScan(PLAIN, jobs[0]);
    hide Scan;
  }

  /** The late frame lands, with the two steps and the state of the old run. */
  lemma OldFrameLands(c: Card)
    requires Inv(PLAIN, c) && NewRunCarded(c)
    ensures var late := Next(PLAIN, c, Stale(OldFrame()));
      && late == c.(server := Merge(c.server, OldFrame())) && WholeStored(late.server)
      && late.server.state == Some("done") && late.server.totalSteps == Some(2)
  {
    OldFrameIsWhole();
    hide OldFrame, WholeLadder, RunOk, WindowStored, OptionsOnly, ArraysFit;
    ClosingAccepted(PLAIN, c.server, OldFrame(), 2);
    LateFrameIsWhole(PLAIN, c, OldFrame());
    hide Valid;
  }

  /** The total falls: the late ladder has two steps, and the next tick, whose only group is
      a new one, re-sends a ladder of one. */
  lemma ALateFrameLetsTheTotalFall()
    ensures var late := After(PLAIN, RACE + [Stale(OldFrame())]);
      StoredTotal(late.server) == 2 && StoredTotal(Next(PLAIN, late, Tick(OTHER_JOBS, StillGoing, 5, true)).server) == 1
  {
    RaceReached();
    EveryRunKeepsInv(PLAIN, RACE);
    var c := After(PLAIN, RACE);
    AfterOneMore(PLAIN, RACE, Stale(OldFrame()));
    OldFrameLands(c);
    var late := Next(PLAIN, c, Stale(OldFrame()));
    NextKeepsInv(PLAIN, c, Stale(OldFrame()));
    hide After, Next, Inv, OldFrame;
    NewGroupIsShorter(late);
  }

  lemma NewGroupIsShorter(late: Card)
    requires Inv(PLAIN, late) && NewRunCarded(late) && WholeStored(late.server) && late.server.totalSteps == Some(2)
    ensures StoredTotal(Next(PLAIN, late, Tick(OTHER_JOBS, StillGoing, 5, true)).server) == 1
  {
    OneGroupShown(late.run, OTHER_JOBS);
    var (run, info) := Shown(PLAIN, late.run, OTHER_JOBS);
    TickOnLateLadder(PLAIN, late, OTHER_JOBS, 5);
    NoWindowNoWorry(run, info, 5);
    RelabelResends(run, info);
    hide Shown, OldFrame, Decide, TickFrame, Merge, Valid, WireSafe, WholeStored, Inv;
    TickScalars(PLAIN, run, info, Decide(PLAIN, run, info, 5), late.server);
  }

  lemma RelabelResends(run: Run, info: StepInfo)
    requires run.shapeSent == ["c"] && run.maxStepLabels == ["d"]
    ensures var plan := Decide(PLAIN, run, info, 5); plan.shapeChanged && plan.Sends()
  {
    assert ["c"][0] != ["d"][0];
    hide LiveAnchor;
  }

  /** The new run's tick as the loop remembers it once it has landed. */
  ghost predicate NewTickKnown(run: Run) {
    && run.lastPatchAt == 5 && run.lastState == "c" && run.lastProgress == 0.0
    && run.lastCurrentStep == 1 && run.lastTotalSteps == 1 && !run.liveSent
  }

  lemma PlainPlan(run: Run, info: StepInfo, now: Time)
    requires !run.liveSent
    ensures var plan := Decide(PLAIN, run, info, now);
      !plan.anchorChanged && !plan.clearLive && (IsZero(run.lastPatchAt) ==> plan.Sends())
  {
    hide LiveAnchor;
  }

  lemma FirstTick(c: Card)
    requires NewRunCarded(c) && IsZero(c.run.lastPatchAt) && !c.run.liveSent
    requires var (run, info) := Shown(PLAIN, c.run, NEW_JOBS);
      Valid(Merge(c.server, TickFrame(PLAIN, run, info, Decide(PLAIN, run, info, 5))))
    ensures var c' := Next(PLAIN, c, TICK_NEW); NewRunCarded(c') && NewTickKnown(c'.run)
  {
    OneGroupShown(c.run, NEW_JOBS);
    var (run, info) := Shown(PLAIN, c.run, NEW_JOBS);
    PlainPlan(run, info, 5);
    hide Shown, OldFrame, TickFrame, Merge, Valid, Decide;
  }

  lemma NewRunTicks()
    ensures var c := Next(PLAIN, After(PLAIN, RACE), TICK_NEW);
      NewRunCarded(c) && NewTickKnown(c.run) && Inv(PLAIN, c)
  {
    RaceReached();
    EveryRunKeepsInv(PLAIN, RACE);
    var c := After(PLAIN, RACE);
    NextKeepsInv(PLAIN, c, TICK_NEW);
    EveryTickAccepted(PLAIN, RACE, NEW_JOBS, 5);
    OneGroupShown(c.run, NEW_JOBS);
    var (run, info) := Shown(PLAIN, c.run, NEW_JOBS);
    NoWindowNoWorry(run, info, 5);
    hide After, Inv, Shown, Next, TickFrame, Merge, Valid, WireSafe, Decide;
    FirstTick(c);
  }

  lemma NothingToSay(run: Run, info: StepInfo)
    requires NewTickKnown(run) && run.shapeSent == run.maxStepLabels
    requires info.totalSteps == 1 && info.currentStepName == "c" && info.currentStep == 1 && info.progress == 0.0
    ensures !Decide(PLAIN, run, info, 5).Sends()
  {
    hide LiveAnchor;
  }

  /** The old run stays shown: the same tick again has nothing to send, and the card keeps
      the state line of the run that was superseded. */
  lemma ALateFrameStaysShown()
    ensures var late := After(PLAIN, RACE + [TICK_NEW] + [Stale(OldFrame())]);
      && Shown(PLAIN, late.run, NEW_JOBS).1.currentStepName == "c"
      && Next(PLAIN, late, TICK_NEW).server == late.server && late.server.state == Some("done")
  {
    AfterOneMore(PLAIN, RACE, TICK_NEW);
    AfterOneMore(PLAIN, RACE + [TICK_NEW], Stale(OldFrame()));
    NewRunTicks();
    var c := After(PLAIN, RACE + [TICK_NEW]);
    OldFrameLands(c);
    var late := Next(PLAIN, c, Stale(OldFrame()));
    OneGroupShown(late.run, NEW_JOBS);
    var (run, info) := Shown(PLAIN, late.run, NEW_JOBS);
    NothingToSay(run, info);
    hide After, Inv, Shown, OldFrame, Decide, TickFrame, Merge, Valid, WholeStored;
  }
}
