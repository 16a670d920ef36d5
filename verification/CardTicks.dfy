/** What a tick says, read off the jobs it scanned: which ladder it shows, which step it
    points at, and when the same jobs again have anything new to say. */
module CardTicks {
  import opened Prelude
  import opened Clock
  import opened Steps
  import opened Weights
  import opened Pills
  import opened Server
  import opened Poller
  import opened Card
  import opened CardSync
  import opened CardShows

  // ---------- Which ladder ----------

  /** A job runs in a group whose name is not blank. */
  ghost predicate SomeGroupRuns(jobs: seq<Job>) { exists n :: n in Labels(jobs) && n != "" && GroupRuns(jobs, n) }

  /** Group i of the jobs, in first-seen order, is the one to highlight: the first that has a
      running job, blank names aside; with none running, the first that is not finished. */
  ghost predicate IsHighlight(jobs: seq<Job>, i: nat) {
    var groups := Labels(jobs);
    && i < |groups|
    && if SomeGroupRuns(jobs) then
         groups[i] != "" && GroupRuns(jobs, groups[i]) && forall k :: 0 <= k < i ==> groups[k] == "" || !GroupRuns(jobs, groups[k])
       else
         GroupUnfinished(jobs, groups[i]) && forall k :: 0 <= k < i ==> !GroupUnfinished(jobs, groups[k])
  }

  /** The card shows the scan's own ladder unless it has shown a longer one. */
  ghost predicate ShowsScan(run: Run, jobs: seq<Job>) { |Labels(jobs)| >= run.maxTotalSteps }

  ghost function ShownLabels(run: Run, jobs: seq<Job>): seq<string> {
    if ShowsScan(run, jobs) then Labels(jobs) else run.maxStepLabels
  }

  lemma ScanSays(cfg: Config, jobs: seq<Job>)
    ensures var s := Scan(cfg, jobs);
      && s.totalSteps == |s.stepLabels| == |s.stepRows| && s.stepLabels == Labels(jobs)
      && (forall i :: 0 <= i < |s.stepRows| ==> s.stepRows[i] == |Shards(jobs, Labels(jobs)[i])|)
      && (s.allCompleted <==> forall j :: j in jobs ==> j.status.Completed?)
  {
    hide Labels, Shards, FirstRunning, FirstUnfinished, Finished, FirstStart;
  }

  /** The ladder of a tick, group by group: its labels, and how many jobs each group has - the
      groups of the scan, or of the longest ladder the run has had. What is tracked from then
      on has the same labels. */
  lemma TickShowsLadder(cfg: Config, run: Run, jobs: seq<Job>)
    requires RunOk(cfg, run) && jobs != []
    ensures var (run', info) := Shown(cfg, run, jobs);
      && info.stepLabels == ShownLabels(run, jobs) == run'.maxStepLabels
      && info.totalSteps == Max(|Labels(jobs)|, run.maxTotalSteps) == run'.maxTotalSteps
      && (if ShowsScan(run, jobs)
          then |info.stepRows| == |Labels(jobs)| && forall i :: 0 <= i < |info.stepRows| ==> info.stepRows[i] == |Shards(jobs, Labels(jobs)[i])|
          else info.stepRows == run.maxStepRows == run'.maxStepRows)
  {
    ScanSays(cfg, jobs);
    ShownOk(cfg, run, jobs);
    hide Scan, Labels, Shards, RealignStep, AtLeastFloor, NextWave;
  }

  // ---------- Which step ----------

  lemma ScanHighlights(cfg: Config, jobs: seq<Job>, i: nat)
    requires IsHighlight(jobs, i) && !Scan(cfg, jobs).allCompleted
    ensures var s := Scan(cfg, jobs);
      && s.currentStep == i + 1
      && s.currentStepName == if SomeGroupRuns(jobs) then Labels(jobs)[i] else QUEUED_STEP_NAME
  {
    ScanSays(cfg, jobs);
    LadderHighlight(jobs, cfg.color);
    hide Ladder, Labels, GroupRuns, GroupUnfinished;
  }

  lemma AdoptPoints(run: Run, info: StepInfo)
    requires info.totalSteps == |info.stepLabels| && 1 <= info.currentStep <= info.totalSteps
    requires run.maxTotalSteps == |run.maxStepLabels| || run.maxTotalSteps <= 1
    ensures var shown := Adopt(run, info).1; var group := info.stepLabels[info.currentStep - 1];
      && shown.currentStepName == info.currentStepName && shown.allCompleted == info.allCompleted && shown.progress == info.progress
      && 1 <= shown.currentStep <= |shown.stepLabels|
      && (group in shown.stepLabels ==> shown.stepLabels[shown.currentStep - 1] == group)
      && (group !in shown.stepLabels ==> shown.currentStep == info.currentStep)
  {
    RealignKeepsTheGroup(info.currentStep, info.stepLabels, run.maxStepLabels);
    hide RealignStep;
  }

  lemma UnfinishedShowsTheScan(cfg: Config, run: Run, jobs: seq<Job>)
    requires !Scan(cfg, jobs).allCompleted
    ensures Shown(cfg, run, jobs) == Adopt(run, Scan(cfg, jobs))
  {
    hide Scan, RealignStep;
  }

  lemma TrackedLabels(cfg: Config, run: Run)
    requires RunOk(cfg, run)
    ensures run.maxTotalSteps == |run.maxStepLabels| || run.maxTotalSteps <= 1
  {
  }

  /** While a job is unfinished the state line names the group to highlight - or says that the
      run is queued when no named group runs - and the step is the place of that group in the
      ladder shown, wherever it stood in the scan. Only a group the ladder shown does not have
      keeps the place it had in the scan. */
  lemma TickPointsAtTheGroup(cfg: Config, run: Run, jobs: seq<Job>, i: nat)
    requires RunOk(cfg, run) && IsHighlight(jobs, i) && exists j :: j in jobs && !j.status.Completed?
    ensures var info := Shown(cfg, run, jobs).1; var group := Labels(jobs)[i];
      && info.currentStepName == (if SomeGroupRuns(jobs) then group else QUEUED_STEP_NAME)
      && 1 <= info.currentStep <= |info.stepLabels|
      && (group in info.stepLabels ==> info.stepLabels[info.currentStep - 1] == group)
      && (group !in info.stepLabels ==> info.currentStep == i + 1)
  {
    hide Scan, Labels, Adopt, Shown, IsHighlight, SomeGroupRuns, RunOk;
    ScanSays(cfg, jobs);
    ScanHighlights(cfg, jobs, i);
    UnfinishedShowsTheScan(cfg, run, jobs);
    TrackedLabels(cfg, run);
    HighlightIsAGroup(jobs, i);
    AdoptPoints(run, Scan(cfg, jobs));
  }

  lemma HighlightIsAGroup(jobs: seq<Job>, i: nat)
    requires IsHighlight(jobs, i)
    ensures i < |Labels(jobs)|
  {
  }

  /** Between waves - every visible job done, the run not over - the card says it is queued,
      points at the first step of the ladder shown whose group no job has, or at the last step
      when they all have, and keeps the progress it last sent. */
  lemma TickBetweenWaves(cfg: Config, run: Run, jobs: seq<Job>)
    requires RunOk(cfg, run) && jobs != [] && forall j :: j in jobs ==> j.status.Completed?
    ensures var info := Shown(cfg, run, jobs).1; var c := info.currentStep - 1;
      && info.currentStepName == QUEUED_STEP_NAME && info.progress == run.lastProgress && info.currentStepStartedAt == 0
      && 0 <= c < |info.stepLabels|
      && (forall k :: 0 <= k < c ==> exists j :: j in jobs && j.group == info.stepLabels[k])
      && ((exists j :: j in jobs && j.group == info.stepLabels[c]) ==> c == |info.stepLabels| - 1)
  {
    hide Scan, Labels, Shown, RunOk, Adopt, BetweenWaves;
    ScanSays(cfg, jobs);
    ShownTotal(cfg, run, jobs);
    TickShowsLadder(cfg, run, jobs);
    FinishedShowsTheWave(cfg, run, jobs);
    var info := Shown(cfg, run, jobs).1;
    WavePoints(Adopt(run, Scan(cfg, jobs)).1, Scan(cfg, jobs), run.lastProgress);
    forall l: string
      ensures l in Labels(jobs) <==> exists j :: j in jobs && j.group == l
    {
      InLabels(jobs, l);
    }
    assert jobs[0].group in Labels(jobs);
  }

  lemma FinishedShowsTheWave(cfg: Config, run: Run, jobs: seq<Job>)
    requires Scan(cfg, jobs).allCompleted
    ensures Shown(cfg, run, jobs).1 == BetweenWaves(Adopt(run, Scan(cfg, jobs)).1, Scan(cfg, jobs), run.lastProgress)
  {
    hide Scan, RealignStep, NextWave;
  }

  lemma WavePoints(info: StepInfo, observed: StepInfo, lastProgress: real)
    ensures var wave := BetweenWaves(info, observed, lastProgress); var c := wave.currentStep - 1;
      && wave.stepLabels == info.stepLabels && wave.totalSteps == info.totalSteps
      && wave.currentStepName == QUEUED_STEP_NAME && wave.progress == lastProgress && wave.currentStepStartedAt == 0
      && (info.totalSteps == |info.stepLabels| > 0 ==>
          && 0 <= c < |info.stepLabels|
          && (forall k :: 0 <= k < c ==> info.stepLabels[k] in observed.stepLabels)
          && (info.stepLabels[c] in observed.stepLabels ==> c == |info.stepLabels| - 1))
  {
  }

  /** While a job is unfinished the progress is the share of the jobs that are finished. */
  lemma TickProgress(cfg: Config, run: Run, jobs: seq<Job>, done: set<nat>)
    requires RunOk(cfg, run) && exists j :: j in jobs && !j.status.Completed?
    requires forall k :: k in done <==> 0 <= k < |jobs| && jobs[k].status.Completed?
    ensures Shown(cfg, run, jobs).1.progress * |jobs| as real == |done| as real
  {
    hide Scan, Finished, RealignStep, Labels, Shown, RunOk;
    ScanSays(cfg, jobs);
    FinishedCounts(jobs, done);
    UnfinishedShowsTheScan(cfg, run, jobs);
    ScanProgress(cfg, jobs);
    Ratio(Finished(jobs), |jobs|);
  }

  lemma ScanProgress(cfg: Config, jobs: seq<Job>)
    requires jobs != []
    ensures Scan(cfg, jobs).progress == Finished(jobs) as real / |jobs| as real
  {
    hide Labels, Shards, FirstRunning, FirstUnfinished, Finished, FirstStart, AllCompleted, AnyJobFailed;
  }

  lemma Ratio(f: nat, n: nat)
    requires n > 0
    ensures f as real / n as real * n as real == f as real
  {
  }

  /** The countdown of a tick starts from the earliest start any job of the group to highlight
      has, and from none when none has. */
  lemma TickStartsWithTheGroup(cfg: Config, run: Run, jobs: seq<Job>, i: nat)
    requires IsHighlight(jobs, i) && exists j :: j in jobs && !j.status.Completed?
    ensures var at := Shown(cfg, run, jobs).1.currentStepStartedAt; var group := Labels(jobs)[i];
      && (at == 0 <==> forall j :: j in jobs && j.group == group ==> j.startedAt == 0)
      && (at > 0 ==> exists j :: j in jobs && j.group == group && j.startedAt == at)
      && (at > 0 ==> forall j :: j in jobs && j.group == group && j.startedAt > 0 ==> at <= j.startedAt)
  {
    hide Scan, Labels, Adopt, Shown, IsHighlight, SomeGroupRuns;
    ScanSays(cfg, jobs);
    HighlightIsAGroup(jobs, i);
    ScanHighlights(cfg, jobs, i);
    UnfinishedShowsTheScan(cfg, run, jobs);
    AdoptKeepsTheStart(run, Scan(cfg, jobs));
    ScanStartsWith(cfg, jobs, i);
    ShardsOfAGroup(jobs, Labels(jobs)[i]);
    FirstStartIsLeast(Shards(jobs, Labels(jobs)[i]));
  }

  lemma AdoptKeepsTheStart(run: Run, info: StepInfo)
    ensures Adopt(run, info).1.currentStepStartedAt == info.currentStepStartedAt
  {
  }

  lemma ScanStartsWith(cfg: Config, jobs: seq<Job>, i: nat)
    requires i < |Labels(jobs)| && Scan(cfg, jobs).currentStep == i + 1
    ensures Scan(cfg, jobs).currentStepStartedAt == FirstStart(Shards(jobs, Labels(jobs)[i]))
  {
    hide Labels, Shards, FirstRunning, FirstUnfinished, FirstStart, Finished;
  }

  // ---------- What the server then says ----------

  /** In any run without a late frame, after a tick that landed or had nothing to send, the
      card's step is the place, on the card, of the group to highlight: the label there is
      its name, cut as labels are, and the state line names it whenever a named group runs. */
  lemma CardPointsAtTheGroup(cfg: Config, events: seq<Event>, jobs: seq<Job>, verdict: Verdict, now: Time, delivered: bool, i: nat)
    requires NoLateFrame(events) && After(cfg, events).phase == OnScreen
    requires IsHighlight(jobs, i) && exists j :: j in jobs && !j.status.Completed?
    requires var c := After(cfg, events); var (run, info) := Shown(cfg, c.run, jobs); var plan := Decide(cfg, run, info, now);
      !plan.Sends() || Landed(c.server, TickFrame(cfg, run, info, plan), delivered)
    ensures var c := After(cfg, events); var server := Next(cfg, c, Tick(jobs, verdict, now, delivered)).server;
      var groups := Labels(jobs); var labels := ShownLabels(c.run, jobs);
      && server.state == Some(if SomeGroupRuns(jobs) then groups[i] else QUEUED_STEP_NAME)
      && server.totalSteps == Some(|labels|)
      && server.stepLabels.Some? && |server.stepLabels.value| == |labels|
      && server.currentStep.Some? && 1 <= server.currentStep.value <= |labels|
      && (groups[i] in labels ==>
          server.stepLabels.value[server.currentStep.value - 1] == groups[i][..Min(|groups[i]|, MAX_STEP_LABEL_LEN)])
      && (groups[i] !in labels ==> server.currentStep.value == i + 1)
  {
    hide After, Inv, Scan, Labels, Shown, Decide, TickFrame, Valid, Merge, Ends, IsHighlight, SomeGroupRuns, RunOk, Next, ShownLabels, ClampLabels;
    var c := After(cfg, events);
    EveryRunKeepsInv(cfg, events);
    OnScreenRunOk(cfg, c);
    HighlightIsAGroup(jobs, i);
    TickPointsAtTheGroup(cfg, c.run, jobs, i);
    TickShowsLadder(cfg, c.run, jobs);
    UnfinishedDoesNotEnd(cfg, jobs, verdict);
    EveryTickIsShown(cfg, events, jobs, verdict, now, delivered);
    var info := Shown(cfg, c.run, jobs).1;
    ShownTotal(cfg, c.run, jobs);
    LabelAsSent(info.stepLabels, info.currentStep - 1);
  }

  lemma ShownTotal(cfg: Config, run: Run, jobs: seq<Job>)
    requires RunOk(cfg, run) && jobs != []
    ensures var info := Shown(cfg, run, jobs).1; info.totalSteps == |info.stepLabels|
  {
    hide Shown, RunOk, Scan;
    ShownOk(cfg, run, jobs);
    var info := Shown(cfg, run, jobs).1;
    LabelsAreTotal(cfg, info.totalSteps, info.stepRows, info.stepLabels, info.stepColors);
  }

  lemma UnfinishedDoesNotEnd(cfg: Config, jobs: seq<Job>, verdict: Verdict)
    requires exists j :: j in jobs && !j.status.Completed?
    ensures !Ends(cfg, jobs, verdict) && jobs != []
  {
    ScanSays(cfg, jobs);
    hide Scan;
  }

  lemma LabelAsSent(labels: seq<string>, k: nat)
    requires k < |labels|
    ensures ClampLabels(labels)[k] == labels[k][..Min(|labels[k]|, MAX_STEP_LABEL_LEN)]
  {
  }

  // ---------- The same jobs again ----------

  /** Once a tick has landed or had nothing to send, the same jobs have nothing to say until
      a heartbeat is due: no frame goes out before that, and one does then. */
  lemma SameJobsAreSilent(cfg: Config, c: Card, jobs: seq<Job>, verdict: Verdict, now: Time, delivered: bool, later: Time)
    requires Inv(cfg, c) && c.phase == OnScreen && jobs != [] && !Ends(cfg, jobs, verdict)
    requires var (run, info) := Shown(cfg, c.run, jobs); var plan := Decide(cfg, run, info, now);
      !plan.Sends() || Landed(c.server, TickFrame(cfg, run, info, plan), delivered)
    requires 0 < now <= later
    ensures var c' := Next(cfg, c, Tick(jobs, verdict, now, delivered)); var (run, info) := Shown(cfg, c'.run, jobs);
      Decide(cfg, run, info, later).Sends() <==> later - c'.run.lastPatchAt >= cfg.heartbeat
  {
    hide Inv, Scan, Shown, Decide, TickFrame, Valid, Merge, Ends, RunOk, Promote, EndFrame, Adopt;
    var (run, info) := Shown(cfg, c.run, jobs);
    var plan := Decide(cfg, run, info, now);
    OnScreenRunOk(cfg, c);
    PromotedRemembers(run, info, plan, now);
    UnsentIsKnown(cfg, run, info, now);
    SameJobsSameInfo(cfg, c.run, jobs, if plan.Sends() then Promote(run, info, plan, now) else run);
    NothingNew(cfg, run, info, now, later);
  }

  lemma PromotedRemembers(run: Run, info: StepInfo, plan: Plan, now: Time)
    ensures var after := Promote(run, info, plan, now);
      after == run.(shapeSent := after.shapeSent, lastProgress := info.progress, lastState := after.lastState,
        lastCurrentStep := after.lastCurrentStep, lastTotalSteps := after.lastTotalSteps, lastPatchAt := after.lastPatchAt,
        liveStepName := after.liveStepName, liveSent := after.liveSent)
  {
  }

  lemma UnsentIsKnown(cfg: Config, run: Run, info: StepInfo, now: Time)
    ensures !Decide(cfg, run, info, now).Sends() ==> info.progress == run.lastProgress
  {
    hide LiveAnchor;
  }

  lemma SameJobsSameInfo(cfg: Config, run: Run, jobs: seq<Job>, after: Run)
    requires RunOk(cfg, run) && jobs != []
    requires var (adopted, info) := Shown(cfg, run, jobs);
      after == adopted.(shapeSent := after.shapeSent, lastProgress := info.progress, lastState := after.lastState,
        lastCurrentStep := after.lastCurrentStep, lastTotalSteps := after.lastTotalSteps, lastPatchAt := after.lastPatchAt,
        liveStepName := after.liveStepName, liveSent := after.liveSent)
    ensures Shown(cfg, after, jobs) == (after, Shown(cfg, run, jobs).1)
  {
    ScanSays(cfg, jobs);
    hide Scan, RealignStep, NextWave;
  }

  /** A countdown that is declined stays declined for the same step. */
  lemma AnchorOnlyCloses(info: StepInfo, byName: ByName, now: Time, later: Time)
    requires now <= later && LiveAnchor(info, byName, later, MAX_RUN_LIFETIME).Window?
    ensures LiveAnchor(info, byName, now, MAX_RUN_LIFETIME).Window?
  {
    var length := AnchorLength(info.currentStepName, byName, MAX_RUN_LIFETIME);
    assert AnchorStart(info, later) + length * SECOND > later + MIN_LIVE_WINDOW;
    assert AnchorStart(info, later) <= later;
    hide AnchorLength;
  }

  lemma NothingNew(cfg: Config, run: Run, info: StepInfo, now: Time, later: Time)
    requires 0 < now <= later
    ensures var plan := Decide(cfg, run, info, now);
      var after := if plan.Sends() then Promote(run, info, plan, now) else run;
      Decide(cfg, after, info, later).Sends() <==> later - after.lastPatchAt >= cfg.heartbeat
  {
    if LiveAnchor(info, run.stepWeightByName, later, MAX_RUN_LIFETIME).Window? {
      AnchorOnlyCloses(info, run.stepWeightByName, now, later);
    }
    hide LiveAnchor;
  }

  // ---------- The opening and the closing frames ----------

  /** The card opens on the ladder of the scan, or of the prior run if that has more groups;
      without any jobs on a bare step. */
  lemma OpeningLadder(cfg: Config, scan: seq<Job>, base: Option<Baseline>)
    ensures var shape := SeedShape(cfg, scan, base); var live := if scan == [] then 1 else |Labels(scan)|;
      && (base.Some? && |Labels(base.value.jobs)| > live ==>
          shape.stepLabels == Labels(base.value.jobs) && shape.totalSteps == |Labels(base.value.jobs)|)
      && (!(base.Some? && |Labels(base.value.jobs)| > live) ==> shape.totalSteps == live && shape.stepLabels == Labels(scan))
  {
    ScanSays(cfg, scan);
    if base.Some? { ScanSays(cfg, base.value.jobs); }
    hide Scan;
  }

  /** Once every job is done and the run is over, the frame of both closing phases says so in
      full: progress 1, the last step of the ladder shown, that ladder, the outcome, and no
      countdown. A tick schedules the end in no other case. */
  lemma ClosingFrameSaysItAll(cfg: Config, c: Card, jobs: seq<Job>, verdict: Verdict, now: Time, delivered: bool)
    requires Inv(cfg, c) && c.phase == OnScreen && jobs != []
    ensures var c' := Next(cfg, c, Tick(jobs, verdict, now, delivered)); var labels := ShownLabels(c.run, jobs);
      && (c'.phase.Ending? <==> verdict.Over? && forall j :: j in jobs ==> j.status.Completed?)
      && (c'.phase.Ending? ==>
          && c'.server == c.server
          && c'.phase.frame.progress == Some(1.0)
          && c'.phase.frame.currentStep == c'.phase.frame.totalSteps == Some(|labels|)
          && c'.phase.frame.stepLabels == Some(ClampLabels(labels))
          && c'.phase.frame.state == (if verdict.state == "" then None else Some(verdict.state))
          && c'.phase.frame.liveProgress == (if cfg.liveProgress then Some(false) else None))
  {
    hide Inv, Scan, RunOk, Labels, TickFrame, Merge, Valid, Decide, ClampLabels, ClampRows, PayloadWeights, Shown, Promote;
    OnScreenRunOk(cfg, c);
    ScanSays(cfg, jobs);
    ShownTotal(cfg, c.run, jobs);
    TickShowsLadder(cfg, c.run, jobs);
    ScanIsNotEmpty(cfg, jobs);
    AdoptsWhatIsShown(cfg, c.run, jobs);
  }

  lemma ScanIsNotEmpty(cfg: Config, jobs: seq<Job>)
    requires jobs != []
    ensures Labels(jobs) != []
  {
    InLabels(jobs, jobs[0].group);
    assert jobs[0] in jobs;
  }

  lemma AdoptsWhatIsShown(cfg: Config, run: Run, jobs: seq<Job>)
    ensures var info := Adopt(run, Scan(cfg, jobs)).1; var shown := Shown(cfg, run, jobs).1;
      info.stepLabels == shown.stepLabels && info.totalSteps == shown.totalSteps
  {
    hide Scan, RealignStep, NextWave;
  }

  /** And once such a frame has landed, that is what the server holds. */
  lemma ClosedCardIsDone(cfg: Config, c: Card)
    requires Inv(cfg, c) && c.phase.Ending? && Landed(c.server, c.phase.frame, true)
    ensures var server := Next(cfg, c, ClosingFrame(true)).server; var frame := c.phase.frame;
      && server.progress == frame.progress && server.currentStep == frame.currentStep && server.totalSteps == frame.totalSteps
      && server.stepLabels == frame.stepLabels && server.stepRows == frame.stepRows
      && (frame.state.Some? ==> server.state == frame.state)
      && (cfg.liveProgress ==> server.liveProgress == Some(false))
  {
    var n :| WholeLadder(cfg, c.phase.frame, n);
    hide Valid, ArraysFit, RunOk;
  }

  // ---------- The pills on a frame ----------

  /** A frame that sends its ladder sends one pill per label when pills are on: the group's own
      weight where one is known, the mean of the known ones where it is not, and even pills
      where none are. */
  ghost predicate PillsDrawn(w: seq<real>, labels: seq<string>, byName: ByName) {
    && |w| == |labels|
    && forall i :: 0 <= i < |w| ==>
      && (labels[i] in byName ==> w[i] == byName[labels[i]])
      && (labels[i] !in byName && byName != map[] ==> Mean(byName) == Some(w[i]))
      && (byName == map[] ==> w[i] == 1.0)
  }

  lemma PillsAreSent(cfg: Config, shape: StepInfo, byName: ByName, current: int, progress: real, state: string)
    requires shape.totalSteps == |shape.stepLabels| > 0
    ensures var w := FullFrame(cfg, shape, byName, current, progress, state).stepWeights;
      if cfg.stepWeights then w.Some? && PillsDrawn(w.value, shape.stepLabels, byName) else w.None?
  {
    hide ClampRows, ClampLabels;
  }

  lemma TickPillsAreSent(cfg: Config, run: Run, info: StepInfo, now: Time)
    requires info.totalSteps == |info.stepLabels| > 0
    ensures var plan := Decide(cfg, run, info, now); var w := TickFrame(cfg, run, info, plan).stepWeights;
      if cfg.stepWeights && run.shapeSent != run.maxStepLabels
      then w.Some? && PillsDrawn(w.value, info.stepLabels, run.stepWeightByName) else w.None?
  {
    hide ClampRows, ClampLabels, LiveAnchor;
  }

  // ---------- What a run is drawn and timed with ----------

  /** The durations the last detection took over from a prior run; none without one. */
  ghost function LastDurations(cfg: Config, events: seq<Event>): ByName {
    if events == [] then map[]
    else
      var before, e := events[..|events| - 1], events[|events| - 1];
      if e.Detect? && Possible(After(cfg, before), e) then (if e.base.Some? then e.base.value.weights else map[])
      else LastDurations(cfg, before)
  }

  lemma NextKeepsDurations(cfg: Config, c: Card, e: Event)
    ensures e.Detect? && Possible(c, e) ==>
      Next(cfg, c, e).run.stepWeightByName == if e.base.Some? then e.base.value.weights else map[]
    ensures !(e.Detect? && Possible(c, e)) ==> Next(cfg, c, e).run.stepWeightByName == c.run.stepWeightByName
  {
    hide Scan, SeedShape, SeedFrame, TickFrame, Merge, Valid, Decide, EndFrame, RealignStep, NextWave, FullFrame;
  }

  /** Every tick of a run draws its pills and times its countdown with the durations its
      detection took over, whatever happened since. */
  lemma {:induction false} DurationsAreTheBaselines(cfg: Config, events: seq<Event>)
    ensures After(cfg, events).run.stepWeightByName == LastDurations(cfg, events)
  {
    if events != [] {
      var before := events[..|events| - 1];
      DurationsAreTheBaselines(cfg, before);
      hide Next, Possible;
      NextKeepsDurations(cfg, After(cfg, before), events[|events| - 1]);
    }
  }

  /** The server has been told whether to animate, or the run still takes it to be animating. */
  ghost predicate AnimationKnown(cfg: Config, c: Card) {
    cfg.liveProgress && c.phase != Untracked ==>
      c.server.liveProgress.Some? || (c.run.liveSent && c.run.liveStepName == "" && IsZero(c.run.lastPatchAt))
  }

  lemma TickKnowsAnimation(cfg: Config, run: Run, info: StepInfo, now: Time, server: Content)
    requires cfg.liveProgress && info.currentStepName != ""
    requires server.liveProgress.Some? || (run.liveSent && run.liveStepName == "" && IsZero(run.lastPatchAt))
    ensures Merge(server, TickFrame(cfg, run, info, Decide(cfg, run, info, now))).liveProgress.Some?
  {
    hide LiveAnchor;
  }

  lemma TickKeepsAnimation(cfg: Config, c: Card, jobs: seq<Job>, verdict: Verdict, now: Time, delivered: bool)
    requires AnimationKnown(cfg, c) && c.phase == OnScreen && jobs != []
    ensures AnimationKnown(cfg, TickStep(cfg, c, jobs, verdict, now, delivered))
  {
    hide Scan, Shown, TickFrame, Merge, Valid, Decide, EndFrame, RealignStep, Promote;
    AdoptKeepsSends(c.run, Scan(cfg, jobs));
    if !Ends(cfg, jobs, verdict) {
      ShownKeepsSends(cfg, c.run, jobs);
      var (run, info) := Shown(cfg, c.run, jobs);
      if cfg.liveProgress { TickKnowsAnimation(cfg, run, info, now, c.server); }
    }
  }

  lemma AdoptKeepsSends(run: Run, info: StepInfo)
    ensures var run' := Adopt(run, info).0;
      run'.liveSent == run.liveSent && run'.liveStepName == run.liveStepName && run'.lastPatchAt == run.lastPatchAt
  {
  }

  lemma ShownKeepsSends(cfg: Config, run: Run, jobs: seq<Job>)
    requires jobs != []
    ensures var (run', info) := Shown(cfg, run, jobs);
      && run'.liveSent == run.liveSent && run'.liveStepName == run.liveStepName && run'.lastPatchAt == run.lastPatchAt
      && info.currentStepName != ""
  {
    LadderHighlight(jobs, cfg.color);
    hide Ladder, RealignStep, NextWave, GroupRuns, GroupUnfinished;
  }

  lemma ClosingKeepsAnimation(cfg: Config, c: Card, frame: Content, delivered: bool)
    requires AnimationKnown(cfg, c) && IsClosing(cfg, frame)
    ensures AnimationKnown(cfg, c.(server := Apply(c.server, frame, delivered)))
  {
    hide Valid, WholeLadder;
  }

  lemma DetectKnowsAnimation(cfg: Config, c: Card, scan: seq<Job>, base: Option<Baseline>, delivered: bool)
    ensures AnimationKnown(cfg, DetectStep(cfg, c, scan, base, delivered))
  {
    hide SeedShape, SeedFrame, Merge, Valid;
  }

  lemma NextKeepsAnimation(cfg: Config, c: Card, e: Event)
    requires Inv(cfg, c) && AnimationKnown(cfg, c)
    ensures AnimationKnown(cfg, Next(cfg, c, e))
  {
    hide DetectStep, TickStep, Apply, Valid, RunOk, IsClosing, WindowStored, OptionsOnly, BeliefCovers;
    if Possible(c, e) {
      match e
      case Detect(scan, base, delivered) => DetectKnowsAnimation(cfg, c, scan, base, delivered);
      case Tick(jobs, verdict, now, delivered) => TickKeepsAnimation(cfg, c, jobs, verdict, now, delivered);
      case ClosingFrame(delivered) => ClosingKeepsAnimation(cfg, c, c.phase.frame, delivered);
      case Forget =>
      case Stale(frame) =>
        ClosingKeepsAnimation(cfg, c, frame, true);
        StaleIsDelivered(c.server, frame);
    }
  }

  lemma {:induction false} EveryRunKnowsAnimation(cfg: Config, events: seq<Event>)
    ensures AnimationKnown(cfg, After(cfg, events))
  {
    if events != [] {
      var before := events[..|events| - 1];
      EveryRunKnowsAnimation(cfg, before);
      EveryRunKeepsInv(cfg, before);
      hide Inv, AnimationKnown, Next;
      NextKeepsAnimation(cfg, After(cfg, before), events[|events| - 1]);
    }
  }

  /** With live progress on, once a frame of a tracked run's ticks has landed the server has been
      told whether to animate: nothing a former run left behind decides it. */
  lemma AnimationIsSettled(cfg: Config, events: seq<Event>)
    requires cfg.liveProgress && After(cfg, events).phase != Untracked && After(cfg, events).run.lastPatchAt > 0
    ensures After(cfg, events).server.liveProgress.Some?
  {
    hide After;
    EveryRunKnowsAnimation(cfg, events);
  }
}
