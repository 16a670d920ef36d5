/** Whether the server accepts what the poller sends. The poller leaves the arrays off a
    frame when it believes the server has them, so acceptance rests on that belief. */
module CardSync {
  import opened Prelude
  import opened Clock
  import opened Steps
  import opened Weights
  import opened Pills
  import opened Server
  import opened Poller
  import opened Card

  // ---------- Belief about the ladder ----------

  /** The belief the loop acts on: the server holds nothing yet, or a whole ladder no
      longer than the tracked one; and once a ladder has landed, it is the one whose
      labels the poller remembers. */
  ghost predicate InSync(run: Run, server: Content) {
    && (server == EMPTY || (StepsValid(server) && server.totalSteps.value <= run.maxTotalSteps))
    && (run.shapeSent != [] ==> server != EMPTY && server.totalSteps == Some(|run.shapeSent|))
  }

  ghost predicate Synced(c: Card) {
    match c.phase
    case Untracked => true
    case OnScreen => InSync(c.run, c.server)
    case Ending(_) => c.server == EMPTY || (StepsValid(c.server) && c.server.totalSteps.value <= c.run.maxTotalSteps)
  }

  /** The part of a tick's outcome the loop cannot rule out: an over-long group name in
      the state line, and a window that would start at or before the Unix epoch. */
  ghost predicate WireSafe(info: StepInfo, plan: Plan) {
    && |info.currentStepName| <= MAX_STATE_RUNES
    && (plan.anchorChanged && plan.anchor.Window? ==> plan.anchor.start > 0)
  }

  /** The arrays a tick leaves on the server, whether it sends them or relies on them. */
  lemma TickArrays(cfg: Config, run: Run, info: StepInfo, plan: Plan, server: Content)
    requires RunOk(cfg, run) && OptionsOnly(cfg, server)
    requires ShapeOk(cfg, info.totalSteps, info.stepRows, info.stepLabels, info.stepColors) && info.stepLabels != []
    requires plan.shapeChanged || ArraysFit(server, info.totalSteps)
    ensures ArraysFit(Merge(server, TickFrame(cfg, run, info, plan)), info.totalSteps)
  {
    hide PayloadWeights;
    WeightsOk(cfg, info.totalSteps, info.stepLabels, run.stepWeightByName);
  }

  /** The window part of a tick, on a server whose stored window is sound. */
  lemma TickWindow(cfg: Config, run: Run, info: StepInfo, now: Time, server: Content)
    requires WindowStored(server)
    ensures var plan := Decide(cfg, run, info, now); var merged := Merge(server, TickFrame(cfg, run, info, plan));
      WindowValid(merged) <==> (plan.anchorChanged && plan.anchor.Window? ==> plan.anchor.start > 0)
  {
    hide LiveAnchor, ClampRows, ClampLabels, PayloadWeights;
    var plan := Decide(cfg, run, info, now);
    if plan.anchor.Window? {
      WindowIsAhead(info, run.stepWeightByName, now, MAX_RUN_LIFETIME);
    }
  }

  lemma TickScalars(cfg: Config, run: Run, info: StepInfo, plan: Plan, server: Content)
    ensures var merged := Merge(server, TickFrame(cfg, run, info, plan));
      && merged.progress == Some(info.progress) && merged.state == Some(info.currentStepName)
      && merged.currentStep == Some(info.currentStep) && merged.totalSteps == Some(info.totalSteps)
      && merged.template == server.template
  {
  }

  /** A tick whose ladder the server has, or is being sent, is accepted exactly when its
      state line and window are. */
  lemma TickAccepted(cfg: Config, run: Run, info: StepInfo, now: Time, server: Content)
    requires RunOk(cfg, run) && InfoOk(cfg, info) && info.stepLabels != []
    requires OptionsOnly(cfg, server) && WindowStored(server)
    requires var plan := Decide(cfg, run, info, now); plan.shapeChanged || ArraysFit(server, info.totalSteps)
    ensures var plan := Decide(cfg, run, info, now); var merged := Merge(server, TickFrame(cfg, run, info, plan));
      && (Valid(merged) <==> WireSafe(info, plan))
      && StepsValid(merged)
  {
    hide Decide, TickFrame, Merge, WindowStored, WindowValid, OptionsOnly, RunOk, ShapeOk, ArraysFit;
    var plan := Decide(cfg, run, info, now);
    LabelsAreTotal(cfg, info.totalSteps, info.stepRows, info.stepLabels, info.stepColors);
    TickScalars(cfg, run, info, plan, server);
    TickWindow(cfg, run, info, now, server);
    TickArrays(cfg, run, info, plan, server);
  }

  /** An unchanged ladder is one the server has at the tracked length. */
  lemma UnchangedIsStored(run: Run, server: Content)
    requires InSync(run, server) && run.shapeSent == run.maxStepLabels != []
    requires |run.maxStepLabels| == run.maxTotalSteps
    ensures StepsValid(server) && server.totalSteps == Some(run.maxTotalSteps) && ArraysFit(server, run.maxTotalSteps)
  {
    hide ArraysFit;
  }

  lemma LabelsAreTotal(cfg: Config, total: int, rows: seq<int>, labels: seq<string>, colors: seq<string>)
    requires ShapeOk(cfg, total, rows, labels, colors) && labels != []
    ensures |labels| == total >= 1
  {
  }

  /** With no late frame in the way, the server accepts every tick the poller sends,
      except one whose state line is too long or whose window starts at the epoch. */
  lemma SyncedTick(cfg: Config, c: Card, jobs: seq<Job>, now: Time)
    requires Inv(cfg, c) && c.phase == OnScreen && InSync(c.run, c.server) && jobs != []
    ensures var (run, info) := Shown(cfg, c.run, jobs); var plan := Decide(cfg, run, info, now);
      var merged := Merge(c.server, TickFrame(cfg, run, info, plan));
      && (Valid(merged) <==> WireSafe(info, plan))
      && StepsValid(merged)
      && InSync(run, c.server)
      && InSync(Promote(run, info, plan, now), merged)
      && merged.totalSteps == Some(info.totalSteps)
      && (c.server.totalSteps.Some? ==> c.server.totalSteps.value <= info.totalSteps)
  {
    hide Scan, Shown, TickFrame, Merge, WindowStored, OptionsOnly, RunOk, Valid, ArraysFit, ShapeOk, WireSafe;
    ShownOk(cfg, c.run, jobs);
    var (run, info) := Shown(cfg, c.run, jobs);
    LabelsAreTotal(cfg, info.totalSteps, info.stepRows, info.stepLabels, info.stepColors);
    var plan := Decide(cfg, run, info, now);
    if !plan.shapeChanged { UnchangedIsStored(run, c.server); }
    hide Decide;
    TickAccepted(cfg, run, info, now, c.server);
    TickScalars(cfg, run, info, plan, c.server);
  }

  // ---------- The seed and the closing frames ----------

  lemma SeedAccepted(cfg: Config, shape: StepInfo, byName: ByName)
    requires ShapeOk(cfg, shape.totalSteps, shape.stepRows, shape.stepLabels, shape.stepColors) && AtLeastFloor(byName)
    ensures var merged := Merge(EMPTY, SeedFrame(cfg, shape, byName));
      && Valid(merged) && StepsValid(merged) && merged.totalSteps == Some(shape.totalSteps)
  {
    hide PayloadWeights, ClampRows, ClampLabels;
    FullFrameOk(cfg, shape, byName, 0, 0.0, "Starting...");
    assert |"Starting..."| == 11;
  }

  /** A closing frame carries everything, so it is accepted whatever the server holds:
      late frames and rejected ticks cannot keep a card from closing. */
  lemma ClosingAccepted(cfg: Config, server: Content, frame: Content, n: int)
    requires WholeLadder(cfg, frame, n) && OptionsOnly(cfg, server) && WindowStored(server) && Valid(server)
    ensures var merged := Merge(server, frame);
      && (Valid(merged) <==> (frame.state.Some? ==> |frame.state.value| <= MAX_STATE_RUNES))
      && StepsValid(merged) && merged.totalSteps == Some(n)
  {
  }

  // ---------- Runs without late frames ----------

  ghost predicate NoLateFrame(events: seq<Event>) {
    forall e :: e in events ==> !e.Stale?
  }

  lemma DetectSynced(cfg: Config, c: Card, scan: seq<Job>, base: Option<Baseline>, delivered: bool)
    requires Possible(c, Detect(scan, base, delivered))
    ensures Synced(DetectStep(cfg, c, scan, base, delivered))
    ensures Valid(Merge(EMPTY, SeedFrame(cfg, SeedShape(cfg, scan, base), if base.Some? then base.value.weights else map[])))
  {
    hide Scan, SeedShape, RunOk, SeedFrame, Merge, StepsValid;
    var shape := SeedShape(cfg, scan, base);
    var byName := if base.Some? then base.value.weights else map[];
    SeedShapeOk(cfg, scan, base);
    DetectedRunOk(cfg, shape, byName);
    if shape.stepLabels != [] {
      LabelsAreTotal(cfg, shape.totalSteps, shape.stepRows, shape.stepLabels, shape.stepColors);
    }
    hide ShapeOk;
    SeedAccepted(cfg, shape, byName);
  }

  lemma TickSynced(cfg: Config, c: Card, jobs: seq<Job>, verdict: Verdict, now: Time, delivered: bool)
    requires Inv(cfg, c) && Synced(c) && c.phase == OnScreen && jobs != []
    ensures Synced(TickStep(cfg, c, jobs, verdict, now, delivered))
  {
    hide Scan, Shown, Adopt, TickFrame, Merge, Valid, StepsValid, Decide, EndFrame;
    SyncedTick(cfg, c, jobs, now);
    if Ends(cfg, jobs, verdict) { EndingIsLonger(cfg, c, jobs); }
  }

  lemma EndingIsLonger(cfg: Config, c: Card, jobs: seq<Job>)
    requires Inv(cfg, c) && c.phase == OnScreen && jobs != []
    ensures Adopt(c.run, Scan(cfg, jobs)).0.maxTotalSteps >= c.run.maxTotalSteps
  {
    hide Scan;
    ScanOk(cfg, jobs);
    AdoptOk(cfg, c.run, Scan(cfg, jobs));
  }

  lemma ClosingSynced(cfg: Config, c: Card, delivered: bool)
    requires Inv(cfg, c) && Synced(c) && c.phase.Ending?
    ensures Synced(c.(server := Apply(c.server, c.phase.frame, delivered)))
  {
    var n :| WholeLadder(cfg, c.phase.frame, n);
    ClosingAccepted(cfg, c.server, c.phase.frame, n);
    hide StepsValid, Merge, Valid, RunOk, WindowStored, ArraysFit;
  }

  lemma NextSynced(cfg: Config, c: Card, e: Event)
    requires Inv(cfg, c) && Synced(c) && !e.Stale?
    ensures Synced(Next(cfg, c, e))
  {
    hide DetectStep, TickStep, Apply, Inv, InSync, StepsValid;
    if Possible(c, e) {
      match e
      case Detect(scan, base, delivered) => DetectSynced(cfg, c, scan, base, delivered);
      case Tick(jobs, verdict, now, delivered) => TickSynced(cfg, c, jobs, verdict, now, delivered);
      case ClosingFrame(delivered) => ClosingSynced(cfg, c, delivered);
      case Forget =>
      case Stale(_) =>
    }
  }

  lemma {:induction false} EveryRunStaysSynced(cfg: Config, events: seq<Event>)
    requires NoLateFrame(events)
    ensures Synced(After(cfg, events))
  {
    if events != [] {
      var before := events[..|events| - 1];
      EveryRunStaysSynced(cfg, before);
      EveryRunKeepsInv(cfg, before);
      NextSynced(cfg, After(cfg, before), events[|events| - 1]);
    }
  }

  /** In any run of the loop without a late frame - any scans, any seeds, any sends not
      applied - the merge of the next tick always passes validateSteps, at the tracked total;
      and the server accepts it except when the group's name is longer than the state line
      may be or the window would start at or before the epoch. */
  lemma EveryTickAccepted(cfg: Config, events: seq<Event>, jobs: seq<Job>, now: Time)
    requires NoLateFrame(events) && After(cfg, events).phase == OnScreen && jobs != []
    ensures var c := After(cfg, events); var (run, info) := Shown(cfg, c.run, jobs); var plan := Decide(cfg, run, info, now);
      var merged := Merge(c.server, TickFrame(cfg, run, info, plan));
      && StepsValid(merged) && merged.totalSteps == Some(run.maxTotalSteps)
      && (Valid(merged) <==> WireSafe(info, plan))
  {
    EveryRunStaysSynced(cfg, events);
    EveryRunKeepsInv(cfg, events);
    var c := After(cfg, events);
    SyncedTick(cfg, c, jobs, now);
    ShownOk(cfg, c.run, jobs);
    hide Shown, Decide, TickFrame, Merge, Valid, Inv, Synced, StepsValid;
  }

  // ---------- Every run, late frames included ----------

  ghost predicate LadderSound(server: Content) { server == EMPTY || StepsValid(server) }

  /** A content with the steps template is validated whole; one without it came only from
      ticks that could rely on what they left off. */
  ghost predicate LadderKept(c: Card) {
    c.server.template == Some(TEMPLATE_STEPS) || (Synced(c) && LadderSound(c.server))
  }

  lemma TickKeepsTemplate(cfg: Config, c: Card, jobs: seq<Job>, verdict: Verdict, now: Time, delivered: bool)
    ensures TickStep(cfg, c, jobs, verdict, now, delivered).server.template == c.server.template
  {
    hide Scan, Shown, Adopt, Decide, Valid, EndFrame;
  }

  lemma SyncedIsSound(c: Card)
    requires Synced(c) && c.phase != Untracked
    ensures LadderSound(c.server)
  {
  }

  /** A closing frame, whoever sends it, brings the whole ladder or changes nothing. */
  lemma ClosingKeepsLadder(cfg: Config, c: Card, frame: Content, delivered: bool)
    requires LadderKept(c) && IsClosing(cfg, frame)
    ensures LadderKept(c.(server := Apply(c.server, frame, delivered)))
  {
    var n :| WholeLadder(cfg, frame, n);
    hide Valid, ArraysFit, InSync, LadderSound;
    if Landed(c.server, frame, delivered) {
      assert Merge(c.server, frame).template == Some(TEMPLATE_STEPS);
    }
  }

  lemma NextKeepsLadder(cfg: Config, c: Card, e: Event)
    requires Inv(cfg, c) && LadderKept(c)
    ensures LadderKept(Next(cfg, c, e))
  {
    hide DetectStep, TickStep, Apply, StepsValid, InSync, RunOk, WindowStored, OptionsOnly, Valid, BeliefCovers, IsClosing;
    if Possible(c, e) {
      match e
      case Detect(scan, base, delivered) =>
        DetectSynced(cfg, c, scan, base, delivered);
        DetectedIsOnScreen(cfg, c, scan, base, delivered);
        SyncedIsSound(DetectStep(cfg, c, scan, base, delivered));
      case Tick(jobs, verdict, now, delivered) =>
        TickKeepsTemplate(cfg, c, jobs, verdict, now, delivered);
        if c.server.template != Some(TEMPLATE_STEPS) {
          TickSynced(cfg, c, jobs, verdict, now, delivered);
          TickedIsTracked(cfg, c, jobs, verdict, now, delivered);
          SyncedIsSound(TickStep(cfg, c, jobs, verdict, now, delivered));
        }
      case ClosingFrame(delivered) => ClosingKeepsLadder(cfg, c, c.phase.frame, delivered);
      case Forget =>
      case Stale(frame) =>
        ClosingKeepsLadder(cfg, c, frame, true);
        StaleIsDelivered(c.server, frame);
    }
  }

  lemma DetectedIsOnScreen(cfg: Config, c: Card, scan: seq<Job>, base: Option<Baseline>, delivered: bool)
    ensures DetectStep(cfg, c, scan, base, delivered).phase == OnScreen
  {
  }

  lemma TickedIsTracked(cfg: Config, c: Card, jobs: seq<Job>, verdict: Verdict, now: Time, delivered: bool)
    requires c.phase == OnScreen
    ensures TickStep(cfg, c, jobs, verdict, now, delivered).phase != Untracked
  {
    hide Scan, Shown, Adopt, Decide, TickFrame, Valid, EndFrame;
  }

  lemma {:induction false} EveryRunKeepsLadder(cfg: Config, events: seq<Event>)
    ensures LadderKept(After(cfg, events))
  {
    if events != [] {
      var before := events[..|events| - 1];
      EveryRunKeepsLadder(cfg, before);
      EveryRunKeepsInv(cfg, before);
      hide Inv, LadderKept, Next;
      NextKeepsLadder(cfg, After(cfg, before), events[|events| - 1]);
    }
  }

  /** At every moment of every run - late frames, gaps and forgotten runs included - the
      ladder the server holds is absent or passes validateSteps. */
  lemma ServerLadderAlwaysValid(cfg: Config, events: seq<Event>)
    ensures LadderSound(After(cfg, events).server)
  {
    EveryRunKeepsLadder(cfg, events);
    EveryRunKeepsInv(cfg, events);
    hide After, StepsValid, Synced;
  }

  // ---------- total_steps never falls within a run ----------

  ghost function StoredTotal(server: Content): int {
    if server.totalSteps.Some? then server.totalSteps.value else 0
  }

  /** An event of the run on screen: not a new detection, not a late frame of an old run. */
  ghost predicate OwnEvent(e: Event) { !e.Detect? && !e.Stale? }

  lemma OwnEventRaisesTotal(cfg: Config, c: Card, e: Event)
    requires Inv(cfg, c) && Synced(c) && OwnEvent(e)
    ensures StoredTotal(c.server) <= StoredTotal(Next(cfg, c, e).server)
  {
    hide Scan, Shown, Adopt, TickFrame, Merge, Valid, Decide, EndFrame, ArraysFit, WindowStored, RunOk;
    if Possible(c, e) {
      match e
      case Tick(jobs, verdict, now, delivered) => SyncedTick(cfg, c, jobs, now);
      case ClosingFrame(delivered) =>
        var n :| WholeLadder(cfg, c.phase.frame, n);
        ClosingAccepted(cfg, c.server, c.phase.frame, n);
      case _ =>
    }
  }

  /** The counter on the server never jumps backwards while one run is on screen. */
  lemma {:induction false} TotalNeverFalls(cfg: Config, before: seq<Event>, own: seq<Event>)
    requires NoLateFrame(before) && forall e :: e in own ==> OwnEvent(e)
    ensures StoredTotal(After(cfg, before).server) <= StoredTotal(After(cfg, before + own).server)
  {
    if own == [] {
      assert before + own == before;
    } else {
      var fewer := own[..|own| - 1];
      TotalNeverFalls(cfg, before, fewer);
      var all := before + own;
      assert all[..|all| - 1] == before + fewer && all[|all| - 1] == own[|own| - 1];
      EveryRunStaysSynced(cfg, before + fewer);
      EveryRunKeepsInv(cfg, before + fewer);
      hide Next, Inv, Synced;
      OwnEventRaisesTotal(cfg, After(cfg, before + fewer), own[|own| - 1]);
    }
  }

  // ---------- What a late frame does ----------

  lemma LateFrameArrays(cfg: Config, c: Card, frame: Content, n: int)
    requires Inv(cfg, c) && WholeLadder(cfg, frame, n) && Valid(Merge(c.server, frame))
    ensures var server := Patched(c.server, frame);
      && server.template == Some(TEMPLATE_STEPS) && ArraysFit(server, n) && server.stepRows.Some?
      && OptionsOnly(cfg, server) && WindowStored(server)
  {
    hide Valid, RunOk, IsClosing;
    PatchedKeepsWindow(c.server, frame);
  }

  /** A tick that leaves the ladder off is accepted only if the stored one still fits. */
  lemma UnfitLadderRejects(cfg: Config, run: Run, info: StepInfo, plan: Plan, server: Content)
    requires server.template == Some(TEMPLATE_STEPS) && server.stepRows.Some?
    requires !plan.shapeChanged && |server.stepRows.value| != info.totalSteps
    ensures !Valid(Merge(server, TickFrame(cfg, run, info, plan)))
  {
    var merged := Merge(server, TickFrame(cfg, run, info, plan));
    hide WindowValid, ArraysFit;
    assert merged.stepRows == server.stepRows && merged.totalSteps == Some(info.totalSteps);
    assert merged.template == server.template;
    assert !RowsFit(merged.stepRows.value, info.totalSteps);
    UnfitRows(merged, info.totalSteps);
  }

  lemma UnfitRows(content: Content, total: int)
    requires content.stepRows.Some? && !RowsFit(content.stepRows.value, total)
    ensures !ArraysFit(content, total)
  {
  }

  /** A tick against a server that holds some whole ladder of n steps. */
  lemma TickOnLadderOf(cfg: Config, run: Run, info: StepInfo, now: Time, server: Content, n: int)
    requires RunOk(cfg, run) && InfoOk(cfg, info) && info.stepLabels != []
    requires OptionsOnly(cfg, server) && WindowStored(server)
    requires server.template == Some(TEMPLATE_STEPS) && ArraysFit(server, n) && server.stepRows.Some?
    ensures var plan := Decide(cfg, run, info, now);
      Valid(Merge(server, TickFrame(cfg, run, info, plan))) <==>
        WireSafe(info, plan) && (plan.shapeChanged || n == info.totalSteps)
  {
    hide Decide, TickFrame, Merge, Valid, WindowStored, OptionsOnly, RunOk, ArraysFit, WireSafe, ShapeOk;
    var plan := Decide(cfg, run, info, now);
    if plan.shapeChanged || n == info.totalSteps {
      TickAccepted(cfg, run, info, now, server);
    } else {
      RowsAreTotal(server, n);
      UnfitLadderRejects(cfg, run, info, plan, server);
    }
  }

  /** The race the loop documents: a closing frame of a superseded run, sent by a callback
      that had fired before the supersession, lands on the new run's card. The next tick
      is then rejected exactly when it leaves the ladder off and the late ladder has
      another length (or its state line or window would have been refused anyway). */
  lemma TickAfterLateFrame(cfg: Config, c: Card, frame: Content, jobs: seq<Job>, now: Time)
    requires Inv(cfg, c) && c.phase == OnScreen && jobs != []
    requires frame in c.past && Valid(Merge(c.server, frame))
    ensures var c' := Next(cfg, c, Stale(frame)); var (run, info) := Shown(cfg, c'.run, jobs);
      var plan := Decide(cfg, run, info, now);
      Valid(Merge(c'.server, TickFrame(cfg, run, info, plan))) <==>
        WireSafe(info, plan) && (plan.shapeChanged || frame.totalSteps == Some(info.totalSteps))
  {
    hide Scan, Shown, Decide, TickFrame, Merge, Valid, WindowStored, OptionsOnly, RunOk, ArraysFit, WireSafe, ShapeOk, FullArrays;
    var n :| WholeLadder(cfg, frame, n);
    LateFrameArrays(cfg, c, frame, n);
    ShownOk(cfg, c.run, jobs);
    var (run, info) := Shown(cfg, c.run, jobs);
    TickOnLadderOf(cfg, run, info, now, Patched(c.server, frame), n);
  }

  lemma RowsAreTotal(server: Content, n: int)
    requires ArraysFit(server, n) && server.stepRows.Some?
    ensures |server.stepRows.value| == n
  {
  }

  /** The stored ladder is not the length the ticks claim, and the poller will not
      resend it. */
  ghost predicate Wedged(c: Card) {
    && c.phase == OnScreen
    && c.run.shapeSent == c.run.maxStepLabels
    && c.server.template == Some(TEMPLATE_STEPS)
    && c.server.stepRows.Some? && |c.server.stepRows.value| != c.run.maxTotalSteps
  }

  /** A scan that does not change the tracked ladder. */
  ghost predicate KeepsLadder(cfg: Config, run: Run, jobs: seq<Job>) {
    var info := Scan(cfg, jobs);
    info.totalSteps < run.maxTotalSteps || (info.totalSteps == run.maxTotalSteps && info.stepLabels == run.maxStepLabels)
  }

  lemma WedgedTick(cfg: Config, c: Card, e: Event)
    requires Inv(cfg, c) && Wedged(c)
    requires e.Tick? && KeepsLadder(cfg, c.run, e.jobs) && !Ends(cfg, e.jobs, e.verdict)
    ensures var c' := Next(cfg, c, e); c'.server == c.server && c'.run == c.run && Wedged(c')
  {
    if e.jobs != [] {
      var (run, info) := Shown(cfg, c.run, e.jobs);
      ShownOk(cfg, c.run, e.jobs);
      hide Scan, Merge, Valid, TickFrame;
      assert run == c.run;
      var plan := Decide(cfg, run, info, e.now);
      UnfitLadderRejects(cfg, run, info, plan, c.server);
      hide Decide, Shown;
    }
  }

  /** And it stays that way: until the tracked ladder changes or the run ends, every tick
      is rejected and the card shows the old run's last frame. */
  lemma {:induction false} WedgedUntilTheLadderChanges(cfg: Config, c: Card, ticks: seq<Event>)
    requires Inv(cfg, c) && Wedged(c)
    requires forall e :: e in ticks ==> e.Tick? && KeepsLadder(cfg, c.run, e.jobs) && !Ends(cfg, e.jobs, e.verdict)
    ensures var c' := From(cfg, c, ticks); c'.server == c.server && c'.run == c.run && Wedged(c') && Inv(cfg, c')
  {
    if ticks != [] {
      var fewer := ticks[..|ticks| - 1];
      WedgedUntilTheLadderChanges(cfg, c, fewer);
      hide Next, Inv, Wedged, KeepsLadder, Ends;
      WedgedTick(cfg, From(cfg, c, fewer), ticks[|ticks| - 1]);
      NextKeepsInv(cfg, From(cfg, c, fewer), ticks[|ticks| - 1]);
    }
  }

  // A concrete run that gets there: a two-group run ends and is superseded by a one-group
  // run, whose seed lands before the old run's closing frame does.

  const PLAIN: Config := Config(false, false, false, 1, _ => "")

  const OLD_JOBS: seq<Job> := [Job("a", Completed, Success, 0, 0), Job("b", Completed, Success, 0, 0)]

  const NEW_JOBS: seq<Job> := [Job("c", InProgress, Unknown, 0, 0)]

  lemma ConcreteScans()
    ensures var o := Scan(PLAIN, OLD_JOBS); o.totalSteps == 2 && o.stepLabels == ["a", "b"] && o.allCompleted
    ensures var n := Scan(PLAIN, NEW_JOBS); n.totalSteps == 1 && n.stepLabels == ["c"] && !n.allCompleted
  {
    assert OLD_JOBS[..1] == [OLD_JOBS[0]] && OLD_JOBS[..1][..0] == [] && NEW_JOBS[..0] == [];
    assert Labels(OLD_JOBS[..1]) == ["a"];
    assert Labels(OLD_JOBS) == ["a", "b"];
    assert Labels(NEW_JOBS) == ["c"];
    assert NEW_JOBS[0] in NEW_JOBS;
  }

  ghost function OldFrame(): Content {
    EndFrame(PLAIN, Scan(PLAIN, OLD_JOBS), map[], "done")
  }

  const DETECT_OLD: Event := Detect(OLD_JOBS, None, true)

  const FINISH_OLD: Event := Tick(OLD_JOBS, Over("done"), 1, true)

  const DETECT_NEW: Event := Detect(NEW_JOBS, None, true)

  ghost function Ended(): Card { Next(PLAIN, Next(PLAIN, START, DETECT_OLD), FINISH_OLD) }

  ghost function Reseeded(): Card { Next(PLAIN, Ended(), DETECT_NEW) }

  lemma OldRunEnds()
    ensures Ended().phase == Ending(OldFrame())
  {
    hide Scan, EndFrame, SeedFrame, Apply, Landed;
    ConcreteScans();
    var c := Next(PLAIN, START, DETECT_OLD);
    assert c.phase == OnScreen && c.run.maxTotalSteps == 2 && c.run.maxStepLabels == ["a", "b"] && c.run.stepWeightByName == map[];
    assert Adopt(c.run, Scan(PLAIN, OLD_JOBS)) == (c.run, Scan(PLAIN, OLD_JOBS));
  }

  lemma NewRunSeeded()
    ensures var c := Reseeded();
      && c.phase == OnScreen && OldFrame() in c.past
      && c.run.maxTotalSteps == 1 && c.run.shapeSent == c.run.maxStepLabels
  {
    OldRunEnds();
    var c := Ended();
    DetectSynced(PLAIN, c, NEW_JOBS, None, true);
    hide Ended, Scan, SeedFrame, OldFrame, Apply, Valid, Merge;
    ConcreteScans();
  }

  lemma RaceIsAfter()
    ensures After(PLAIN, [DETECT_OLD, FINISH_OLD, DETECT_NEW]) == Reseeded()
  {
    var e := [DETECT_OLD, FINISH_OLD, DETECT_NEW];
    assert e[..2] == [DETECT_OLD, FINISH_OLD] && e[..2][..1] == [DETECT_OLD] && [DETECT_OLD][..0] == [];
    hide Next;
    assert From(PLAIN, START, [DETECT_OLD]) == Next(PLAIN, START, DETECT_OLD);
    assert From(PLAIN, START, e[..2]) == Next(PLAIN, From(PLAIN, START, [DETECT_OLD]), FINISH_OLD);
  }

  /** The race happens: after these three events of the loop, the late frame wedges the
      new run's card. */
  lemma LateFrameWedgesARun()
    ensures var c := After(PLAIN, [DETECT_OLD, FINISH_OLD, DETECT_NEW]);
      OldFrame() in c.past && Wedged(Next(PLAIN, c, Stale(OldFrame())))
  {
    RaceIsAfter();
    EveryRunKeepsInv(PLAIN, [DETECT_OLD, FINISH_OLD, DETECT_NEW]);
    hide After;
    NewRunSeeded();
    LandsOnTheNewRun(Reseeded());
  }

  lemma LandsOnTheNewRun(c: Card)
    requires Inv(PLAIN, c) && c.phase == OnScreen && OldFrame() in c.past
    requires c.run.maxTotalSteps == 1 && c.run.shapeSent == c.run.maxStepLabels
    ensures Wedged(Next(PLAIN, c, Stale(OldFrame())))
  {
    OldFrameIsWhole();
    hide OldFrame, Merge, Valid, WholeLadder, RunOk, WindowStored, OptionsOnly, ArraysFit;
    ClosingAccepted(PLAIN, c.server, OldFrame(), 2);
    LateFrameArrays(PLAIN, c, OldFrame(), 2);
    RowsAreTotal(Patched(c.server, OldFrame()), 2);
  }

  lemma OldFrameIsWhole()
    ensures WholeLadder(PLAIN, OldFrame(), 2) && OldFrame().state == Some("done")
  {
    ConcreteScans();
    ScanOk(PLAIN, OLD_JOBS);
    hide Scan;
    FullFrameOk(PLAIN, Scan(PLAIN, OLD_JOBS), map[], 2, 1.0, "done");
  }

  // ---------- One anchor per stretch ----------

  /** The group a tick that does not end the run shows. */
  ghost function ShownName(cfg: Config, jobs: seq<Job>): string {
    if Scan(cfg, jobs).allCompleted then QUEUED_STEP_NAME else Scan(cfg, jobs).currentStepName
  }

  /** Whether an event lands a new window on the server. */
  ghost predicate Anchors(cfg: Config, c: Card, e: Event) {
    Possible(c, e) && e.Tick? && !Ends(cfg, e.jobs, e.verdict) &&
    var (run, info) := Shown(cfg, c.run, e.jobs);
    var plan := Decide(cfg, run, info, e.now);
    plan.anchorChanged && Landed(c.server, TickFrame(cfg, run, info, plan), e.delivered)
  }

  ghost function AnchorsLanded(cfg: Config, c: Card, events: seq<Event>): nat {
    if events == [] then 0 else
      var before := events[..|events| - 1];
      AnchorsLanded(cfg, c, before) + if Anchors(cfg, From(cfg, c, before), events[|events| - 1]) then 1 else 0
  }

  /** One tick on group g: an anchor lands only if none was, and then it is remembered. */
  lemma TickOnGroup(cfg: Config, c: Card, e: Event, g: string)
    requires Inv(cfg, c)
    requires e.Stale? || (e.Tick? && !Ends(cfg, e.jobs, e.verdict) && ShownName(cfg, e.jobs) == g)
    ensures var c' := Next(cfg, c, e);
      && (Anchors(cfg, c, e) ==> !(c.run.liveSent && c.run.liveStepName == g) && c'.run.liveSent && c'.run.liveStepName == g)
      && (c.run.liveSent && c.run.liveStepName == g ==> c'.run.liveSent && c'.run.liveStepName == g)
  {
    hide TickFrame, Merge, Valid, LiveAnchor, Scan, RunOk;
    if Possible(c, e) && e.Tick? {
      hide Inv;
      ShownOk(cfg, c.run, e.jobs) by { OnScreenRunOk(cfg, c); }
      ShownNameIs(cfg, c.run, e.jobs);
      hide Shown;
    }
  }

  lemma OnScreenRunOk(cfg: Config, c: Card)
    requires Inv(cfg, c) && c.phase != Untracked
    ensures RunOk(cfg, c.run)
  {
  }

  lemma ShownNameIs(cfg: Config, run: Run, jobs: seq<Job>)
    ensures Shown(cfg, run, jobs).1.currentStepName == ShownName(cfg, jobs)
  {
    hide Scan, RealignStep;
  }

  /** An unbroken stretch of ticks on one group lands at most one anchor, so the bar
      never snaps back to empty; late frames in between do not change that. */
  lemma {:induction false} OneAnchorPerStretch(cfg: Config, c: Card, events: seq<Event>, g: string)
    requires Inv(cfg, c)
    requires forall e :: e in events ==> e.Stale? || (e.Tick? && !Ends(cfg, e.jobs, e.verdict) && ShownName(cfg, e.jobs) == g)
    ensures Inv(cfg, From(cfg, c, events))
    ensures AnchorsLanded(cfg, c, events) <= 1
    ensures AnchorsLanded(cfg, c, events) == 1 ==>
      From(cfg, c, events).run.liveSent && From(cfg, c, events).run.liveStepName == g
  {
    if events != [] {
      var before, e := events[..|events| - 1], events[|events| - 1];
      OneAnchorPerStretch(cfg, c, before, g);
      hide Next, Inv, Anchors, Ends, ShownName;
      NextKeepsInv(cfg, From(cfg, c, before), e);
      TickOnGroup(cfg, From(cfg, c, before), e, g);
    }
  }
}
