/** What the card shows. The loop sends a frame only when it believes something changed, so
    whether the server shows the present tick rests on what the loop remembers. */
module CardShows {
  import opened Prelude
  import opened Clock
  import opened Steps
  import opened Pills
  import opened Server
  import opened Poller
  import opened Card
  import opened CardSync

  /** What the loop remembers sending is what the server holds. */
  ghost predicate Mirrors(run: Run, server: Content) {
    && (!IsZero(run.lastPatchAt) ==> ScalarsAre(server, run.lastProgress, run.lastState, run.lastCurrentStep, run.lastTotalSteps))
    && (run.shapeSent != [] ==> server.stepLabels == Some(ClampLabels(run.shapeSent)))
  }

  ghost predicate ScalarsAre(server: Content, progress: real, state: string, current: int, total: int) {
    && server.progress == Some(progress) && server.state == Some(state)
    && server.currentStep == Some(current) && server.totalSteps == Some(total)
  }

  ghost predicate Shows(server: Content, info: StepInfo) {
    && ScalarsAre(server, info.progress, info.currentStepName, info.currentStep, info.totalSteps)
    && server.stepLabels == Some(ClampLabels(info.stepLabels))
  }

  ghost predicate Mirrored(c: Card) { c.phase == OnScreen ==> Mirrors(c.run, c.server) }

  /** One tick: the memory stays right, and after a frame that landed or was not needed the
      server shows the tick. */
  lemma TickMirrors(cfg: Config, run: Run, info: StepInfo, now: Time, server: Content, landed: bool)
    requires Mirrors(run, server) && info.stepLabels == run.maxStepLabels != []
    ensures var plan := Decide(cfg, run, info, now); var frame := TickFrame(cfg, run, info, plan);
      var after := if landed then Promote(run, info, plan, now) else run;
      var server' := if landed then Merge(server, frame) else server;
      && Mirrors(after, server')
      && (landed || !plan.Sends() ==> Shows(server', info))
      && (landed || !plan.Sends() ==> cfg.heartbeat > 0 && now > 0 ==> now - after.lastPatchAt < cfg.heartbeat)
  {
    hide LiveAnchor, ClampRows, ClampLabels, PayloadWeights;
  }

  lemma SeedMirrors(cfg: Config, shape: StepInfo, byName: map<string, real>)
    ensures var run := Seeded(Fresh(cfg), shape, byName);
      && Mirrors(run, EMPTY)
      && Mirrors(run.(shapeSent := shape.stepLabels), Merge(EMPTY, SeedFrame(cfg, shape, byName)))
  {
    hide ClampRows, PayloadWeights;
  }

  lemma ShownKeepsMemory(cfg: Config, run: Run, jobs: seq<Job>, server: Content)
    requires Mirrors(run, server)
    ensures Mirrors(Shown(cfg, run, jobs).0, server)
    ensures Adopt(run, Scan(cfg, jobs)).0.lastPatchAt == run.lastPatchAt
  {
    hide Scan, RealignStep, BetweenWaves, ClampLabels;
  }

  lemma TickKeepsMirror(cfg: Config, c: Card, jobs: seq<Job>, verdict: Verdict, now: Time, delivered: bool)
    requires Inv(cfg, c) && Mirrored(c) && c.phase == OnScreen && jobs != [] && !Ends(cfg, jobs, verdict)
    ensures Mirrored(TickStep(cfg, c, jobs, verdict, now, delivered))
    ensures var (run, info) := Shown(cfg, c.run, jobs); var plan := Decide(cfg, run, info, now);
      var c' := TickStep(cfg, c, jobs, verdict, now, delivered);
      !plan.Sends() || Landed(c.server, TickFrame(cfg, run, info, plan), delivered) ==>
        Shows(c'.server, info) && (cfg.heartbeat > 0 && now > 0 ==> now - c'.run.lastPatchAt < cfg.heartbeat)
  {
    ShownOk(cfg, c.run, jobs) by { OnScreenRunOk(cfg, c); }
    ShownKeepsMemory(cfg, c.run, jobs, c.server);
    hide Inv, Scan, Shown, Decide, TickFrame, Merge, Valid, Mirrors, Shows, Promote, RunOk, InfoOk;
    var (run, info) := Shown(cfg, c.run, jobs);
    var plan := Decide(cfg, run, info, now);
    var landed := plan.Sends() && Landed(c.server, TickFrame(cfg, run, info, plan), delivered);
    TickMirrors(cfg, run, info, now, c.server, landed);
  }

  lemma DetectMirrors(cfg: Config, c: Card, scan: seq<Job>, base: Option<Baseline>, delivered: bool)
    ensures Mirrored(DetectStep(cfg, c, scan, base, delivered))
  {
    var shape := SeedShape(cfg, scan, base);
    var byName := if base.Some? then base.value.weights else map[];
    SeedMirrors(cfg, shape, byName);
    hide SeedShape, Mirrors, Merge, Valid, SeedFrame, Seeded;
  }

  lemma NextMirrors(cfg: Config, c: Card, e: Event)
    requires Inv(cfg, c) && Mirrored(c) && !e.Stale?
    ensures Mirrored(Next(cfg, c, e))
  {
    hide DetectStep, Mirrors, Inv, Scan, Apply;
    if Possible(c, e) {
      match e
      case Detect(scan, base, delivered) => DetectMirrors(cfg, c, scan, base, delivered);
      case Tick(jobs, verdict, now, delivered) =>
        if !Ends(cfg, jobs, verdict) {
          TickKeepsMirror(cfg, c, jobs, verdict, now, delivered);
        }
      case _ =>
    }
  }

  lemma {:induction false} EveryRunMirrors(cfg: Config, events: seq<Event>)
    requires NoLateFrame(events)
    ensures Mirrored(After(cfg, events))
  {
    if events != [] {
      var before := events[..|events| - 1];
      EveryRunMirrors(cfg, before);
      EveryRunKeepsInv(cfg, before);
      hide Mirrored, Inv, Next;
      NextMirrors(cfg, After(cfg, before), events[|events| - 1]);
    }
  }

  /** In any run without a late frame - any scans, seeds and sends not applied - every tick
      that landed or had nothing to send leaves the server showing that tick: its progress,
      state line, current step, total and labels. And the card has then not been silent for
      a whole heartbeat. */
  lemma EveryTickIsShown(cfg: Config, events: seq<Event>, jobs: seq<Job>, verdict: Verdict, now: Time, delivered: bool)
    requires NoLateFrame(events) && After(cfg, events).phase == OnScreen && jobs != [] && !Ends(cfg, jobs, verdict)
    requires var c := After(cfg, events); var (run, info) := Shown(cfg, c.run, jobs); var plan := Decide(cfg, run, info, now);
      !plan.Sends() || Landed(c.server, TickFrame(cfg, run, info, plan), delivered)
    ensures var c := After(cfg, events); var c' := Next(cfg, c, Tick(jobs, verdict, now, delivered));
      && Shows(c'.server, Shown(cfg, c.run, jobs).1)
      && (cfg.heartbeat > 0 && now > 0 ==> now - c'.run.lastPatchAt < cfg.heartbeat)
  {
    EveryRunMirrors(cfg, events);
    EveryRunKeepsInv(cfg, events);
    hide After, Inv, Mirrored, TickStep, Shows, Shown, Decide, TickFrame, Landed, Ends;
    TickKeepsMirror(cfg, After(cfg, events), jobs, verdict, now, delivered);
  }

  // ---------- The rows on the card ----------

  /** The rows, as scanned, of the last ladder that landed on the card of the run on screen. */
  ghost function LadderRows(cfg: Config, events: seq<Event>): seq<int> {
    if events == [] then []
    else
      var before, e := events[..|events| - 1], events[|events| - 1];
      RowsAfter(cfg, After(cfg, before), e, LadderRows(cfg, before))
  }

  ghost function RowsSeeded(cfg: Config, scan: seq<Job>, base: Option<Baseline>, delivered: bool): seq<int> {
    var shape := SeedShape(cfg, scan, base);
    if Landed(EMPTY, SeedFrame(cfg, shape, if base.Some? then base.value.weights else map[]), delivered) then shape.stepRows else []
  }

  ghost function RowsAfter(cfg: Config, c: Card, e: Event, rows: seq<int>): seq<int> {
    if !Possible(c, e) then rows
    else match e
      case Detect(scan, base, delivered) => RowsSeeded(cfg, scan, base, delivered)
      case Tick(jobs, verdict, now, delivered) =>
        var (run, info) := Shown(cfg, c.run, jobs); var plan := Decide(cfg, run, info, now);
        if !Ends(cfg, jobs, verdict) && plan.shapeChanged && Landed(c.server, TickFrame(cfg, run, info, plan), delivered)
        then info.stepRows else rows
      case _ => rows
  }

  /** Once a ladder has landed, its rows are what the server holds. */
  ghost predicate RowsKept(c: Card, rows: seq<int>) {
    c.phase == OnScreen && c.run.shapeSent != [] ==> c.server.stepRows == Some(ClampRows(rows))
  }

  /** step_rows is re-sent only when the labels changed. */
  lemma TickRows(cfg: Config, run: Run, info: StepInfo, plan: Plan, server: Content)
    requires |info.stepRows| > 0
    ensures Merge(server, TickFrame(cfg, run, info, plan)).stepRows ==
      if plan.shapeChanged then Some(ClampRows(info.stepRows)) else server.stepRows
  {
  }

  lemma ChangedMeansSends(cfg: Config, run: Run, info: StepInfo, now: Time)
    ensures Decide(cfg, run, info, now).shapeChanged ==> Decide(cfg, run, info, now).Sends()
    ensures !Decide(cfg, run, info, now).shapeChanged <==> run.shapeSent == run.maxStepLabels
  {
    hide LiveAnchor;
  }

  lemma LabelledHasRows(cfg: Config, total: int, rows: seq<int>, labels: seq<string>, colors: seq<string>)
    requires ShapeOk(cfg, total, rows, labels, colors) && labels != []
    ensures |rows| > 0
  {
  }

  lemma SeedRows(cfg: Config, shape: StepInfo, byName: map<string, real>)
    requires |shape.stepRows| > 0
    ensures Merge(EMPTY, SeedFrame(cfg, shape, byName)).stepRows == Some(ClampRows(shape.stepRows))
  {
    hide ClampLabels, PayloadWeights;
  }

  lemma DetectKeepsRows(cfg: Config, c: Card, scan: seq<Job>, base: Option<Baseline>, delivered: bool)
    requires Possible(c, Detect(scan, base, delivered))
    ensures RowsKept(DetectStep(cfg, c, scan, base, delivered), RowsSeeded(cfg, scan, base, delivered))
  {
    SeedShapeOk(cfg, scan, base);
    var shape := SeedShape(cfg, scan, base);
    if shape.stepLabels != [] {
      LabelledHasRows(cfg, shape.totalSteps, shape.stepRows, shape.stepLabels, shape.stepColors);
      SeedRows(cfg, shape, if base.Some? then base.value.weights else map[]);
    }
    hide SeedShape, Valid, SeedFrame, Merge, ShapeOk, ClampRows;
  }

  lemma TickKeepsRows(cfg: Config, c: Card, e: Event, rows: seq<int>)
    requires Inv(cfg, c) && RowsKept(c, rows) && Possible(c, e) && e.Tick?
    ensures RowsKept(Next(cfg, c, e), RowsAfter(cfg, c, e, rows))
  {
    ShownOk(cfg, c.run, e.jobs) by { OnScreenRunOk(cfg, c); }
    var (run, info) := Shown(cfg, c.run, e.jobs);
    var plan := Decide(cfg, run, info, e.now);
    LabelledHasRows(cfg, info.totalSteps, info.stepRows, info.stepLabels, info.stepColors);
    TickRows(cfg, run, info, plan, c.server);
    ChangedMeansSends(cfg, run, info, e.now);
    hide Inv, Scan, Shown, Decide, TickFrame, Merge, Valid, ClampRows, RunOk, InfoOk, EndFrame;
  }

  lemma NextKeepsRows(cfg: Config, c: Card, e: Event, rows: seq<int>)
    requires Inv(cfg, c) && RowsKept(c, rows) && !e.Stale?
    ensures RowsKept(Next(cfg, c, e), RowsAfter(cfg, c, e, rows))
  {
    if Possible(c, e) {
      match e
      case Detect(scan, base, delivered) =>
        DetectKeepsRows(cfg, c, scan, base, delivered);
        hide DetectStep, RowsSeeded, RowsKept;
      case Tick(_, _, _, _) => TickKeepsRows(cfg, c, e, rows);
      case _ => hide Apply, ClampRows;
    }
  }

  lemma {:induction false} EveryRunKeepsRows(cfg: Config, events: seq<Event>)
    requires NoLateFrame(events)
    ensures RowsKept(After(cfg, events), LadderRows(cfg, events))
  {
    if events != [] {
      var before := events[..|events| - 1];
      EveryRunKeepsRows(cfg, before);
      EveryRunKeepsInv(cfg, before);
      hide Inv, RowsKept, RowsAfter, Next;
      NextKeepsRows(cfg, After(cfg, before), events[|events| - 1], LadderRows(cfg, before));
    }
  }

  /** In any run without a late frame, a tick that landed or had nothing to send leaves the
      card with its rows exactly when it re-sends the ladder - which it does when the labels
      changed - or when they clamp to the same rows as the last ladder that landed. */
  lemma WhenTheRowsAreShown(cfg: Config, events: seq<Event>, jobs: seq<Job>, verdict: Verdict, now: Time, delivered: bool)
    requires NoLateFrame(events) && After(cfg, events).phase == OnScreen && jobs != [] && !Ends(cfg, jobs, verdict)
    requires var c := After(cfg, events); var (run, info) := Shown(cfg, c.run, jobs); var plan := Decide(cfg, run, info, now);
      !plan.Sends() || Landed(c.server, TickFrame(cfg, run, info, plan), delivered)
    ensures var c := After(cfg, events); var (run, info) := Shown(cfg, c.run, jobs); var plan := Decide(cfg, run, info, now);
      Next(cfg, c, Tick(jobs, verdict, now, delivered)).server.stepRows == Some(ClampRows(info.stepRows)) <==>
        plan.shapeChanged || ClampRows(info.stepRows) == ClampRows(LadderRows(cfg, events))
  {
    EveryRunKeepsRows(cfg, events);
    EveryRunKeepsInv(cfg, events);
    var c := After(cfg, events);
    ShownOk(cfg, c.run, jobs) by { OnScreenRunOk(cfg, c); }
    var (run, info) := Shown(cfg, c.run, jobs);
    var plan := Decide(cfg, run, info, now);
    LabelledHasRows(cfg, info.totalSteps, info.stepRows, info.stepLabels, info.stepColors);
    TickRows(cfg, run, info, plan, c.server);
    ChangedMeansSends(cfg, run, info, now);
    hide After, Inv, Scan, Shown, Decide, TickFrame, Merge, Valid, ClampRows, RunOk, InfoOk, EndFrame, LadderRows, Ends;
  }

  const ONE_SHARD: seq<Job> := [Job("c", InProgress, Unknown, 0, 0)]

  const TWO_SHARDS: seq<Job> := [Job("c", InProgress, Unknown, 0, 0), Job("c", InProgress, Unknown, 0, 0)]

  lemma OneShardScan()
    ensures var a := Scan(PLAIN, ONE_SHARD); a.totalSteps == 1 && a.stepLabels == ["c"] && a.stepRows == [1]
  {
    assert ONE_SHARD[..0] == [];
    assert Labels(ONE_SHARD) == ["c"] && Shards(ONE_SHARD, "c") == ONE_SHARD;
  }

  lemma TwoShardGroup()
    ensures Labels(TWO_SHARDS) == ["c"] && Shards(TWO_SHARDS, "c") == TWO_SHARDS && !AllCompleted(TWO_SHARDS)
  {
    assert ONE_SHARD[..0] == [] && TWO_SHARDS[..1] == ONE_SHARD;
    assert Labels(ONE_SHARD) == ["c"] && Shards(ONE_SHARD, "c") == ONE_SHARD;
    assert TWO_SHARDS[0] in TWO_SHARDS;
  }

  lemma TwoShardScan()
    ensures var b := Scan(PLAIN, TWO_SHARDS);
      b.totalSteps == 1 && b.stepLabels == ["c"] && b.stepRows == [2] && !b.allCompleted && |b.currentStepName| <= 6
  {
    TwoShardGroup();
    hide Labels, Shards, AllCompleted;
  }

  ghost function OneShardSeeded(): Card { After(PLAIN, [Detect(ONE_SHARD, None, true)]) }

  lemma SeededOnce()
    ensures OneShardSeeded() == Next(PLAIN, START, Detect(ONE_SHARD, None, true))
  {
    hide Next;
    var es := [Detect(ONE_SHARD, None, true)];
    assert es[..|es| - 1] == [] && From(PLAIN, START, []) == START;
    assert From(PLAIN, START, es) == Next(PLAIN, START, es[0]);
  }

  lemma SeededWithOneRow()
    ensures var c := OneShardSeeded();
      && c.phase == OnScreen && c.run.maxTotalSteps == 1 && c.run.maxStepLabels == ["c"] && c.run.shapeSent == ["c"]
      && c.server.stepRows == Some([1])
  {
    OneShardScan();
    SeededOnce();
    DetectSynced(PLAIN, START, ONE_SHARD, None, true);
    hide Scan, Valid, OneShardSeeded;
    assert ClampRows([1]) == [1];
  }

  lemma NoWindowNoWorry(run: Run, info: StepInfo, now: Time)
    requires |info.currentStepName| <= 6
    ensures WireSafe(info, Decide(PLAIN, run, info, now))
  {
    hide LiveAnchor;
  }

  /** So a shard added to a group already on the card does not reach it: here the tick's
      group has two jobs, the server accepts the tick, and it still shows one. */
  lemma RowsCanGoStale(now: Time)
    ensures var c := OneShardSeeded(); var (run, info) := Shown(PLAIN, c.run, TWO_SHARDS); var plan := Decide(PLAIN, run, info, now);
      var merged := Merge(c.server, TickFrame(PLAIN, run, info, plan));
      info.stepRows == [2] && Valid(merged) && merged.stepRows == Some([1])
  {
    SeededWithOneRow();
    TwoShardScan();
    EveryTickAccepted(PLAIN, [Detect(ONE_SHARD, None, true)], TWO_SHARDS, now);
    hide Scan, After, LiveAnchor, Valid, WireSafe;
    var c := OneShardSeeded();
    var (run, info) := Shown(PLAIN, c.run, TWO_SHARDS);
    NoWindowNoWorry(run, info, now);
    TickRows(PLAIN, run, info, Decide(PLAIN, run, info, now), c.server);
    hide TickFrame, Merge;
  }
}
