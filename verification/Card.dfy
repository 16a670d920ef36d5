/** One card as a state machine: the poller's tracked run, the content the server holds,
    and every frame between them. A send is applied or not applied at all; an applied
    one is merged and validated by the server, which may still reject it. */
module Card {
  import opened Prelude
  import opened Clock
  import opened Steps
  import opened Weights
  import opened Pills
  import opened Server
  import opened Poller

  /** Where the repo's tracked entry is: none, on screen, or waiting on its two-phase
      end with the frame both phases send. */
  datatype Phase = Untracked | OnScreen | Ending(frame: Content)

  /** owner is the group whose window the server last took, and past the closing frames
      of runs no longer tracked: a callback already fired may still send one of them. */
  datatype Card = Card(phase: Phase, run: Run, server: Content, owner: string, past: set<Content>)

  /** What the re-read of the run says once every visible job is done. */
  datatype Verdict = StillGoing | Over(state: string)

  datatype Event =
    | Detect(scan: seq<Job>, base: Option<Baseline>, delivered: bool)
    | Tick(jobs: seq<Job>, verdict: Verdict, now: Time, delivered: bool)
    | ClosingFrame(delivered: bool)
    | Forget
    | Stale(frame: Content)

  const START: Card := Card(Untracked, Run(0, [], [], [], map[], [], 0.0, "", 0, 0, 0, "", false), EMPTY, "", {})

  /** What the environment supplies: runs with jobs, baselines measured as the weights
      module measures them, and a stale frame only from a run that scheduled its end. */
  ghost predicate Possible(c: Card, e: Event) {
    match e
    case Detect(_, base, _) => c.phase != OnScreen && (base.Some? ==> base.value.jobs != [] && AtLeastFloor(base.value.weights))
    case Tick(jobs, _, _, _) => c.phase == OnScreen && jobs != []
    case ClosingFrame(_) => c.phase.Ending?
    case Forget => true
    case Stale(frame) => frame in c.past
  }

  ghost function Apply(server: Content, frame: Content, delivered: bool): Content {
    if delivered then Patched(server, frame) else server
  }

  ghost predicate Landed(server: Content, frame: Content, delivered: bool) {
    delivered && Valid(Merge(server, frame))
  }

  ghost function Retire(c: Card): set<Content> {
    if c.phase.Ending? then c.past + {c.phase.frame} else c.past
  }

  ghost function DetectStep(cfg: Config, c: Card, scan: seq<Job>, base: Option<Baseline>, delivered: bool): Card {
    var shape := SeedShape(cfg, scan, base);
    var byName := if base.Some? then base.value.weights else map[];
    var run := Seeded(Fresh(cfg), shape, byName);
    var frame := SeedFrame(cfg, shape, byName);
    Card(OnScreen,
      if Landed(EMPTY, frame, delivered) then run.(shapeSent := shape.stepLabels) else run,
      Apply(EMPTY, frame, delivered), c.owner, Retire(c))
  }

  ghost function TickStep(cfg: Config, c: Card, jobs: seq<Job>, verdict: Verdict, now: Time, delivered: bool): Card {
    var observed := Scan(cfg, jobs);
    if Ends(cfg, jobs, verdict) then
      var (adopted, info) := Adopt(c.run, observed);
      c.(phase := Ending(EndFrame(cfg, info, adopted.stepWeightByName, verdict.state)), run := adopted)
    else
      var (adopted, info) := Shown(cfg, c.run, jobs);
      var plan := Decide(cfg, adopted, info, now);
      if !plan.Sends() then c.(run := adopted)
      else
        var frame := TickFrame(cfg, adopted, info, plan);
        var landed := Landed(c.server, frame, delivered);
        c.(run := if landed then Promote(adopted, info, plan, now) else adopted,
           server := Apply(c.server, frame, delivered),
           owner := if landed && plan.anchorChanged then info.currentStepName else c.owner)
  }

  ghost function Next(cfg: Config, c: Card, e: Event): Card {
    if !Possible(c, e) then c
    else
      match e
      case Detect(scan, base, delivered) => DetectStep(cfg, c, scan, base, delivered)
      case Tick(jobs, verdict, now, delivered) => TickStep(cfg, c, jobs, verdict, now, delivered)
      case ClosingFrame(delivered) => c.(server := Apply(c.server, c.phase.frame, delivered))
      case Forget => c.(phase := Untracked, past := Retire(c))
      case Stale(frame) => c.(server := Patched(c.server, frame))
  }

  ghost function From(cfg: Config, c: Card, events: seq<Event>): Card {
    if events == [] then c else Next(cfg, From(cfg, c, events[..|events| - 1]), events[|events| - 1])
  }

  /** The card after a whole run of events. */
  ghost function After(cfg: Config, events: seq<Event>): Card {
    From(cfg, START, events)
  }

  // ---------- Shapes ----------

  /** A shape is bare (one step, nothing known about it) or has one entry per step. */
  ghost predicate ShapeOk(cfg: Config, total: int, rows: seq<int>, labels: seq<string>, colors: seq<string>) {
    || (total == 1 && rows == [] && labels == [] && colors == [])
    || (total >= 1 && |rows| == total && |labels| == total && |colors| == if cfg.stepColors then total else 0)
  }

  ghost predicate InfoOk(cfg: Config, info: StepInfo) {
    && ShapeOk(cfg, info.totalSteps, info.stepRows, info.stepLabels, info.stepColors)
    && 0 <= info.currentStep <= info.totalSteps
    && 0.0 <= info.progress <= 1.0
  }

  ghost predicate RunOk(cfg: Config, run: Run) {
    && ShapeOk(cfg, run.maxTotalSteps, run.maxStepRows, run.maxStepLabels, run.maxStepColors)
    && AtLeastFloor(run.stepWeightByName)
    && 0.0 <= run.lastProgress <= 1.0
  }

  lemma ScanOk(cfg: Config, jobs: seq<Job>)
    requires jobs != []
    ensures InfoOk(cfg, Scan(cfg, jobs)) && Scan(cfg, jobs).stepLabels != []
  {
    hide Ladder;
    LadderPartitionsTheJobs(jobs, cfg.color);
    LadderHighlight(jobs, cfg.color);
    LadderProgress(jobs, cfg.color);
  }

  lemma AdoptOk(cfg: Config, run: Run, info: StepInfo)
    requires RunOk(cfg, run) && InfoOk(cfg, info) && info.stepLabels != []
    ensures var (adopted, shown) := Adopt(run, info);
      && RunOk(cfg, adopted) && InfoOk(cfg, shown)
      && shown.totalSteps == adopted.maxTotalSteps >= run.maxTotalSteps
      && shown.stepLabels == adopted.maxStepLabels != []
      && shown.allCompleted == info.allCompleted && shown.currentStepName == info.currentStepName
      && adopted.shapeSent == run.shapeSent && adopted.lastProgress == run.lastProgress
      && adopted.liveSent == run.liveSent && adopted.liveStepName == run.liveStepName
      && adopted.stepWeightByName == run.stepWeightByName
  {
    RealignKeepsTheGroup(info.currentStep, info.stepLabels, run.maxStepLabels);
    hide RealignStep, AtLeastFloor;
  }

  lemma ShownOk(cfg: Config, run: Run, jobs: seq<Job>)
    requires RunOk(cfg, run) && jobs != []
    ensures var (adopted, info) := Shown(cfg, run, jobs);
      && RunOk(cfg, adopted) && InfoOk(cfg, info)
      && adopted == Adopt(run, Scan(cfg, jobs)).0
      && info.totalSteps == adopted.maxTotalSteps >= run.maxTotalSteps
      && info.stepLabels == adopted.maxStepLabels != []
      && adopted.shapeSent == run.shapeSent
      && adopted.liveSent == run.liveSent && adopted.liveStepName == run.liveStepName
  {
    hide Scan, Adopt;
    ScanOk(cfg, jobs);
    AdoptOk(cfg, run, Scan(cfg, jobs));
  }

  // ---------- Frames ----------

  /** A frame that carries a whole ladder of n steps. */
  ghost predicate WholeLadder(cfg: Config, frame: Content, n: int) {
    && n >= 1
    && frame.template == Some(TEMPLATE_STEPS)
    && frame.totalSteps == Some(n)
    && frame.currentStep.Some? && 0 <= frame.currentStep.value <= n
    && frame.progress.Some? && 0.0 <= frame.progress.value <= 1.0
    && frame.liveProgress == LiveProgressOff(cfg) && frame.startDate.None? && frame.endDate.None?
    && ArraysFit(frame, n)
    && FullArrays(cfg, frame)
  }

  /** Every array the options call for is on the frame. */
  ghost predicate FullArrays(cfg: Config, frame: Content) {
    && frame.stepRows.Some? && frame.stepLabels.Some?
    && (cfg.stepColors <==> frame.stepColors.Some?)
    && (cfg.stepWeights <==> frame.stepWeights.Some?)
  }

  lemma WeightsOk(cfg: Config, total: int, labels: seq<string>, byName: ByName)
    requires total >= 1 && AtLeastFloor(byName)
    ensures var w := PayloadWeights(cfg, total, labels, byName);
      if cfg.stepWeights then WeightsFit(w, total) else w == []
  {
    ProjectedAtLeastFloor(labels, byName);
  }

  lemma FullFrameOk(cfg: Config, shape: StepInfo, byName: ByName, current: int, progress: real, state: string)
    requires ShapeOk(cfg, shape.totalSteps, shape.stepRows, shape.stepLabels, shape.stepColors)
    requires AtLeastFloor(byName) && 0 <= current <= shape.totalSteps && 0.0 <= progress <= 1.0
    ensures var f := FullFrame(cfg, shape, byName, current, progress, state);
      && ArraysFit(f, shape.totalSteps)
      && (shape.stepLabels != [] ==> WholeLadder(cfg, f, shape.totalSteps))
  {
    hide PayloadWeights;
    WeightsOk(cfg, shape.totalSteps, shape.stepLabels, byName);
  }

  // ---------- The invariant that survives everything ----------

  ghost predicate WindowStored(server: Content) {
    && (server.startDate.Some? <==> server.endDate.Some?)
    && (server.startDate.Some? ==> 0 < server.startDate.value < server.endDate.value)
    && (server.liveProgress == Some(true) ==> server.endDate.Some?)
  }

  /** The poller's belief covers the server's animation: a live window is one it
      believes it sent, for the group it believes it sent it for. */
  ghost predicate BeliefCovers(c: Card) {
    c.phase != Untracked && c.server.liveProgress == Some(true) ==> c.run.liveSent && c.owner == c.run.liveStepName
  }

  /** Colors and weights are stored only if the options ask for them, and the only
      template is the steps one. */
  ghost predicate OptionsOnly(cfg: Config, content: Content) {
    && (content.stepColors.Some? ==> cfg.stepColors)
    && (content.stepWeights.Some? ==> cfg.stepWeights)
    && (content.template.Some? ==> content.template.value == TEMPLATE_STEPS)
  }

  ghost predicate Inv(cfg: Config, c: Card) {
    && (c.phase != Untracked ==> RunOk(cfg, c.run))
    && (c.phase.Ending? ==> IsClosing(cfg, c.phase.frame) && c.phase.frame.totalSteps == Some(c.run.maxTotalSteps))
    && (forall f :: f in c.past ==> IsClosing(cfg, f))
    && Valid(c.server)
    && WindowStored(c.server)
    && OptionsOnly(cfg, c.server)
    && BeliefCovers(c)
  }

  ghost predicate IsClosing(cfg: Config, f: Content) {
    exists n :: WholeLadder(cfg, f, n)
  }

  lemma WindowMerges(stored: Content, frame: Content)
    requires WindowStored(stored) && Valid(Merge(stored, frame))
    requires frame.startDate.Some? <==> frame.endDate.Some?
    ensures WindowStored(Merge(stored, frame))
  {
  }

  lemma PatchedKeepsWindow(stored: Content, frame: Content)
    requires WindowStored(stored) && Valid(stored)
    requires frame.startDate.Some? <==> frame.endDate.Some?
    ensures WindowStored(Patched(stored, frame)) && Valid(Patched(stored, frame))
  {
    hide Merge, Valid, WindowStored;
    if Valid(Merge(stored, frame)) { WindowMerges(stored, frame); }
  }

  lemma PatchedKeepsOptions(cfg: Config, stored: Content, frame: Content)
    requires OptionsOnly(cfg, stored) && OptionsOnly(cfg, frame)
    ensures OptionsOnly(cfg, Patched(stored, frame))
  {
    hide Valid;
  }

  lemma FullFrameOptions(cfg: Config, shape: StepInfo, byName: ByName, current: int, progress: real, state: string)
    requires ShapeOk(cfg, shape.totalSteps, shape.stepRows, shape.stepLabels, shape.stepColors)
    ensures OptionsOnly(cfg, FullFrame(cfg, shape, byName, current, progress, state))
  {
    hide ClampRows, ClampLabels, Projected, Uniform;
  }

  lemma TickFrameOptions(cfg: Config, run: Run, info: StepInfo, plan: Plan)
    requires ShapeOk(cfg, info.totalSteps, info.stepRows, info.stepLabels, info.stepColors)
    ensures OptionsOnly(cfg, TickFrame(cfg, run, info, plan))
  {
    hide ClampRows, ClampLabels, Projected, Uniform;
  }

  /** A frame that only ever switches the animation off cannot make a live window. */
  lemma OffOnlyStops(stored: Content, frame: Content)
    requires frame.liveProgress != Some(true)
    ensures Patched(stored, frame).liveProgress == Some(true) ==> stored.liveProgress == Some(true)
  {
    hide Valid;
  }

  lemma DetectKeepsInv(cfg: Config, c: Card, scan: seq<Job>, base: Option<Baseline>, delivered: bool)
    requires Inv(cfg, c) && Possible(c, Detect(scan, base, delivered))
    ensures Inv(cfg, DetectStep(cfg, c, scan, base, delivered))
  {
    var shape := SeedShape(cfg, scan, base);
    var byName := if base.Some? then base.value.weights else map[];
    SeedShapeOk(cfg, scan, base);
    hide Scan, SeedShape, Valid;
    EmptyIsValid();
    hide WindowStored, OptionsOnly, ShapeOk, FullFrame, Merge, RunOk;
    DetectedRunOk(cfg, shape, byName);
    FullFrameOptions(cfg, shape, byName, 0, 0.0, "Starting...");
    SeedIsOff(cfg, shape, byName);
    EmptyIsPlain(cfg);
    PatchedKeepsOptions(cfg, EMPTY, SeedFrame(cfg, shape, byName));
    PatchedKeepsWindow(EMPTY, SeedFrame(cfg, shape, byName));
    OffOnlyStops(EMPTY, SeedFrame(cfg, shape, byName));
  }

  lemma DetectedRunOk(cfg: Config, shape: StepInfo, byName: ByName)
    requires InfoOk(cfg, shape.(currentStep := 0, progress := 0.0)) && AtLeastFloor(byName)
    ensures ShapeOk(cfg, shape.totalSteps, shape.stepRows, shape.stepLabels, shape.stepColors)
    ensures RunOk(cfg, Seeded(Fresh(cfg), shape, byName))
    ensures RunOk(cfg, Seeded(Fresh(cfg), shape, byName).(shapeSent := shape.stepLabels))
  {
  }

  lemma SeedIsOff(cfg: Config, shape: StepInfo, byName: ByName)
    ensures var f := SeedFrame(cfg, shape, byName); f.liveProgress != Some(true) && f.startDate.None? && f.endDate.None?
  {
  }

  lemma EmptyIsPlain(cfg: Config)
    ensures WindowStored(EMPTY) && OptionsOnly(cfg, EMPTY)
  {
  }

  lemma EmptyIsValid()
    ensures Valid(EMPTY)
  {
  }

  lemma SeedShapeOk(cfg: Config, scan: seq<Job>, base: Option<Baseline>)
    requires base.Some? ==> base.value.jobs != []
    ensures InfoOk(cfg, SeedShape(cfg, scan, base).(currentStep := 0, progress := 0.0))
  {
    hide Scan;
    if scan != [] { ScanOk(cfg, scan); }
    if base.Some? { ScanOk(cfg, base.value.jobs); }
  }

  /** What landing a tick's frame does to belief and animation. */
  lemma TickKeepsBelief(cfg: Config, c: Card, run: Run, info: StepInfo, now: Time, landed: bool)
    requires WindowStored(c.server) && Valid(c.server)
    requires c.server.liveProgress == Some(true) ==> run.liveSent && c.owner == run.liveStepName
    ensures var plan := Decide(cfg, run, info, now); var frame := TickFrame(cfg, run, info, plan);
      var server := if landed then Merge(c.server, frame) else c.server;
      var after := if landed then Promote(run, info, plan, now) else run;
      var owner := if landed && plan.anchorChanged then info.currentStepName else c.owner;
      && (frame.startDate.Some? <==> frame.endDate.Some?)
      && (frame.startDate.Some? <==> plan.anchorChanged)
      && (server.liveProgress == Some(true) ==> after.liveSent && owner == after.liveStepName)
      && (landed || !plan.Sends() ==> server.liveProgress == Some(true) ==> owner == info.currentStepName)
  {
    hide Valid, LiveAnchor, ClampRows, ClampLabels, PayloadWeights;
  }

  /** Whether a tick schedules the end instead of sending a frame. */
  predicate Ends(cfg: Config, jobs: seq<Job>, verdict: Verdict) {
    Scan(cfg, jobs).allCompleted && verdict.Over?
  }

  lemma EndingKeepsInv(cfg: Config, c: Card, jobs: seq<Job>, verdict: Verdict, now: Time, delivered: bool)
    requires Inv(cfg, c) && c.phase == OnScreen && jobs != [] && Ends(cfg, jobs, verdict)
    ensures Inv(cfg, TickStep(cfg, c, jobs, verdict, now, delivered))
  {
    hide Valid, WindowStored, FullFrame, WholeLadder, Adopt, Scan, ShapeOk;
    var observed := Scan(cfg, jobs);
    ScanOk(cfg, jobs);
    AdoptOk(cfg, c.run, observed);
    var (adopted, info) := Adopt(c.run, observed);
    FullFrameOk(cfg, info, adopted.stepWeightByName, info.totalSteps, 1.0, verdict.state);
    ClosingTotal(cfg, info, adopted.stepWeightByName, verdict.state);
    assert WholeLadder(cfg, EndFrame(cfg, info, adopted.stepWeightByName, verdict.state), info.totalSteps);
  }

  lemma ClosingTotal(cfg: Config, info: StepInfo, byName: ByName, state: string)
    ensures EndFrame(cfg, info, byName, state).totalSteps == Some(info.totalSteps)
  {
  }

  lemma TickingKeepsInv(cfg: Config, c: Card, jobs: seq<Job>, verdict: Verdict, now: Time, delivered: bool)
    requires Inv(cfg, c) && c.phase == OnScreen && jobs != [] && !Ends(cfg, jobs, verdict)
    ensures Inv(cfg, TickStep(cfg, c, jobs, verdict, now, delivered))
  {
    hide Valid, WindowStored, TickFrame, Decide, Shown, Scan, ShapeOk, Merge, AtLeastFloor, OptionsOnly;
    ShownOk(cfg, c.run, jobs);
    var (adopted, info) := Shown(cfg, c.run, jobs);
    var plan := Decide(cfg, adopted, info, now);
    var frame := TickFrame(cfg, adopted, info, plan);
    var landed := Landed(c.server, frame, delivered);
    TickKeepsBelief(cfg, c, adopted, info, now, landed);
    PatchedKeepsWindow(c.server, frame);
    TickFrameOptions(cfg, adopted, info, plan);
    PatchedKeepsOptions(cfg, c.server, frame);
  }

  lemma WholeLadderOptions(cfg: Config, frame: Content, n: int)
    requires WholeLadder(cfg, frame, n)
    ensures OptionsOnly(cfg, frame)
  {
  }

  lemma OffFrameKeepsInv(cfg: Config, c: Card, frame: Content, delivered: bool)
    requires Inv(cfg, c) && IsClosing(cfg, frame)
    ensures Inv(cfg, c.(server := Apply(c.server, frame, delivered)))
  {
    var n :| WholeLadder(cfg, frame, n);
    hide Valid, WindowStored, Merge, RunOk, ArraysFit, FullArrays, OptionsOnly;
    PatchedKeepsWindow(c.server, frame);
    OffOnlyStops(c.server, frame);
    WholeLadderOptions(cfg, frame, n);
    PatchedKeepsOptions(cfg, c.server, frame);
  }

  lemma NextKeepsInv(cfg: Config, c: Card, e: Event)
    requires Inv(cfg, c)
    ensures Inv(cfg, Next(cfg, c, e))
  {
    hide DetectStep, TickStep, Apply, Valid, RunOk, IsClosing, WindowStored, Scan, Patched, OptionsOnly;
    if Possible(c, e) {
      match e
      case Detect(scan, base, delivered) => DetectKeepsInv(cfg, c, scan, base, delivered);
      case Tick(jobs, verdict, now, delivered) =>
        if Ends(cfg, jobs, verdict) {
          EndingKeepsInv(cfg, c, jobs, verdict, now, delivered);
        } else {
          TickingKeepsInv(cfg, c, jobs, verdict, now, delivered);
        }
      case ClosingFrame(delivered) => OffFrameKeepsInv(cfg, c, c.phase.frame, delivered);
      case Forget =>
      case Stale(frame) =>
        OffFrameKeepsInv(cfg, c, frame, true);
        StaleIsDelivered(c.server, frame);
    }
  }

  lemma StaleIsDelivered(server: Content, frame: Content)
    ensures Apply(server, frame, true) == Patched(server, frame)
  {
  }

  /** In every run of the card, late frames included, the content the server holds
      validates, and the poller's belief covers the server's animation. */
  lemma {:induction false} EveryRunKeepsInv(cfg: Config, events: seq<Event>)
    ensures Inv(cfg, After(cfg, events))
  {
    if events == [] {
      EmptyIsValid();
      EmptyIsPlain(cfg);
    } else {
      EveryRunKeepsInv(cfg, events[..|events| - 1]);
      NextKeepsInv(cfg, After(cfg, events[..|events| - 1]), events[|events| - 1]);
    }
  }

  /** After every tick whose frame landed, or that had nothing to send, a live window on
      the server belongs to the group the tick shows. */
  lemma LiveWindowBelongsToShownGroup(cfg: Config, events: seq<Event>, jobs: seq<Job>, verdict: Verdict, now: Time, delivered: bool)
    requires After(cfg, events).phase == OnScreen && jobs != [] && !Ends(cfg, jobs, verdict)
    requires var c := After(cfg, events); var (run, info) := Shown(cfg, c.run, jobs); var plan := Decide(cfg, run, info, now);
      !plan.Sends() || Landed(c.server, TickFrame(cfg, run, info, plan), delivered)
    ensures var c := After(cfg, events); var c' := Next(cfg, c, Tick(jobs, verdict, now, delivered));
      c'.server.liveProgress == Some(true) ==> c'.owner == Shown(cfg, c.run, jobs).1.currentStepName
  {
    EveryRunKeepsInv(cfg, events);
    hide After, Valid, WindowStored, TickFrame, Decide, Shown, Scan, RunOk, Merge, IsClosing;
    var c := After(cfg, events);
    ShownOk(cfg, c.run, jobs);
    var (adopted, info) := Shown(cfg, c.run, jobs);
    var plan := Decide(cfg, adopted, info, now);
    var frame := TickFrame(cfg, adopted, info, plan);
    TickKeepsBelief(cfg, c, adopted, info, now, plan.Sends() && Landed(c.server, frame, delivered));
  }
}
