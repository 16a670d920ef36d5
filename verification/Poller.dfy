/** shared/cipoll/poller.go: one repo's card, from detection to its closing frames. The
    functions here say what each pass of the loop makes of the tracked run and of the
    content the server holds. */
module Poller {
  import opened Prelude
  import opened Clock
  import opened Steps
  import opened Weights
  import opened Pills
  import opened Server

  /** The options the frames depend on; color is ci.StepColor. */
  datatype Config = Config(stepColors: bool, stepWeights: bool, liveProgress: bool, heartbeat: int, color: string -> string)

  const MAX_RUN_LIFETIME: int := 12 * 3600 * SECOND

  /** The fields of trackedRun that frames are built from and compared against. */
  datatype Run = Run(
    maxTotalSteps: int,
    maxStepRows: seq<int>,
    maxStepLabels: seq<string>,
    maxStepColors: seq<string>,
    stepWeightByName: ByName,
    shapeSent: seq<string>,
    lastProgress: real,
    lastState: string,
    lastCurrentStep: int,
    lastTotalSteps: int,
    lastPatchAt: Time,
    liveStepName: string,
    liveSent: bool)

  /** A run just put under tracking. It assumes an animation is running until a frame
      that says otherwise has landed. */
  function Fresh(cfg: Config): Run {
    Run(0, [], [], [], map[], [], 0.0, "", 0, 0, 0, "", cfg.liveProgress)
  }

  // ---------- Scans and frames ----------

  function Scan(cfg: Config, jobs: seq<Job>): StepInfo {
    var info := Ladder(jobs, cfg.color);
    if cfg.stepColors then info else info.(stepColors := [])
  }

  /** The shape assumed when the jobs endpoint answers nothing. */
  const BARE: StepInfo := StepInfo(1, 0, "", [], [], [], 0, false, false, 0.0)

  /** What a prior run contributes: its jobs' shape and its durations. */
  datatype Baseline = Baseline(jobs: seq<Job>, weights: ByName)

  /** The opening shape: the prior run's wholesale when it has more groups, else the
      live one. */
  function SeedShape(cfg: Config, scan: seq<Job>, base: Option<Baseline>): StepInfo {
    var live := if scan == [] then BARE else Scan(cfg, scan);
    if base.Some? && Scan(cfg, base.value.jobs).totalSteps > live.totalSteps
    then Scan(cfg, base.value.jobs)
    else live
  }

  ghost function PayloadWeights(cfg: Config, total: int, labels: seq<string>, byName: ByName): seq<real> {
    if !cfg.stepWeights then []
    else if |Projected(labels, byName)| == total then Projected(labels, byName)
    else Uniform(total)
  }

  function LiveProgressOff(cfg: Config): Option<bool> {
    if cfg.liveProgress then Some(false) else None
  }

  /** A frame with full content: the seed and both closing frames. */
  ghost function FullFrame(cfg: Config, shape: StepInfo, byName: ByName, current: int, progress: real, state: string): Content {
    Content(Some(TEMPLATE_STEPS), Some(progress), OmitEmpty(state), Some(current), Some(shape.totalSteps),
      OmitEmpty(ClampRows(shape.stepRows)), OmitEmpty(ClampLabels(shape.stepLabels)), OmitEmpty(shape.stepColors),
      OmitEmpty(PayloadWeights(cfg, shape.totalSteps, shape.stepLabels, byName)),
      LiveProgressOff(cfg), None, None)
  }

  ghost function SeedFrame(cfg: Config, shape: StepInfo, byName: ByName): Content {
    FullFrame(cfg, shape, byName, 0, 0.0, "Starting...")
  }

  ghost function EndFrame(cfg: Config, info: StepInfo, byName: ByName, state: string): Content {
    FullFrame(cfg, info, byName, info.totalSteps, 1.0, state)
  }

  function Seeded(run: Run, shape: StepInfo, byName: ByName): Run {
    run.(maxTotalSteps := shape.totalSteps, maxStepRows := shape.stepRows, maxStepLabels := shape.stepLabels,
         maxStepColors := shape.stepColors, stepWeightByName := byName)
  }

  // ---------- One tick ----------

  /** The clamp: more groups, or as many under other labels, replace the tracked shape;
      fewer are shown on it, the current step carried across by name. */
  function Adopt(run: Run, info: StepInfo): (Run, StepInfo) {
    if info.totalSteps > run.maxTotalSteps || (info.totalSteps == run.maxTotalSteps && info.stepLabels != run.maxStepLabels) then
      (run.(maxTotalSteps := info.totalSteps, maxStepRows := info.stepRows, maxStepLabels := info.stepLabels,
            maxStepColors := info.stepColors),
       info)
    else if info.totalSteps < run.maxTotalSteps then
      (run,
       info.(currentStep := RealignStep(info.currentStep, info.stepLabels, run.maxStepLabels),
             totalSteps := run.maxTotalSteps, stepRows := run.maxStepRows, stepLabels := run.maxStepLabels,
             stepColors := run.maxStepColors))
    else (run, info)
  }

  /** The first label the observed scan does not name is the wave to come. */
  function NextWave(labels: seq<string>, observed: seq<string>): Option<nat> {
    FirstIndex(labels, (l: string) => l !in observed)
  }

  function BetweenWaves(info: StepInfo, observed: StepInfo, lastProgress: real): StepInfo {
    var next := NextWave(info.stepLabels, observed.stepLabels);
    info.(allCompleted := false,
          currentStepName := QUEUED_STEP_NAME,
          currentStepStartedAt := 0,
          currentStep := if next.Some? then next.value + 1 else info.totalSteps,
          progress := lastProgress)
  }

  /** What a tick shows when it does not end the run. */
  function Shown(cfg: Config, run: Run, jobs: seq<Job>): (Run, StepInfo) {
    var observed := Scan(cfg, jobs);
    var (adopted, info) := Adopt(run, observed);
    (adopted, if info.allCompleted then BetweenWaves(info, observed, adopted.lastProgress) else info)
  }

  datatype Plan = Plan(
    shapeChanged: bool,
    scalarChanged: bool,
    heartbeatDue: bool,
    anchorChanged: bool,
    clearLive: bool,
    anchor: Anchor)
  {
    predicate Sends() { shapeChanged || scalarChanged || heartbeatDue || anchorChanged || clearLive }
  }

  ghost function Decide(cfg: Config, run: Run, info: StepInfo, now: Time): Plan {
    var anchor := LiveAnchor(info, run.stepWeightByName, now, MAX_RUN_LIFETIME);
    var wantLive := cfg.liveProgress && anchor.Window?;
    Plan(
      run.shapeSent != run.maxStepLabels,
      IsZero(run.lastPatchAt) || info.progress != run.lastProgress || info.currentStepName != run.lastState
        || info.currentStep != run.lastCurrentStep || info.totalSteps != run.lastTotalSteps,
      !IsZero(run.lastPatchAt) && now - run.lastPatchAt >= cfg.heartbeat,
      wantLive && (!run.liveSent || info.currentStepName != run.liveStepName),
      run.liveSent && !wantLive && info.currentStepName != run.liveStepName,
      anchor)
  }

  ghost function TickFrame(cfg: Config, run: Run, info: StepInfo, plan: Plan): Content {
    var shape := plan.shapeChanged;
    Content(None, Some(info.progress), Some(info.currentStepName), Some(info.currentStep), Some(info.totalSteps),
      if shape then OmitEmpty(ClampRows(info.stepRows)) else None,
      if shape then OmitEmpty(ClampLabels(info.stepLabels)) else None,
      if shape then OmitEmpty(info.stepColors) else None,
      if shape then OmitEmpty(PayloadWeights(cfg, info.totalSteps, info.stepLabels, run.stepWeightByName)) else None,
      if plan.anchorChanged then Some(true) else if plan.clearLive then Some(false) else None,
      if plan.anchorChanged && plan.anchor.Window? then Some(plan.anchor.start) else None,
      if plan.anchorChanged && plan.anchor.Window? then Some(plan.anchor.end) else None)
  }

  /** What the run remembers once a tick's frame has landed. */
  function Promote(run: Run, info: StepInfo, plan: Plan, now: Time): Run {
    run.(shapeSent := if plan.shapeChanged then run.maxStepLabels else run.shapeSent,
         lastProgress := info.progress,
         lastState := info.currentStepName,
         lastCurrentStep := info.currentStep,
         lastTotalSteps := info.totalSteps,
         lastPatchAt := now,
         liveStepName := if plan.anchorChanged then info.currentStepName else if plan.clearLive then "" else run.liveStepName,
         liveSent := if plan.anchorChanged then true else if plan.clearLive then false else run.liveSent)
  }
}
