# PushWard integrations in Dafny

A Dafny model of the stateful core of the PushWard integration bridges, with proofs of what its
code and its comments promise. Every file models one part of the program and says which in its
first comment.

| files | part of the program |
|---|---|
| `Json`, `Server` | the PushWard server the bridges talk to: RFC 7396 merge, validation, one activity |
| `Poller`, `Card`, `CardSync`, `CardLimits`, `CardShows`, `CardTicks`, `CardLate`, `PollLoop` | the CI poller: what each pass makes of a tracked run, one repo's card as a state machine over client and server, what the server accepts, what it then shows, what a tick says of its jobs, what late frames change of that, and the loop's own field updates |
| `Baselines` | what a prior run contributes to the next one |
| `Timers`, `TwoPhaseEnd` | the timer group, and the two-phase end over it with fire, send, check and re-arm as separate steps |
| `JobNames`, `Steps`, `Busy`, `Weights`, `Pills` | the steps ladder: grouping, busy time, weights, and the live window |
| `Resolver`, `Recency` | the artwork cache: an intrusive doubly linked LRU, a map and single-flight fills |
| `Breaker`, `Retry` | the circuit breaker under many calls, and the retry loop that reports to it |
| `SeedCache` | the bounded cache of finished runs |
| `Fit` | shortening a notification to fit one sealed envelope |
| `LogStream`, `Ledger`, `Backrest` | the Backrest bridge: framed log stream, and its tracked/done bookkeeping |
| `Widgets`, `SeriesWidgets` | the scalar and the multi-series widget loops |
| `TaskJoin` | the paged task join of the Forgejo bridge |
| `Prelude`, `Clock` | shared vocabulary |

Code that updates state is a class whose methods are tied to a function on values (`View() == F(old(View()))`);
the claims over whole runs are lemmas about those functions, over every sequence of events.

## Where the code falls short of its comments

Each of these is kept as the code has it, and given a concrete input and an exact condition.

- A closing frame of a superseded run that was already being sent can land on the new run's card.
  If its ladder has another length, every tick is rejected until the new run's ladder changes
  (`CardSync.TickAfterLateFrame`, `CardSync.LateFrameWedgesARun`). It can also let the stored total fall
  (`CardLate.ALateFrameLetsTheTotalFall`, `CardLate.WhenTheTotalFalls`) and stay on the card until the next tick
  that sends (`CardLate.ALateFrameStaysShown`, `CardLate.WhenATickIsShown`).
- Rows are re-sent only when the labels change, so a shard added to a group already on the card does not reach
  it before the closing frame (`CardShows.RowsCanGoStale`, `CardShows.WhenTheRowsAreShown`). In runs without a
  late frame everything else a tick says is shown (`CardShows.EveryTickIsShown`).
- A tick's state line is not clamped: a group name over 256 runes makes the tick unacceptable, and
  so does a window starting at the Unix epoch or before (`CardLimits.LongNamesAreRefused`,
  `CardLimits.EpochClocksAreRefused`, `CardSync.EveryTickAccepted`).
- The phase-2 cleanup of the CI poller identifies a run by its id, which a re-run keeps, so a late
  one can take a live re-run off the card (`TwoPhaseEnd.CleanupDropsSameId`, `TwoPhaseEnd.RerunCanLoseItsCard`).
  If the re-run has a pending end of its own, the next run gets the card without that end being closed
  (`TwoPhaseEnd.OnlyStrayCleanupsBreakIt`, `TwoPhaseEnd.AnEndCanOutliveItsCard`).
- The phase-2 cleanup of the Backrest bridge drops whatever record its operation id has by then, so an
  operation can be seeded twice (`Ledger.StrayIsTheOnlyHarm`, `Ledger.ACardCanBeSeededTwice`).
- The comment says only 5xx and network exhaustion count as a fault; so do any other retried replies, an
  unresolved 409 included (`Retry.WhenACallIsAFault`, `Retry.AConflictCanBeAFault`). No handler in the client leaves a 409 unresolved.
- A failed update on a series with misses counted keeps them, so misses that drop it need not be consecutive
  (`SeriesWidgets.FailedUpdatesKeepTheMisses`, `SeriesWidgets.WhenMissesAreConsecutive`, `SeriesWidgets.WhenADropIsEarned`).
- An operation whose create landed but whose opening frame did not counts as one that was never created: when it
  leaves the query window its activity is not closed (`Ledger.ACardCanBeLeftUp`, `Ledger.WhenAVanishedCardIsClosed`).
- The walk over task pages counts a job without a task id if a row has id zero
  (`TaskJoin.ZeroIdsWouldStopItEarly`, `TaskJoin.CountMeansAllJoined`).

## Conventions

Times are whole nanoseconds since Go's zero time, zero meaning "not stamped"; floats are reals, so rounding
is outside the model. What the program reads from the world - scans, replies, delivery of a send, jitter, map
iteration order - is a parameter, and a send is applied or not applied at all. Strings of the ladder are
sequences of code points. JSON sizes in `Fit` follow Go's `encoding/json` with HTML escaping off.

## Model

| member | source | states |
|---|---|---|
| Json.MergePatch | shared/testutil/testutil.go:1134-1149 | the in-place merge over an unordered map is section 2 of RFC 7396, nested objects and deletions included |
| Json.MergeIdempotent | shared/testutil/testutil.go:1134-1149 | a patch that landed changes nothing when it lands again, at any depth |
| Json.MergeKeepsNullFree | shared/testutil/testutil.go:1131-1149 | null only ever deletes: a stored document free of nulls stays free of them |
| Server.MergeIsRfc7396 | shared/testutil/testutil.go:1134-1149 | the member-by-member merge of typed contents is exactly the RFC 7396 merge of their wire forms |
| Server.MergeTwice | shared/testutil/testutil.go:1134-1149 | a frame that landed may be sent again without effect |
| Server.ValidateSteps | shared/testutil/testutil.go:1462-1509 | the checking loops accept exactly the contents whose arrays are absent or total_steps long with every entry in bounds and current_step in 0..total_steps |
| Server.ValidateContent | shared/testutil/testutil.go:1180-1195 | accepts exactly the contents whose progress, state, window and (under the steps template) ladder are in bounds |
| Server.Activity.Patch | shared/testutil/testutil.go:502-560 | a PATCH is accepted exactly when the merged content validates; otherwise what is stored stays |
| Server.Activity.Create | shared/testutil/testutil.go:489-501 | creating an activity starts its stored content over |
| Server.ClampStepShape | shared/pushward/types.go:76-110 | rows are brought to the nearest of 1..10 and labels cut to their first 32 runes, lengths kept |
| Card.EveryRunKeepsInv | shared/cipoll/poller.go:495-1247 | over every run of detections, ticks, gaps, ends, failed sends and late frames, a live window on the server is one the poller believes it sent for that group (that the stored content validates is the check of the server itself; the weight is on the belief) |
| Card.LiveWindowBelongsToShownGroup | shared/cipoll/poller.go:1136-1172 | after every tick that landed or had nothing to send, a live window on the server belongs to the group the tick shows |
| CardSync.EveryRunStaysSynced | shared/cipoll/poller.go:977-1031 | in every run without a late frame the belief about the ladder is right: the server holds none, or a valid one no longer than the tracked one and of the length last sent |
| CardSync.EveryTickAccepted | shared/cipoll/poller.go:1155-1237 | in every run without a late frame the merge of the next tick passes validateSteps, at the tracked total; the server accepts it exactly when its state line is at most 256 runes and its window starts after the epoch |
| CardLimits.LongNamesAreRefused | shared/cipoll/poller.go:1139-1160 | the failing input, a run whose one group has a name over 256 runes: its tick is sent and refused |
| CardLimits.EpochClocksAreRefused | shared/ci/anchor.go:68-115 | the failing input, a host whose clock reads the Unix epoch or before while the forge stamps the job later: the window it anchors starts at its own clock, and the tick is sent and refused |
| CardSync.ServerLadderAlwaysValid | shared/testutil/testutil.go:1462-1509 | at every moment of every run, late frames, gaps and forgotten runs included, the stored ladder is absent or valid |
| CardSync.SeedAccepted | shared/cipoll/poller.go:641-689 | a seed on a fresh activity is always accepted and leaves a valid ladder |
| CardSync.ClosingAccepted | shared/cipoll/poller.go:1099-1127 | a closing frame is accepted whatever the server holds, exactly when its state fits |
| CardSync.TotalNeverFalls | shared/cipoll/poller.go:988-1012 | in runs without a late frame the stored total_steps never falls while one run is on screen |
| CardLate.WhenTheTotalFalls | shared/cipoll/poller.go:988-1012 | in every run, late frames included: an event after the detection lowers the stored total exactly when it is a frame that lands over a longer ladder - a late or closing frame whose state fits, or an accepted tick that re-sends the labels |
| CardLate.ALateFrameLetsTheTotalFall | shared/cipoll/poller.go:545-563 | a concrete run in which a late frame raises the total and the next tick of the run on screen lowers it again |
| CardSync.TickAfterLateFrame | shared/cipoll/poller.go:545-563 | after a closing frame of a superseded run lands late, the next tick is accepted exactly when it re-sends the ladder or the late ladder has the same length |
| CardSync.WedgedUntilTheLadderChanges | shared/cipoll/poller.go:1155-1237 | once such a frame has landed with another length, every tick that keeps the ladder is rejected and the card stands still |
| CardSync.LateFrameWedgesARun | shared/cipoll/poller.go:545-563 | a concrete three-event run of the loop in which the late frame does wedge the new card |
| CardSync.OneAnchorPerStretch | shared/cipoll/poller.go:1162-1172 | an unbroken stretch of ticks on one group lands at most one anchor |
| CardShows.EveryTickIsShown | shared/cipoll/poller.go:1155-1244 | in runs without a late frame, a tick that landed or had nothing to send leaves the server showing its progress, state, current step, total and labels, and the card not silent for a heartbeat |
| CardLate.WhenATickIsShown | shared/cipoll/poller.go:1155-1244 | after any run at all, late frames included, such a tick is shown as to its scalars exactly when it sends or the last frame to land said the same, and as to its labels and its rows exactly when it re-sends the ladder or those of the last ladder to land clamp to the same |
| CardLate.EveryRunKeepsWhatWasSaid | shared/cipoll/poller.go:495-1247 | in every run the server holds the scalars and the ladder last said to it, by a seed, a tick, a closing frame or a late one |
| CardLate.ALateFrameIsTheLastWord | shared/cipoll/poller.go:545-563 | a late frame that lands is what was last said |
| CardLate.ALateFrameStaysShown | shared/cipoll/poller.go:545-563 | a concrete run in which the next tick has nothing to send and the progress and state of the old run stay on the card |
| CardLate.EveryRunIsOwnOrLate | shared/cipoll/poller.go:495-1247 | in every run the card is in step with its own ladder or holds a whole frame of a superseded run |
| CardShows.WhenTheRowsAreShown | shared/cipoll/poller.go:1182-1196 | after a run without a late frame and a tick that landed or had nothing to send, the server shows the rows of the tick exactly when the tick re-sends the ladder or they clamp to those of the last ladder that landed |
| CardShows.RowsCanGoStale | shared/cipoll/poller.go:1182-1196 | a concrete run in which a shard added to a shown group does not reach an accepted tick |
| CardTicks.TickShowsLadder | shared/cipoll/poller.go:977-1028 | a tick shows the ladder of its scan unless the run has had a longer one, and that is what is tracked: labels, total and jobs per group |
| CardTicks.TickPointsAtTheGroup | shared/cipoll/poller.go:1005-1028 | while a job is unfinished the state line names the group to highlight, or says queued, and the step is the place of that group in the ladder shown, wherever it stood in the scan; a group that ladder does not have keeps its place |
| CardTicks.CardPointsAtTheGroup | shared/cipoll/poller.go:977-1244 | after a tick that landed or had nothing to send, in runs without a late frame, the label on the card at its current step is the name of the group to highlight, which the state line says while it runs |
| CardTicks.TickStartsWithTheGroup | shared/ci/steps.go:140-161 | the countdown starts from the earliest start any job of that group has |
| CardTicks.TickBetweenWaves | shared/cipoll/poller.go:751-764 | between waves a tick says queued, keeps its progress and points at the first group of the ladder shown that no job has |
| CardTicks.TickProgress | shared/ci/steps.go:163-166 | the progress of a tick is the share of its jobs that are finished |
| CardTicks.SameJobsAreSilent | shared/cipoll/poller.go:1139-1180 | once a tick has landed or had nothing to send, the same jobs send nothing until a heartbeat is due, and do then |
| CardTicks.AnimationIsSettled | shared/cipoll/poller.go:1139-1180 | with live progress on, once a tick of a run has landed the server has been told whether to animate |
| CardTicks.DurationsAreTheBaselines | shared/cipoll/poller.go:641-689 | every tick draws and times with the durations that the detection of its run took over |
| CardTicks.PillsAreSent | shared/cipoll/poller.go:818-826 | a full frame carries one pill per label: the weight of its group, the mean where there is none, even pills where there are none at all |
| CardTicks.TickPillsAreSent | shared/cipoll/poller.go:1182-1196 | a tick carries the same pills exactly when it re-sends its labels |
| CardTicks.OpeningLadder | shared/cipoll/poller.go:606-640 | the card opens on the prior ladder when that has more groups, else on the scan, else on a bare step |
| CardTicks.ClosingFrameSaysItAll | shared/cipoll/poller.go:1096-1130 | the end is scheduled exactly when every job is done and the run is over, with a frame that says progress 1, the last step of the ladder shown, the outcome and no countdown |
| CardTicks.ClosedCardIsDone | shared/cipoll/poller.go:1270-1296 | and once such a frame has landed that is what the server holds |
| PollLoop.ScanJobs | shared/cipoll/poller.go:769-775 | the scan is the ladder of the jobs, without colors when they are off |
| PollLoop.ComputePayloadWeights | shared/cipoll/poller.go:818-826 | the weights sent are the projection when it has the right length, else uniform ones |
| PollLoop.ComputeBetweenWaves | shared/cipoll/poller.go:751-764 | between waves the card waits on the first seeded group the scan does not name, holding its progress |
| PollLoop.ComputePlan | shared/cipoll/poller.go:1139-1180 | a tick sends when the ladder, a scalar or the anchored group changed, a heartbeat is due, or a stale window must be cleared - and only then |
| PollLoop.ChooseShape | shared/cipoll/poller.go:606-632 | the opening shape is the prior run wholesale when it has more groups, else the live scan |
| PollLoop.RepoCard.Detect | shared/cipoll/poller.go:540-697 | detecting a run takes the card exactly one detection step of the state machine; a create that fails leaves it empty, the superseded end closed all the same |
| PollLoop.RepoCard.Seed | shared/cipoll/poller.go:634-697 | the opening frame, and what is remembered of it once it landed |
| PollLoop.RepoCard.AdoptScan | shared/cipoll/poller.go:977-1028 | the clamp: more groups or other labels replace the tracked shape, fewer are shown on it |
| PollLoop.RepoCard.SendTick | shared/cipoll/poller.go:1136-1244 | the end of a tick sends what changed and remembers it only once it landed |
| PollLoop.RepoCard.PollActive | shared/cipoll/poller.go:922-1247 | one pass over a tracked run: evicted by silence or age, left alone when its jobs cannot be read or there are none, else exactly one tick of the state machine, filed when it ended |
| PollLoop.RepoCard.TickOnce | shared/cipoll/poller.go:967-1247 | a tick over jobs that were read is one step of the state machine |
| PollLoop.FileSeed | shared/cipoll/poller.go:1063-1096 | a run that ended is filed under its workflow and ref with the shape as scanned, what was measured if timings are wanted, its length from the best stamp there is, and its outcome |
| PollLoop.RepoCard.SendClosing | shared/cipoll/poller.go:1270-1296 | either closing frame takes the card exactly one closing step |
| Timers.TimerGroup.Reset | shared/syncx/timergroup.go:24-43 | re-arming is the specified transition, a no-op once closed |
| Timers.ResetArms | shared/syncx/timergroup.go:24-43 | re-arming an open group leaves one new callback pending and forgets none that runs |
| Timers.TimerGroup.Stop | shared/syncx/timergroup.go:61-65 | cancels a pending callback and balances its count |
| Timers.TimerGroup.Close | shared/syncx/timergroup.go:71-76 | as Stop, and for good |
| Timers.EveryRunKeepsInv | shared/syncx/timergroup.go:24-76 | in every run the wait group equals the callbacks pending or running, never goes negative, and at most one callback is pending |
| Timers.NothingArmsAfterClose | shared/syncx/timergroup.go:67-76 | after Close nothing is armed again whatever races with it; what runs later ran already at Close |
| Timers.WaitReturnsWhenTheFiredFinish | shared/syncx/timergroup.go:78-82 | on a closed group Wait returns exactly when the callbacks running at Close have returned |
| TwoPhaseEnd.EveryRunKeepsInv | shared/cipoll/poller.go:1249-1315 | every interleaving of the poll goroutine with the phase goroutines keeps each run at the stage its record says, and its timer group sound |
| TwoPhaseEnd.FramesInOrder | shared/cipoll/poller.go:1249-1315 | each tracked run sends one seed, ticks, one final ONGOING and at most one ENDED in that order, and no tick once its end is scheduled |
| TwoPhaseEnd.OnlyFiredCallbacksOutliveClose | shared/cipoll/poller.go:545-563 | after a run is superseded or shut down none of its phases fires, and a frame still sent comes from a callback that had fired before the close |
| TwoPhaseEnd.NewerRunClosesTheOlder | shared/cipoll/poller.go:545-563 | in every run without a stray cleanup an older run with a pending end was closed, or saw it through, before a newer one has the card |
| TwoPhaseEnd.OnlyStrayCleanupsBreakIt | shared/cipoll/poller.go:1305-1311 | a step breaks that exactly when it is a stray cleanup: of a run whose re-run has the card and a pending end of its own |
| TwoPhaseEnd.AnEndCanOutliveItsCard | shared/cipoll/poller.go:1305-1311 | a reachable state behind a stray cleanup: a fourth run has the card while the group of the third was never closed and its first phase is still armed |
| TwoPhaseEnd.CleanupDropsSameId | shared/cipoll/poller.go:1305-1311 | the phase-2 cleanup takes the tracked run off the card exactly when the ids are equal |
| TwoPhaseEnd.RerunCanLoseItsCard | shared/cipoll/poller.go:1305-1311 | a reachable state in which that cleanup takes a live re-run off the card |
| TwoPhaseEnd.PickRun | shared/cipoll/poller.go:521-541 | the idle pass picks the run created last among those that are not the attempt last closed |
| TwoPhaseEnd.TheClosedAttemptIsNotRevived | shared/cipoll/state.go:95-119 | after any run of the loop, a run that comes under tracking with the id of the attempt last closed began later than that is recorded to have begun, or waits to begin where it had begun |
| TwoPhaseEnd.WhenARunIsPicked | shared/cipoll/poller.go:500-565 | and nothing else is kept off: found and created, a run is tracked exactly when none is on screen, a pending end is of another id, and it is not that attempt; the pending end is then closed |
| TwoPhaseEnd.LastEndedSawItsEnd | shared/cipoll/poller.go:1303-1311 | the attempt kept as last closed is that of a tracked run whose ENDED was sent |
| TwoPhaseEnd.HowAnEndIsArmed | shared/cipoll/poller.go:1249-1303 | an end starts with one phase armed; between the phases it goes on exactly while the tracked run has its id, and arms the second unless closed |
| TwoPhaseEnd.EvictionFreesTheCard | shared/cipoll/poller.go:930-950 | an eviction frees the card for the next run found |
| JobNames.IndexFrom | shared/ci/steps.go:230-241 | the first occurrence of a pattern |
| JobNames.LastIndexUpTo | shared/ci/steps.go:230-241 | the last occurrence of a pattern |
| JobNames.MatrixShardsShareAGroup | shared/ci/steps.go:223-241 | every shard of a matrix called through a reusable workflow has the bare job name as its group |
| JobNames.PlainNamesAreGroups | shared/ci/steps.go:223-241 | a name without caller and parameters is its own group, called or not |
| Steps.ComputeSteps | shared/ci/steps.go:90-185 | the grouping and highlight passes compute the ladder defined group by group |
| Steps.GroupJobs | shared/ci/steps.go:109-134 | the pass over a name index yields one record per group, in first-seen order |
| Steps.Highlight | shared/ci/steps.go:140-161 | the highlight pass finds the first running named group, else the first unfinished one |
| Steps.LadderPartitionsTheJobs | shared/ci/steps.go:109-151 | labels are distinct and cover every job, rows count each group and sum to the job count |
| Steps.LabelsInFirstSeenOrder | shared/ci/steps.go:109-117 | labels come in the order their groups are first seen |
| Steps.LadderHighlight | shared/ci/steps.go:140-161 | current_step is the first group with a running job (blank names aside), else the first unfinished one, else 0 |
| Steps.LadderProgress | shared/ci/steps.go:163-166 | progress lies in 0..1 and is 1 exactly when every job has completed |
| Steps.LadderFailsAndColors | shared/ci/steps.go:119-151 | a run has failed so far when a finished job ended neither well nor skipped nor unknown; each step has the color of its group |
| Steps.RealignKeepsTheGroup | shared/ci/steps.go:250-258 | a moved index names the same group whenever the target list has it |
| Busy.BusyTime | shared/ci/weights.go:84-116 | sort and sweep return the measure of the union of the normalised intervals, and fail exactly when there is nothing to sum |
| Busy.Sweep | shared/ci/weights.go:105-115 | the sweep over sorted intervals measures their union |
| Busy.SortByStart | shared/ci/weights.go:104 | sorting by start keeps the intervals |
| Busy.MeasureIgnoresOrder | shared/ci/weights.go:84-116 | the measure of a union does not depend on the order of the intervals |
| Busy.MeasureBounds | shared/ci/weights.go:84-116 | it lies between the longest interval and the sum of the lengths |
| Busy.MeasureWithin | shared/ci/weights.go:84-116 | it is at most last minus first |
| Weights.GroupWeights | shared/ci/weights.go:37-69 | one floored busy time for each group that can be timed, and none for the others |
| Weights.MeasuredIgnoresOrder | shared/ci/weights.go:57-69 | the weights do not depend on the order of the jobs |
| Weights.WhichGroupsAreMeasured | shared/ci/weights.go:57-69 | a group has a weight exactly when some shard of it, missing stamps filled in from the group, counts an interval that does not run backwards |
| Weights.MeasuredIsBusyTime | shared/ci/weights.go:57-116 | that weight is the number of seconds at which at least one of its shards counts, at least 1 |
| Weights.WeightBounds | shared/ci/weights.go:57-116 | so it is no less than any stamped shard took, and past the floor no more than the sum of its intervals or its outer span |
| Weights.BusyTimeBounds | shared/ci/weights.go:84-116 | a group is busy at least as long as any of its shards, at most their sum and at most its outer span |
| Pills.EvenWeights | shared/ci/weights.go:201-215 | the even split, or none when it would not clear the floor |
| Pills.FillWeights | shared/ci/weights.go:171-195 | measured weights clamped to the run and the rest filled with its even share, with the source named |
| Pills.FillBounds | shared/ci/weights.go:171-195 | every filled weight is at least 1 and, for a run over a second, at most the run |
| Pills.WhatFillingKeeps | shared/ci/weights.go:171-195 | weight by weight: a measurement within the run is kept, a longer one is cut to the run, a label without one gets the even share, nothing else is added |
| Pills.MeanWeight | shared/ci/weights.go:221-235 | the mean of the weights, floored |
| Pills.MeanBetween | shared/ci/weights.go:221-235 | the mean lies between the least and the greatest weight |
| Pills.MeanIsTheAverage | shared/ci/weights.go:221-235 | it is their average, whatever listing of the groups they are added up along |
| Pills.ProjectWeights | shared/ci/weights.go:248-262 | each label gets its own weight, or the mean |
| Pills.ProjectedAtLeastFloor | shared/ci/weights.go:248-262 | every projected weight is at least 1 |
| Pills.UniformWeights | shared/ci/weights.go:280-289 | n weights at the floor |
| Baselines.BaselineShape | shared/cipoll/poller.go:844-911 | a prior run contributes in this order: the cached one with its weights (or alone, when timings are not wanted), the first rung of the forge that answers, the cached shape alone, nothing; without a cache key nothing is asked |
| Baselines.AskForge | shared/cipoll/poller.go:866-896 | the rungs are asked in order and the first that answers wins |
| Baselines.ReadSeed | shared/cipoll/poller.go:851-862 | a cached run contributes its filled weights when it was measured or an even share clears the floor |
| Baselines.WhenTheCacheIsEnough | shared/cipoll/poller.go:851-862 | a cached run is enough when timings are not read, when it was measured, or when its length can be split |
| Baselines.WhatTheForgeContributes | shared/cipoll/poller.go:896-911 | a run from the forge brings the ladder of its jobs and the weight measured for each group |
| Baselines.EveryBaselineIsFloored | shared/cipoll/poller.go:844-911 | whichever of them answers, no baseline carries a weight below 1 |
| Baselines.EveryCachedSeedIsFloored | shared/cipoll/cache.go:46-48 | after any sequence of puts of measured runs no cached weight is below 1 |
| Baselines.BaselineWeightsAtLeastFloor | shared/ci/weights.go:153-155 | weights measured and filled over any labels are at least 1 |
| Baselines.TheLoopFiles | shared/cipoll/poller.go:1063-1096 | an active pass files a run exactly when it ended, as the ladder of its jobs with what was measured of them |
| Baselines.EveryCachedSeedHasJobs | shared/cipoll/cache.go:92-118 | after any puts of the loop every cached ladder is that of some jobs |
| Baselines.EveryBaselineFitsTheCard | shared/cipoll/poller.go:641-689 | whatever is contributed, from a cache the loop has filled or from the forge, opens the card as the ladder of some jobs would, and is a possible detection of the card |
| Pills.ComputeAnchor | shared/ci/anchor.go:68-115 | the branches of the anchor compute the specified window or decline |
| Pills.PillAndCountdownAgree | shared/ci/anchor.go:68-115 | the window is as long as the pill drawn for that label, capped and rounded |
| Pills.WindowIsAhead | shared/ci/anchor.go:104-114 | a window starts no later than now and ends more than five seconds ahead, counted in nanoseconds from the anchor |
| Pills.AnchorDeclines | shared/ci/anchor.go:68-115 | a started, measured group is declined exactly when its estimate is spent |
| Resolver.Resolver.PushFront | shared/poster/poster.go:488-498 | linking in front of a well-formed list |
| Resolver.Resolver.Unlink | shared/poster/poster.go:508-520 | splicing an entry out of a well-formed list |
| Resolver.Resolver.MoveToFront | shared/poster/poster.go:500-506 | moving an entry to the front keeps the list well-formed |
| Resolver.Resolver.Evict | shared/poster/poster.go:525-531 | dropping from the back until the cache fits, in list and map alike |
| Resolver.Resolver.Lookup | shared/poster/poster.go:312-338 | every lookup is one use of a bounded recency list over the keys; it joins a pending fill; it returns a settled entry without a fill exactly when that found a hash, or was refused or failed less than NEGATIVE_TTL ago; else it starts one fill |
| Resolver.Resolver.Serve | shared/poster/poster.go:316-331 | the same of an entry at hand |
| Resolver.Resolver.Settle | shared/poster/poster.go:346-374 | a fill settles its entry, evicted or not, with the expiry its outcome calls for |
| Resolver.Resolver.CloseDone | shared/poster/poster.go:376 | no channel is ever closed twice |
| Resolver.OneFillPerPendingEntry | shared/poster/poster.go:312-378 | in every valid state an entry is pending exactly when one fill runs for it, and only one |
| Resolver.WhatSettledEntriesAnswer | shared/poster/poster.go:358-374 | in every valid state, for any entry cached or evicted: a hash never expires, a timeout never answers, and a refusal or a failure answers for NEGATIVE_TTL and no longer |
| Resolver.LinkedInFront | shared/poster/poster.go:488-498 | the link writes of a push leave one acyclic doubly linked list |
| Resolver.LinkedWithout | shared/poster/poster.go:508-520 | the link writes of a removal leave one acyclic doubly linked list |
| Recency.LruHoldsTheMostRecent | shared/poster/poster.go:312-338 | after any history of uses a bounded move-to-front list holds exactly the most recently used keys |
| Recency.MostRecentIsByLastUse | shared/poster/poster.go:312-338 | and lists them by their last use |
| Breaker.CircuitBreaker.Allow | shared/pushward/breaker.go:57-73 | admits, and moves an expired open circuit to half-open, as specified |
| Breaker.CircuitBreaker.RecordSuccess | shared/pushward/breaker.go:77-83 | closes the circuit and clears the streak |
| Breaker.CircuitBreaker.RecordReachable | shared/pushward/breaker.go:93-101 | closes a half-open circuit and leaves a closed streak alone |
| Breaker.CircuitBreaker.RecordFailure | shared/pushward/breaker.go:104-119 | counts towards the threshold, or re-opens a half-open circuit |
| Breaker.CircuitBreaker.Abort | shared/pushward/breaker.go:130-138 | re-arms a half-open circuit |
| Breaker.CircuitBreaker.Blocking | shared/pushward/breaker.go:152-163 | reports exactly whether Allow would refuse |
| Breaker.EveryInterleaving | shared/pushward/breaker.go:57-138 | for any interleaving of calls and a threshold of at least one: every admitted call has reported once or is in flight, closed exactly while the failures are short of the threshold and then equal to the streak reported, half-open only with the probe in flight, and an opening and the probes after it with no close between more than the cooldown apart |
| Breaker.OpenRefusesForTheCooldown | shared/pushward/breaker.go:57-119 | after the report that opens the circuit, from closed or half-open, nobody is admitted for the cooldown unless a success is reported, whoever else reports; the next call is admitted exactly once it has passed, as a probe |
| Breaker.WhenItCloses | shared/pushward/breaker.go:77-101 | a closed circuit admits everybody; another closes on a report exactly when it is a success, or the reply a half-open one waits for |
| Breaker.OpensOnTheThreshold | shared/pushward/breaker.go:104-114 | a closed circuit opens exactly on the report that brings the streak of failures since the last success to the threshold; reachable outcomes neither add nor clear |
| Breaker.NeverWedged | shared/pushward/breaker.go:121-138 | after any run one report and one cooldown at most stand between the breaker and admitting again |
| Breaker.OneProbeAtATime | shared/pushward/breaker.go:61-72 | a half-open circuit admits nobody until somebody reports |
| Breaker.ThresholdMatters | shared/pushward/breaker.go:48-54 | closed means short of the threshold in every run if and only if the threshold is at least one |
| Breaker.LowThresholdsActAsOne | shared/pushward/breaker.go:104-114 | a threshold below one behaves as a threshold of one in every run |
| Retry.BoundedDelay | shared/pushward/client.go:32-40 | count times unit cut to two minutes, the product never formed beyond the bound |
| Retry.ThrottleDelay | shared/pushward/client.go:73-79 | at most two minutes; the header rules, then the problem body |
| Retry.Attempted | shared/pushward/client.go:205-382 | every way out of the loop makes exactly one report, and which one is fixed by the replies |
| Retry.DoWithRetry | shared/pushward/client.go:192-382 | a call reports once if the breaker admitted it and never otherwise, after at most five attempts |
| Retry.OneEnding | shared/pushward/client.go:224-382 | result, report and number of attempts are determined by what the world answered |
| Retry.SleepIsBounded | shared/pushward/client.go:222-250 | time asleep stays within the retry budget, and within four full waits without one |
| Retry.WaitsAsAsked | shared/pushward/client.go:224-229 | a hint is waited out exactly; without one the wait is between half of and a whole base that doubles from one second |
| Retry.WhatAHintIs | shared/pushward/client.go:32-79 | what a throttled reply has the call wait, by header and body; any other wait is half the base of the attempt and the jitter |
| Retry.ScheduleWithoutHints | shared/pushward/client.go:222-229 | five attempts without hints sleep between 7.5 and 15 seconds |
| Retry.WhenACallIsAFault | shared/pushward/client.go:368-381 | a call counts against the breaker exactly when it ran out of retries or budget on something other than throttling |
| Retry.WhenACallGoesOn | shared/pushward/client.go:262-368 | a call goes on exactly while replies worth another attempt come back and attempts, budget and patience last; every other reply ends it with its own result |
| Retry.AConflictCanBeAFault | shared/pushward/client.go:281-293 | a server that only answers 409 to a handler that never resolves it ends the call as a fault, and in no other way |
| Retry.WhenACallSucceeds | shared/pushward/client.go:296-321 | success is reported exactly for a 2xx, decoded or not |
| Retry.ThrottlingIsNoFault | shared/pushward/client.go:331-357 | being throttled throughout is neither a fault nor a success |
| SeedCache.ShapeCache.Put | shared/cipoll/cache.go:92-118 | put is the specified transition and keeps order a duplicate-free listing of the keys within capacity |
| SeedCache.ShapeCache.Get | shared/cipoll/cache.go:126-148 | own ref, else the newest success on any ref, else the newest run, else a miss |
| SeedCache.MergeWeights | shared/cipoll/cache.go:155-165 | each group takes the newer measurement if there is one, else the older |
| SeedCache.PutFacts | shared/cipoll/cache.go:92-118 | which keys a put keeps, in which order, and with what |
| SeedCache.WhenAPutIsStored | shared/cipoll/cache.go:92-118 | a run is stored, with what it measured over what the same labels measured before, unless it has no workflow or groups, or failed where its ref has a success; then nothing changes |
| SeedCache.OrderIsRecency | shared/cipoll/cache.go:75-79 | after any run of puts order is the bounded recency list of the accepted ones |
| SeedCache.SuccessIsKept | shared/cipoll/cache.go:100-104 | a stored success is never replaced by a failure while its key stays |
| SeedCache.MeasurementIsKept | shared/cipoll/cache.go:105-107 | a measured group stays measured while its key stays and the labels are equal |
| SeedCache.PutThenGet | shared/cipoll/cache.go:92-148 | a run just stored answers the next one on its ref with what it measured |
| SeedCache.OneAnswer | shared/cipoll/cache.go:126-148 | a lookup has exactly one answer |
| SeedCache.AnswersAreOfTheWorkflow | shared/cipoll/cache.go:126-148 | what answers is a run of the workflow and repo asked for; a miss means there is none |
| SeedCache.TheNewestRunAnswers | shared/cipoll/cache.go:126-148 | on a ref without a run the run of its workflow stored last answers, if it is a success or there is none, whatever other workflows put meanwhile |
| SeedCache.SuccessWins | shared/cipoll/cache.go:120-148 | a failure never outranks a success on another ref |
| Fit.KeepPrefix | shared/e2e/e2e.go:237-254 | the binary search finds the longest prefix that fits, and at least one rune |
| Fit.CutTo | shared/e2e/e2e.go:382-392 | a clamp cuts at the code point |
| Fit.Fit | shared/e2e/e2e.go:217-235 | clamp, then the longest body, then the longest title |
| Fit.OnlyEndsAreCut | shared/e2e/e2e.go:209-216 | title and body are prefixes of what was sent, within the limits, and never emptied |
| Fit.BodyGoesFirst | shared/e2e/e2e.go:209-216 | the title is cut past its clamp only when the body is down to one rune |
| Fit.NoRoomToSpare | shared/e2e/e2e.go:217-235 | one more rune of the field cut last would not fit |
| Fit.FitIsOptimal | shared/e2e/e2e.go:217-235 | no fitting cut keeps more of the title, and none keeps the whole title and more of the body (room a cut title leaves is not given back to the body) |
| Fit.OverflowsOnlyAtTheLeast | shared/e2e/e2e.go:209-235 | it still overflows exactly when one rune of each does |
| Fit.FitTwice | shared/e2e/e2e.go:217-235 | fitting twice changes nothing |
| Fit.OneFit | shared/e2e/e2e.go:217-235 | the specification names one result |
| Fit.WhatSealFitRefuses | shared/e2e/e2e.go:256-261 | a text is refused for its length only when one rune of title and body is already too much |
| Fit.PlaintextLimit | shared/e2e/e2e.go:204-208 | an envelope is within 3072 characters exactly when the plaintext is within 2266 bytes |
| Fit.PaddingIsFree | shared/e2e/e2e.go:194-202 | padding never costs a message its envelope, and reaches a whole block wherever one fits |
| Fit.SizeIsTheJson | shared/e2e/e2e.go:186-192 | the size measured is that of the JSON sealed, escape by escape |
| Fit.WhenNothingIsCut | shared/e2e/e2e.go:209-235 | a message is left as it is exactly when it is within the limits; one over them by its text alone is cut to them and no further |
| LogStream.Envelope | backrest/internal/backrest/client.go:217-228 | frames a payload, refusing one over the limit |
| LogStream.PeekUndoesFramed | backrest/internal/backrest/client.go:217-268 | the parser undoes the framing, whatever follows |
| LogStream.FramedUndoesPeek | backrest/internal/backrest/client.go:249-268 | a frame read is one that was framed |
| LogStream.FlagsAreBits | backrest/internal/backrest/client.go:256-268 | the second bit of the flags ends a stream, the first says compressed |
| LogStream.HighByteFirst | backrest/internal/backrest/client.go:217-228 | sizes go out high byte first |
| LogStream.TailBuffer.Write | backrest/internal/backrest/client.go:295-306 | the buffer holds the last 64 KiB of everything written |
| LogStream.ReadLogStream | backrest/internal/backrest/client.go:239-285 | the log is the tail of what the frame-by-frame reading takes in, with its error, after at most one turn for every five bytes |
| LogStream.WholeStream | backrest/internal/backrest/client.go:239-285 | over any framed chunks and an end frame: exactly the tail of the chunks read, and the end frame reported only if reached |
| LogStream.CutStream | backrest/internal/backrest/client.go:246-255 | a stream cut between frames gives what arrived without an error, one cut inside a header or broken gives it with one |
| LogStream.SpoiltStream | backrest/internal/backrest/client.go:246-283 | a frame too big, cut short, compressed or not decodable: what came before it is kept, and the error says which |
| LogStream.WhatAnEndFrameReports | backrest/internal/backrest/client.go:262-264 | an end frame reports its error text, or none |
| LogStream.TakenStopsAtTheCap | backrest/internal/backrest/client.go:243 | reading stops at the first point at or past 8 MiB |
| Ledger.OneCardPerStay | backrest/internal/poller/poller.go:237-447 | during one stay in the query window an operation is seeded at most once, has at most one end scheduled, and nothing is sent for it after that or after giving up, in every run without a stray cleanup |
| Ledger.EveryRunKeepsInv | backrest/internal/poller/poller.go:237-522 | in every run without a stray cleanup the bookkeeping agrees with what was sent, across supersession, pruning and timer-driven deletion |
| Ledger.StrayIsTheOnlyHarm | backrest/internal/poller/poller.go:746-750 | a step breaks the bookkeeping exactly when it is the cleanup of an end whose operation has an open, seeded record |
| Ledger.ACardCanBeSeededTwice | backrest/internal/poller/poller.go:746-750 | a concrete run of the bridge in which an operation is seeded twice in one stay |
| Ledger.GivesUpOnlyAfterTheWindow | backrest/internal/poller/poller.go:466-509 | an operation is given up only after nothing but rejections for ten minutes |
| Ledger.WhenAVanishedCardIsClosed | backrest/internal/poller/poller.go:384-405 | an operation that left the window with an activity up has it closed exactly when its opening frame had landed, in every run without a stray cleanup |
| Ledger.ACardCanBeLeftUp | backrest/internal/poller/poller.go:384-405 | the failing input, a run in which the create lands and the opening frame does not: the operation leaves the window and its activity is never closed |
| Ledger.WhatARunningRowSends | backrest/internal/poller/poller.go:452-539 | which frame a running row sends, when it sends none, and when it is given up |
| Ledger.WhatAFinishedRowSends | backrest/internal/poller/poller.go:309-350 | a finished row with an open card, or that ended just now on either side of our clock, is announced and closed unless its push is rejected; any other is only recorded |
| Ledger.FirstSightTakesTheSlug | backrest/internal/poller/poller.go:409-447 | the first sight of an operation forgets the records closing under its slug, closes their ends, and touches no other |
| Ledger.HowAnEndGoes | backrest/internal/poller/poller.go:707-752 | an end goes through both phases in turn unless closed, and then drops the record under its operation |
| Ledger.DoneIsPruned | backrest/internal/poller/poller.go:371-379 | after a poll done holds only what the poll showed |
| Backrest.Poller.Supersede | backrest/internal/poller/poller.go:420-436 | every closing record under the slug is closed and forgotten, whatever the order of the map |
| Backrest.Poller.Track | backrest/internal/poller/poller.go:409-447 | the record for a row, or none when it is closed out or closing |
| Backrest.Poller.PushFrame | backrest/internal/poller/poller.go:452-509 | seeds or patches, holds back while preempted, gives up after ten minutes of rejections |
| Backrest.Poller.SendFrame | backrest/internal/poller/poller.go:639-666 | a first push is a create and an opening frame, and may get no further than the create; later ones are one patch |
| Backrest.Poller.AbandonRecord | backrest/internal/poller/poller.go:511-522 | an operation given up is done and forgotten together, so it is not picked up again |
| Backrest.Poller.ScheduleEndOf | backrest/internal/poller/poller.go:707-725 | an operation is marked ending and done together, and gets a two-phase end of its own |
| Backrest.Poller.OnRunning | backrest/internal/poller/poller.go:526-539 | a running row opens or joins its record and is pushed unless the throttle holds it; a closed-out or closing operation is left alone |
| Backrest.Poller.OnTerminal | backrest/internal/poller/poller.go:572-593 | a finished row is pushed and, only if that reports no error, has its end scheduled |
| Backrest.Poller.Adopt | backrest/internal/poller/poller.go:309-315 | a finished row with no record is announced only if it ended within the adopt window, else only recorded |
| Backrest.Poller.Ended | backrest/internal/poller/poller.go:317-350 | ended strictly within a window on either side of now, and stamped at all |
| Backrest.Poller.OnRow | backrest/internal/poller/poller.go:253-270 | a row is handled by its status, by whether the first poll is over and by whether it has a record; every row counts as seen |
| Backrest.Poller.ReapVanished | backrest/internal/poller/poller.go:384-405 | what left the window unfinished is closed, or dropped if it never had a card; nothing is left over |
| Backrest.Poller.PruneDone | backrest/internal/poller/poller.go:371-379 | bookkeeping is kept only for what the window still shows |
| Backrest.Poller.PhaseReturned | backrest/internal/poller/poller.go:727-752 | the first phase re-arms unless its group was closed; the second drops the record filed under its operation |
| Widgets.ScalarWidget.TickScalar | shared/widgets/manager.go:452-494 | a tick creates, sends the new content, re-sends the last one on a heartbeat, or passes; nothing is remembered unless it landed |
| Widgets.HeartbeatsAreTouches | shared/widgets/manager.go:379-389 | after any run re-sending the last content leaves the server as it is |
| Widgets.NoDrift | shared/widgets/manager.go:470-494 | after any ticks and failed sends, a tick that is sent or passed over leaves the server within the tolerance of its reading |
| Widgets.QuietTicksChangeNothing | shared/widgets/manager.go:470-494 | a reading within tolerance of the shown value never changes what is stored |
| Widgets.NeverStale | shared/widgets/manager.go:405-419 | with the derived heartbeat and an interval of at most a third of the window the widget never goes stale |
| Widgets.WhenATickSends | shared/widgets/manager.go:452-494 | a tick sends a new value, a value off by more than the tolerance, or the last content once a heartbeat is due, and otherwise nothing |
| Widgets.WhenAWidgetIsCreated | shared/widgets/manager.go:338-378 | a widget that needs a value waits for one; any other is created at once |
| SeriesWidgets.MultiWidget.ApplyMulti | shared/widgets/manager.go:686-769 | one poll over the series is the specified transition; only a first poll gives up part-way |
| SeriesWidgets.MultiWidget.ApplyOne | shared/widgets/manager.go:688-738 | one value of a poll: passed over, refused by the cap, created, or updated if it changed or a heartbeat is due |
| SeriesWidgets.MultiWidget.Prune | shared/widgets/manager.go:741-767 | the pruning pass, whatever the order of the map |
| SeriesWidgets.CapAlwaysHolds | shared/widgets/manager.go:698-703 | the cap holds whatever is polled and whatever the server answers, and kept series are shown as remembered |
| SeriesWidgets.WhenASeriesIsSent | shared/widgets/manager.go:688-738 | when a value of a series is sent, taken on or refused, and that the server then shows it within the tolerance |
| SeriesWidgets.MissCountIsRight | shared/widgets/manager.go:741-754 | whatever lands and whatever fails, the miss count of a kept series is the number of polls that did not show it since one last settled it |
| SeriesWidgets.WhenAPollClears | shared/widgets/manager.go:725-738 | a poll that shows a series leaves its count at zero exactly when it was zero or an update of its own landed or was not due |
| SeriesWidgets.WhenASeriesIsDropped | shared/widgets/manager.go:741-767 | a kept series is dropped exactly when the poll does not show it, its misses since it was last settled reach the grace, and its widget can go |
| SeriesWidgets.WhenMissesAreConsecutive | shared/widgets/manager.go:725-754 | the misses counted against a kept series are those of the very last polls exactly when no update of it has failed with misses counted since it was last settled |
| SeriesWidgets.WhenADropIsEarned | shared/widgets/manager.go:725-767 | the same of the misses that drop a series, the dropping poll included |
| SeriesWidgets.DroppedOnlyAfterItsGrace | shared/widgets/manager.go:741-767 | unless an update of its own failed with misses counted, a series is dropped only when none of the last polls of its whole grace showed it, whatever becomes of other series and of its other updates |
| SeriesWidgets.FailedUpdatesKeepTheMisses | shared/widgets/manager.go:725-738 | the failing input, a run in which an update that fails with a miss counted lets two separate misses drop a series whose grace is two |
| TaskJoin.JoinTasks | forgejo/internal/forgejo/tasks.go:235-268 | the in-place join stamps exactly the jobs with a row, and counts them and the refused completions |
| TaskJoin.WhatAJoinStamps | forgejo/internal/forgejo/tasks.go:235-268 | a job gets the start of the row listed last for its task, and its completion if it is finished and no later than the bound; anything else is left alone |
| TaskJoin.JoinCounts | forgejo/internal/forgejo/tasks.go:235-268 | the two counts are the jobs with a row, and those whose row finished past the bound |
| TaskJoin.StampHistoric | forgejo/internal/forgejo/tasks.go:109-172 | the paged walk comes to one join with the rows as first served, and says why it stopped |
| TaskJoin.WhatTheWalkStamps | forgejo/internal/forgejo/tasks.go:109-172 | the walk does the same with the row served first |
| TaskJoin.DropSeen | forgejo/internal/forgejo/tasks.go:140-147 | keeps the rows whose id was not served before |
| TaskJoin.JoinStep | forgejo/internal/forgejo/tasks.go:130-149 | the joins so far and one over the new rows of a page are one join over all rows |
| TaskJoin.CountStep | forgejo/internal/forgejo/tasks.go:148-149 | the counts add up to the jobs joined |
| TaskJoin.CountMeansAllJoined | forgejo/internal/forgejo/tasks.go:130 | row ids being non-zero, the count stops the walk exactly when every job with a task id is joined |
| TaskJoin.ZeroIdsWouldStopItEarly | forgejo/internal/forgejo/tasks.go:113-130 | a row with id zero would end the walk with a job unmatched |
| TaskJoin.NoLateCompletion | forgejo/internal/forgejo/tasks.go:257-265 | no completion past a non-zero bound is stored |
| TaskJoin.ServedTwice | forgejo/internal/forgejo/tasks.go:124-147 | serving a row again on a later page changes nothing |
| TaskJoin.CompletionBound | forgejo/internal/forgejo/tasks.go:213-223 | the bound is zero exactly when the run carries no time at all |
| TaskJoin.WhichCompletionsAreBelieved | forgejo/internal/forgejo/tasks.go:213-223 | completions are believed up to a minute after the run stopped, else up to twelve hours after it started or was created, else always |

## Left out

- A reply lost after its patch was applied: the live-window claims do not hold for it, and the client does not look for one.
- The CI loop over several repos, run discovery, and request-budget pacing: a card is one repo, and what these supply are parameters of its events. pollIdle's second look at `tracked` after the create (poller.go:581-585) is not in `Detect`: only the poll goroutine adds entries, so it always passes.
- The members of a content that a CI frame sends unchanged (icon, subtitle, colors of the accent, URLs), and the other templates' validation.
- What the forge's rungs answer in `Baselines`, and the decoding of their jobs: parameters.
- `StepColor`: flat keyword cases; it is a parameter of the ladder.
- Card events are atomic: a tick's reads, send and promotion are one step, since only the poll goroutine changes a run on screen; the interleavings with the timer goroutines are in `TwoPhaseEnd` and `Ledger`.
- The idle pass reads the pending end, the list of active runs and the attempt last closed at three moments; `TwoPhaseEnd` takes them in one step.
- Rows of the Backrest bridge are atomic in the same way; records are values in the map, so aliasing of one record by the poll goroutine across a send is not captured.
- The Backrest bridge's frames, rates, live window and log refresh, and two unfinished operations under one slug, which Backrest's serial queue rules out.
- The artwork resolver's fetch, its slots and its inline wait: a fill is an outcome that arrives some time later.
- Hashing, encryption, base64 and JSON decoding: abstract functions, or not part of the model.
- `validateURL` of a sealed message: a parameter of `Fit.SealCheck`.
- Widget creation limits, label and slug templates, and the stat_list loop, which is the scalar loop with a row mask.
- Retry's log lines and result callback; the time between two steps of a call is counted into the attempt.
- stampLiveTimings: one join of the newest page, and a gate on the run's status.
- The relay's providers, the bambulab tracker, text helpers and URL checks: single-branch facts or security checks.
