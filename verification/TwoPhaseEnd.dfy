/** The two-phase end of shared/cipoll/poller.go over its TimerGroup: one poll goroutine,
    and for every run that ended a timer goroutine per phase. Firing, sending, checking
    and re-arming are separate steps, so anything can happen in between. */
module TwoPhaseEnd {
  import opened Prelude
  import opened Clock
  import T = Timers

  /** One attempt at a run. A re-run keeps the id; only the start tells attempts apart. */
  datatype Attempt = Attempt(id: int, startedAt: Time)

  /** The guard of endedRun.closed: equal ids, and run began no later than e did; two unstamped
      attempts count as one. */
  predicate ClosedAttempt(e: Attempt, run: Attempt) {
    && run.id == e.id
    && (if IsZero(run.startedAt) then IsZero(e.startedAt) else run.startedAt <= e.startedAt)
  }

  /** Where a phase's callback stands. Cleared is between phase 1's check and its Reset. */
  datatype Pc = Waiting | Fired | Sent | Cleared | Done

  /** One tracked run, by order of detection: its timers once the end is scheduled. */
  datatype Gen = Gen(attempt: Attempt, group: Option<T.Group>, pc1: Pc, pc2: Pc)

  /** Where the poll goroutine stands. */
  datatype Poll = Idle | Creating(run: Attempt) | Seeding(g: nat) | Ticking(g: nat)

  datatype Event =
    | SeedSent(g: nat) | TickSent(g: nat) | EndScheduled(g: nat)
    | Phase1Fired(g: nat) | OngoingSent(g: nat)
    | Phase2Fired(g: nat) | EndedSent(g: nat)
    | GroupClosed(g: nat)

  datatype Loop = Loop(gens: seq<Gen>, tracked: Option<nat>, poll: Poll, lastEnded: Option<Attempt>, trace: seq<Event>)

  const START: Loop := Loop([], None, Idle, None, [])

  datatype Act =
    | Find(run: Attempt) | CreateFails | CreateLands | SendSeed
    | BeginTick | SendTick | ScheduleEnd(startedAt: Time) | Evict | Shutdown
    | Fire1(g: nat) | Send1(g: nat) | Check1(g: nat) | Rearm1(g: nat)
    | Fire2(g: nat) | Send2(g: nat) | Cleanup2(g: nat)

  predicate EndPending(s: Loop, g: nat) { g < |s.gens| && s.gens[g].group.Some? }

  function Set(s: Loop, g: nat, gen: Gen): Loop
    requires g < |s.gens|
  {
    s.(gens := s.gens[g := gen])
  }

  function Log(s: Loop, e: Event): Loop { s.(trace := s.trace + [e]) }

  function CloseGroup(s: Loop, g: nat): Loop
    requires EndPending(s, g)
  {
    Log(Set(s, g, s.gens[g].(group := Some(T.Closed(s.gens[g].group.value)))), GroupClosed(g))
  }

  /** The tracked run, if the repo has one. */
  function Current(s: Loop): Option<Gen> {
    if s.tracked.Some? && s.tracked.value < |s.gens| then Some(s.gens[s.tracked.value]) else None
  }

  /** Both callbacks identify the run by its id alone. */
  predicate CurrentHasIdOf(s: Loop, g: nat)
    requires g < |s.gens|
  {
    Current(s).Some? && Current(s).value.attempt.id == s.gens[g].attempt.id
  }

  /** pollIdle picks a run: nothing is tracked, or the tracked one only waits on its end
      and the run is another one. The attempt last closed is never picked again. */
  predicate CanFind(s: Loop, run: Attempt) {
    && s.poll.Idle?
    && (s.lastEnded.Some? ==> !ClosedAttempt(s.lastEnded.value, run))
    && (Current(s).Some? ==> EndPending(s, s.tracked.value) && run.id != Current(s).value.attempt.id)
  }

  predicate OnScreen(s: Loop) { Current(s).Some? && Current(s).value.group.None? }

  /** The acts of the poll goroutine. */
  function PollStep(s: Loop, act: Act): Loop {
    match act
    case Find(run) =>
      if !CanFind(s, run) then s
      else if Current(s).None? then s.(poll := Creating(run))
      else CloseGroup(s, s.tracked.value).(tracked := None, poll := Creating(run))
    case CreateFails =>
      if s.poll.Creating? then s.(poll := Idle) else s
    case CreateLands =>
      if !s.poll.Creating? then s
      else if OnScreen(s) then s.(poll := Idle)
      else s.(gens := s.gens + [Gen(s.poll.run, None, Waiting, Waiting)], tracked := Some(|s.gens|), poll := Seeding(|s.gens|))
    case SendSeed =>
      if s.poll.Seeding? then Log(s, SeedSent(s.poll.g)).(poll := Idle) else s
    case BeginTick =>
      if s.poll.Idle? && OnScreen(s) then s.(poll := Ticking(s.tracked.value)) else s
    case SendTick =>
      if s.poll.Ticking? then Log(s, TickSent(s.poll.g)).(poll := Idle) else s
    case ScheduleEnd(startedAt) =>
      if s.poll.Idle? && OnScreen(s) then
        var g := s.tracked.value;
        Log(Set(s, g, s.gens[g].(attempt := s.gens[g].attempt.(startedAt := startedAt), group := Some(T.Rearmed(T.ZERO)))), EndScheduled(g))
      else s
    case Evict =>
      if s.poll.Idle? && OnScreen(s) then s.(tracked := None) else s
    case Shutdown =>
      if s.poll.Idle? && Current(s).Some? && EndPending(s, s.tracked.value) then CloseGroup(s, s.tracked.value) else s
    case _ => s
  }

  predicate IsPending(gr: T.Group, t: nat) { t < |gr.timers| && gr.timers[t].Pending? }

  /** The acts of the timer goroutines. Phase 1 runs on timer 0, phase 2 on timer 1. */
  function TimerStep(s: Loop, act: Act): Loop {
    match act
    case Fire1(g) =>
      if EndPending(s, g) && IsPending(s.gens[g].group.value, 0) then
        Log(Set(s, g, s.gens[g].(group := Some(T.Fire(s.gens[g].group.value, 0)), pc1 := Fired)), Phase1Fired(g))
      else s
    case Send1(g) =>
      if EndPending(s, g) && s.gens[g].pc1.Fired? then
        Log(Set(s, g, s.gens[g].(pc1 := Sent)), OngoingSent(g))
      else s
    case Check1(g) =>
      if EndPending(s, g) && s.gens[g].pc1.Sent? then
        if CurrentHasIdOf(s, g) then Set(s, g, s.gens[g].(pc1 := Cleared))
        else Set(s, g, s.gens[g].(pc1 := Done, group := Some(T.Return(s.gens[g].group.value, 0))))
      else s
    case Rearm1(g) =>
      if EndPending(s, g) && s.gens[g].pc1.Cleared? then
        Set(s, g, s.gens[g].(pc1 := Done, group := Some(T.Return(T.Rearmed(s.gens[g].group.value), 0))))
      else s
    case Fire2(g) =>
      if EndPending(s, g) && IsPending(s.gens[g].group.value, 1) then
        Log(Set(s, g, s.gens[g].(group := Some(T.Fire(s.gens[g].group.value, 1)), pc2 := Fired)), Phase2Fired(g))
      else s
    case Send2(g) =>
      if EndPending(s, g) && s.gens[g].pc2.Fired? then
        Log(Set(s, g, s.gens[g].(pc2 := Sent)), EndedSent(g))
      else s
    case Cleanup2(g) =>
      if EndPending(s, g) && s.gens[g].pc2.Sent? then
        var returned := Set(s, g, s.gens[g].(pc2 := Done, group := Some(T.Return(s.gens[g].group.value, 1))));
        if CurrentHasIdOf(s, g) then returned.(tracked := None, lastEnded := Some(s.gens[g].attempt)) else returned
      else s
    case _ => s
  }

  function Step(s: Loop, act: Act): Loop {
    if act.Fire1? || act.Send1? || act.Check1? || act.Rearm1? || act.Fire2? || act.Send2? || act.Cleanup2?
    then TimerStep(s, act) else PollStep(s, act)
  }

  function After(acts: seq<Act>): Loop {
    if acts == [] then START else Step(After(acts[..|acts| - 1]), acts[|acts| - 1])
  }

  // ---------- The order of one run's frames ----------

  /** One run's frames, in order: 0 tracked, 1 seeded and ticking, 2 end scheduled,
      3 phase 1 fired, 4 final ONGOING sent, 5 phase 2 fired, 6 ENDED sent. */
  function Advance(stage: Option<nat>, e: Event, g: nat): Option<nat> {
    if stage.None? || e.g != g || e.GroupClosed? then stage
    else
      match e
      case SeedSent(_) => if stage.value == 0 then Some(1) else None
      case TickSent(_) => if stage.value == 1 then Some(1) else None
      case EndScheduled(_) => if stage.value == 1 then Some(2) else None
      case Phase1Fired(_) => if stage.value == 2 then Some(3) else None
      case OngoingSent(_) => if stage.value == 3 then Some(4) else None
      case Phase2Fired(_) => if stage.value == 4 then Some(5) else None
      case EndedSent(_) => if stage.value == 5 then Some(6) else None
      case GroupClosed(_) => stage
  }

  function Stage(trace: seq<Event>, g: nat): Option<nat> {
    if trace == [] then Some(0) else Advance(Stage(trace[..|trace| - 1], g), trace[|trace| - 1], g)
  }

  /** The stage a run's record says it is at. */
  function StageOf(gen: Gen, seeding: bool): nat {
    if gen.group.None? then (if seeding then 0 else 1)
    else match gen.pc2
      case Fired => 5
      case Sent | Cleared | Done => 6
      case Waiting =>
        match gen.pc1
        case Waiting => 2
        case Fired => 3
        case Sent | Cleared | Done => 4
  }

  /** A callback's place and its timer's status say the same thing. */
  ghost predicate Agrees(pc: Pc, status: T.Status) {
    match pc
    case Waiting => status.Pending? || status.Cancelled?
    case Fired | Sent | Cleared => status.Running?
    case Done => status.Returned?
  }

  ghost predicate GenOk(gen: Gen) {
    match gen.group
    case None => gen.pc1.Waiting? && gen.pc2.Waiting?
    case Some(gr) =>
      && T.Inv(gr)
      && 1 <= |gr.timers| <= 2
      && Agrees(gen.pc1, gr.timers[0])
      && (|gr.timers| == 1 ==> gen.pc2.Waiting?)
      && (|gr.timers| == 2 ==> gen.pc1.Done? && !gen.pc2.Cleared? && Agrees(gen.pc2, gr.timers[1]))
  }

  ghost predicate IsClosed(gen: Gen) { gen.group.Some? && gen.group.value.stopped }

  /** Nothing of a closed group fires afterwards. */
  ghost predicate NoFireAfterClose(trace: seq<Event>) {
    forall i, j :: 0 <= i < j < |trace| && trace[i].GroupClosed? && trace[j].g == trace[i].g ==>
      !trace[j].Phase1Fired? && !trace[j].Phase2Fired?
  }

  ghost predicate Inv(s: Loop) {
    && (s.tracked.Some? ==> s.tracked.value < |s.gens|)
    && (s.poll.Creating? ==> s.tracked.None?)
    && (s.poll.Seeding? ==> s.poll.g < |s.gens| && s.gens[s.poll.g].group.None?)
    && (s.poll.Ticking? ==> s.poll.g < |s.gens| && s.gens[s.poll.g].group.None?)
    && (forall g :: 0 <= g < |s.gens| ==> GenOk(s.gens[g]))
    && (forall g :: 0 <= g < |s.gens| ==> Stage(s.trace, g) == Some(StageOf(s.gens[g], s.poll == Seeding(g))))
    && (forall e :: e in s.trace ==> e.g < |s.gens|)
    && (forall g :: 0 <= g < |s.gens| ==> (GroupClosed(g) in s.trace <==> IsClosed(s.gens[g])))
    && NoFireAfterClose(s.trace)
  }

  // ---------- Every act keeps the invariant ----------

  lemma StageAppend(trace: seq<Event>, e: Event, g: nat)
    ensures Stage(trace + [e], g) == Advance(Stage(trace, g), e, g)
  {
    assert (trace + [e])[..|trace|] == trace;
  }

  ghost predicate PollOk(s: Loop) {
    && (s.tracked.Some? ==> s.tracked.value < |s.gens|)
    && (s.poll.Creating? ==> s.tracked.None?)
    && (s.poll.Seeding? ==> s.poll.g < |s.gens| && s.gens[s.poll.g].group.None?)
    && (s.poll.Ticking? ==> s.poll.g < |s.gens| && s.gens[s.poll.g].group.None?)
  }

  /** The poll goroutine does not start or finish seeding any run but g. */
  ghost predicate SeedsOnly(s: Loop, s': Loop, g: nat) {
    forall h: nat :: h != g ==> (s'.poll == Seeding(h) <==> s.poll == Seeding(h))
  }

  /** One run takes a step that its frames allow next. */
  lemma GenEvent(s: Loop, s': Loop, g: nat, gen: Gen, e: Event)
    requires Inv(s) && g < |s.gens| && GenOk(gen) && PollOk(s') && SeedsOnly(s, s', g)
    requires s'.gens == s.gens[g := gen] && s'.trace == s.trace + [e] && e.g == g
    requires Advance(Some(StageOf(s.gens[g], s.poll == Seeding(g))), e, g) == Some(StageOf(gen, s'.poll == Seeding(g)))
    requires e.Phase1Fired? || e.Phase2Fired? ==> !IsClosed(s.gens[g])
    requires if e.GroupClosed? then IsClosed(gen) else IsClosed(gen) == IsClosed(s.gens[g])
    ensures Inv(s')
  {
    hide GenOk, StageOf, IsClosed, Advance, Stage;
    forall h | 0 <= h < |s.gens|
      ensures Stage(s'.trace, h) == Some(StageOf(s'.gens[h], s'.poll == Seeding(h)))
    {
      StageAppend(s.trace, e, h);
      if h != g { OtherRunsKeepTheirStage(Stage(s.trace, h), e, h); }
    }
    forall h | 0 <= h < |s.gens|
      ensures GroupClosed(h) in s'.trace <==> IsClosed(s'.gens[h])
    {
      assert GroupClosed(h) in s'.trace <==> GroupClosed(h) in s.trace || e == GroupClosed(h);
    }
    NoFireAppend(s.trace, e);
  }

  lemma OtherRunsKeepTheirStage(stage: Option<nat>, e: Event, h: nat)
    requires e.g != h
    ensures Advance(stage, e, h) == stage
  {
  }

  lemma NoFireAppend(trace: seq<Event>, e: Event)
    requires NoFireAfterClose(trace)
    requires e.Phase1Fired? || e.Phase2Fired? ==> GroupClosed(e.g) !in trace
    ensures NoFireAfterClose(trace + [e])
  {
    var t := trace + [e];
    forall i, j | 0 <= i < j < |t| && t[i].GroupClosed? && t[j].g == t[i].g
      ensures !t[j].Phase1Fired? && !t[j].Phase2Fired?
    {
      if j == |trace| { assert trace[i] in trace && trace[i] == GroupClosed(e.g); }
    }
  }

  /** One run's record moves without a frame. */
  lemma GenQuiet(s: Loop, s': Loop, g: nat, gen: Gen)
    requires Inv(s) && g < |s.gens| && GenOk(gen) && PollOk(s') && s'.poll == s.poll
    requires s'.gens == s.gens[g := gen] && s'.trace == s.trace
    requires StageOf(gen, s.poll == Seeding(g)) == StageOf(s.gens[g], s.poll == Seeding(g))
    requires IsClosed(gen) == IsClosed(s.gens[g])
    ensures Inv(s')
  {
    hide GenOk, StageOf, IsClosed, Advance, Stage, NoFireAfterClose;
  }

  lemma FirstGroup()
    ensures var gr := T.Rearmed(T.ZERO); T.Inv(gr) && gr.timers == [T.Pending] && !gr.stopped
  {
    T.StepKeepsInv(T.ZERO, T.DoReset);
  }

  lemma TimerGenOk(gen: Gen)
    requires GenOk(gen) && gen.group.Some?
    ensures var gr := gen.group.value;
      && (IsPending(gr, 0) || IsPending(gr, 1) ==> !gr.stopped && gen.pc2.Waiting?)
      && (IsPending(gr, 0) ==> gen.pc1.Waiting? && GenOk(gen.(group := Some(T.Fire(gr, 0)), pc1 := Fired)))
      && (IsPending(gr, 1) ==> gen.pc1.Done? && GenOk(gen.(group := Some(T.Fire(gr, 1)), pc2 := Fired)))
  {
    var gr := gen.group.value;
    T.StepKeepsInv(gr, T.DoFire(0));
    T.StepKeepsInv(gr, T.DoFire(1));
    assert IsPending(gr, 0) ==> !gr.stopped;
    hide T.Count;
  }

  lemma ReturnGenOk(gen: Gen)
    requires GenOk(gen) && gen.group.Some?
    ensures var gr := gen.group.value;
      && (gen.pc1.Sent? ==> gen.pc2.Waiting? && GenOk(gen.(pc1 := Done, group := Some(T.Return(gr, 0)))))
      && (gen.pc2.Sent? ==> GenOk(gen.(pc2 := Done, group := Some(T.Return(gr, 1)))))
      && T.Return(gr, 0).stopped == T.Return(gr, 1).stopped == gr.stopped
  {
    var gr := gen.group.value;
    T.StepKeepsInv(gr, T.DoReturn(0));
    T.StepKeepsInv(gr, T.DoReturn(1));
    hide T.Inv;
  }

  /** Phase 1 re-arms phase 2, unless the group was closed in the meantime. */
  lemma RearmGenOk(gen: Gen)
    requires GenOk(gen) && gen.group.Some? && gen.pc1.Cleared?
    ensures var gr := gen.group.value; var after := T.Return(T.Rearmed(gr), 0);
      && gen.pc2.Waiting?
      && GenOk(gen.(pc1 := Done, group := Some(after)))
      && after.stopped == gr.stopped
      && (gr.stopped ==> |after.timers| == 1)
  {
    var gr := gen.group.value;
    T.StepKeepsInv(gr, T.DoReset);
    T.StepKeepsInv(T.Rearmed(gr), T.DoReturn(0));
    hide T.Inv;
    assert !T.StopsInTime(gr);
  }

  lemma CloseGenOk(gen: Gen)
    requires GenOk(gen) && gen.group.Some?
    ensures var closed := gen.(group := Some(T.Closed(gen.group.value)));
      GenOk(closed) && IsClosed(closed)
      && forall seeding :: StageOf(closed, seeding) == StageOf(gen, seeding)
  {
    T.StepKeepsInv(gen.group.value, T.DoClose);
    hide T.Inv;
  }

  lemma FirstFireKeepsInv(s: Loop, g: nat)
    requires Inv(s)
    ensures Inv(TimerStep(s, Fire1(g)))
  {
    if EndPending(s, g) && IsPending(s.gens[g].group.value, 0) {
      var gen := s.gens[g];
      TimerGenOk(gen);
      FireKeepsStopped(gen.group.value, 0);
      hide GenOk, T.Fire, NoFireAfterClose, Stage;
      GenEvent(s, TimerStep(s, Fire1(g)), g, gen.(group := Some(T.Fire(gen.group.value, 0)), pc1 := Fired), Phase1Fired(g));
    }
  }

  lemma SecondFireKeepsInv(s: Loop, g: nat)
    requires Inv(s)
    ensures Inv(TimerStep(s, Fire2(g)))
  {
    if EndPending(s, g) && IsPending(s.gens[g].group.value, 1) {
      var gen := s.gens[g];
      TimerGenOk(gen);
      FireKeepsStopped(gen.group.value, 1);
      hide GenOk, T.Fire, NoFireAfterClose, Stage;
      GenEvent(s, TimerStep(s, Fire2(g)), g, gen.(group := Some(T.Fire(gen.group.value, 1)), pc2 := Fired), Phase2Fired(g));
    }
  }

  lemma FireKeepsStopped(gr: T.Group, t: nat)
    ensures T.Fire(gr, t).stopped == gr.stopped
  {
  }

  lemma SendKeepsInv(s: Loop, g: nat)
    requires Inv(s)
    ensures Inv(TimerStep(s, Send1(g))) && Inv(TimerStep(s, Send2(g)))
  {
    hide NoFireAfterClose, Stage, T.Inv;
    if EndPending(s, g) {
      var gen := s.gens[g];
      if gen.pc1.Fired? { GenEvent(s, TimerStep(s, Send1(g)), g, gen.(pc1 := Sent), OngoingSent(g)); }
      if gen.pc2.Fired? { GenEvent(s, TimerStep(s, Send2(g)), g, gen.(pc2 := Sent), EndedSent(g)); }
    }
  }

  lemma CheckKeepsInv(s: Loop, g: nat)
    requires Inv(s)
    ensures Inv(TimerStep(s, Check1(g)))
  {
    if EndPending(s, g) && s.gens[g].pc1.Sent? {
      var gen := s.gens[g];
      ReturnGenOk(gen);
      hide NoFireAfterClose, Stage, T.Inv, T.Return;
      if CurrentHasIdOf(s, g) {
        GenQuiet(s, TimerStep(s, Check1(g)), g, gen.(pc1 := Cleared));
      } else {
        GenQuiet(s, TimerStep(s, Check1(g)), g, gen.(pc1 := Done, group := Some(T.Return(gen.group.value, 0))));
      }
    }
  }

  lemma RearmKeepsInv(s: Loop, g: nat)
    requires Inv(s)
    ensures Inv(TimerStep(s, Rearm1(g)))
  {
    if EndPending(s, g) && s.gens[g].pc1.Cleared? {
      var gen := s.gens[g];
      RearmGenOk(gen);
      hide NoFireAfterClose, Stage, T.Inv, T.Return, T.Rearmed, GenOk;
      GenQuiet(s, TimerStep(s, Rearm1(g)), g, gen.(pc1 := Done, group := Some(T.Return(T.Rearmed(gen.group.value), 0))));
    }
  }

  lemma CleanupKeepsInv(s: Loop, g: nat)
    requires Inv(s)
    ensures Inv(TimerStep(s, Cleanup2(g)))
  {
    if EndPending(s, g) && s.gens[g].pc2.Sent? {
      var gen := s.gens[g];
      ReturnGenOk(gen);
      hide NoFireAfterClose, Stage, T.Inv, T.Return, GenOk;
      GenQuiet(s, TimerStep(s, Cleanup2(g)), g, gen.(pc2 := Done, group := Some(T.Return(gen.group.value, 1))));
    }
  }

  lemma TimerStepKeepsInv(s: Loop, act: Act)
    requires Inv(s)
    ensures Inv(TimerStep(s, act))
  {
    hide Inv, GenOk;
    match act
    case Fire1(g) => FirstFireKeepsInv(s, g);
    case Fire2(g) => SecondFireKeepsInv(s, g);
    case Send1(g) => SendKeepsInv(s, g);
    case Send2(g) => SendKeepsInv(s, g);
    case Check1(g) => CheckKeepsInv(s, g);
    case Rearm1(g) => RearmKeepsInv(s, g);
    case Cleanup2(g) => CleanupKeepsInv(s, g);
    case _ =>
  }

  lemma CloseKeepsInv(s: Loop, s': Loop, g: nat)
    requires Inv(s) && EndPending(s, g) && PollOk(s') && SeedsOnly(s, s', g)
    requires s'.gens == CloseGroup(s, g).gens && s'.trace == CloseGroup(s, g).trace && !s'.poll.Seeding?
    ensures Inv(s')
  {
    var gen := s.gens[g];
    CloseGenOk(gen);
    hide NoFireAfterClose, Stage, T.Inv, T.Closed, GenOk, IsClosed;
    GenEvent(s, s', g, gen.(group := Some(T.Closed(gen.group.value))), GroupClosed(g));
  }

  lemma CreateKeepsInv(s: Loop)
    requires Inv(s) && s.poll.Creating? && !OnScreen(s)
    ensures Inv(PollStep(s, CreateLands))
  {
    hide NoFireAfterClose, T.Inv, GenOk;
    var n := |s.gens|;
    NoEventsYet(s.trace, n);
    assert GenOk(Gen(s.poll.run, None, Waiting, Waiting)) by { FreshGenOk(s.poll.run); }
  }

  lemma FreshGenOk(run: Attempt)
    ensures GenOk(Gen(run, None, Waiting, Waiting))
  {
  }

  lemma {:induction false} NoEventsYet(trace: seq<Event>, g: nat)
    requires forall e :: e in trace ==> e.g != g
    ensures Stage(trace, g) == Some(0)
  {
    if trace != [] {
      var n := |trace| - 1;
      assert trace[n] in trace;
      assert forall e :: e in trace[..n] ==> e in trace;
      NoEventsYet(trace[..n], g);
    }
  }

  lemma PollFramesKeepInv(s: Loop, startedAt: Time)
    requires Inv(s)
    ensures Inv(PollStep(s, SendSeed)) && Inv(PollStep(s, SendTick)) && Inv(PollStep(s, ScheduleEnd(startedAt)))
  {
    FirstGroup();
    hide NoFireAfterClose, Stage, T.Inv, T.Rearmed;
    if s.poll.Seeding? {
      var g := s.poll.g;
      GenEvent(s, PollStep(s, SendSeed), g, s.gens[g], SeedSent(g));
    }
    if s.poll.Ticking? {
      var g := s.poll.g;
      GenEvent(s, PollStep(s, SendTick), g, s.gens[g], TickSent(g));
    }
    if s.poll.Idle? && OnScreen(s) {
      var g := s.tracked.value;
      var gen := s.gens[g].(attempt := s.gens[g].attempt.(startedAt := startedAt), group := Some(T.Rearmed(T.ZERO)));
      GenEvent(s, PollStep(s, ScheduleEnd(startedAt)), g, gen, EndScheduled(g));
    }
  }

  lemma PollStepKeepsInv(s: Loop, act: Act)
    requires Inv(s)
    ensures Inv(PollStep(s, act))
  {
    hide NoFireAfterClose, Stage, GenOk, StageOf, IsClosed, T.Closed, ClosedAttempt;
    match act
    case Find(run) =>
      if CanFind(s, run) && Current(s).Some? { CloseKeepsInv(s, PollStep(s, act), s.tracked.value); }
    case CreateLands => if s.poll.Creating? && !OnScreen(s) { CreateKeepsInv(s); }
    case SendSeed => PollFramesKeepInv(s, 0);
    case SendTick => PollFramesKeepInv(s, 0);
    case ScheduleEnd(startedAt) => PollFramesKeepInv(s, startedAt);
    case Shutdown =>
      if s.poll.Idle? && Current(s).Some? && EndPending(s, s.tracked.value) { CloseKeepsInv(s, PollStep(s, act), s.tracked.value); }
    case _ =>
  }

  lemma {:induction false} EveryRunKeepsInv(acts: seq<Act>)
    ensures Inv(After(acts))
  {
    if acts != [] {
      var before := After(acts[..|acts| - 1]);
      EveryRunKeepsInv(acts[..|acts| - 1]);
      hide Inv, TimerStep, PollStep;
      TimerStepKeepsInv(before, acts[|acts| - 1]);
      PollStepKeepsInv(before, acts[|acts| - 1]);
    }
  }

  // ---------- One run's frames come in order ----------

  /** The stage a frame of a run takes it to. */
  function Target(e: Event): nat {
    match e
    case SeedSent(_) => 1
    case TickSent(_) => 1
    case EndScheduled(_) => 2
    case Phase1Fired(_) => 3
    case OngoingSent(_) => 4
    case Phase2Fired(_) => 5
    case EndedSent(_) => 6
    case GroupClosed(_) => 0
  }

  predicate FrameOf(e: Event, g: nat) { e.g == g && !e.GroupClosed? }

  lemma {:induction false} TargetsReached(trace: seq<Event>, g: nat)
    requires Stage(trace, g).Some?
    ensures var k := Stage(trace, g).value;
      && (forall e :: e in trace && FrameOf(e, g) ==> Target(e) <= k)
      && (k >= 3 ==> Phase1Fired(g) in trace)
      && (k >= 5 ==> Phase2Fired(g) in trace)
  {
    if trace != [] {
      var n := |trace| - 1;
      assert trace == trace[..n] + [trace[n]];
      TargetsReached(trace[..n], g);
    }
  }

  /** Seed, ticks, end scheduled, phase 1 fired, final ONGOING, phase 2 fired, ENDED: a
      later frame is strictly further along, or a tick. So there is at most one seed, one
      ONGOING and one ENDED, and no tick once the end is scheduled. */
  ghost predicate InOrder(trace: seq<Event>, g: nat) {
    forall i, j :: 0 <= i < j < |trace| && FrameOf(trace[i], g) && FrameOf(trace[j], g) ==>
      if trace[j].TickSent? then Target(trace[i]) <= 1 else Target(trace[i]) < Target(trace[j])
  }

  lemma {:induction false} StageMeansInOrder(trace: seq<Event>, g: nat)
    requires Stage(trace, g).Some?
    ensures InOrder(trace, g)
  {
    if trace != [] {
      var n := |trace| - 1;
      StageMeansInOrder(trace[..n], g);
      TargetsReached(trace[..n], g);
      hide Stage;
      LastInOrder(trace, g);
    }
  }

  lemma LastInOrder(trace: seq<Event>, g: nat)
    requires trace != [] && InOrder(trace[..|trace| - 1], g)
    requires FrameOf(trace[|trace| - 1], g) ==> forall e :: e in trace[..|trace| - 1] && FrameOf(e, g) ==>
      if trace[|trace| - 1].TickSent? then Target(e) <= 1 else Target(e) < Target(trace[|trace| - 1])
    ensures InOrder(trace, g)
  {
    var n := |trace| - 1;
    var before := trace[..n];
    forall i, j | 0 <= i < j < |trace| && FrameOf(trace[i], g) && FrameOf(trace[j], g)
      ensures if trace[j].TickSent? then Target(trace[i]) <= 1 else Target(trace[i]) < Target(trace[j])
    {
      assert before[i] == trace[i] && before[i] in before;
      if j < n { assert before[j] == trace[j]; }
    }
  }

  lemma {:induction false} StagePrefix(trace: seq<Event>, g: nat, n: nat)
    requires n <= |trace| && Stage(trace, g).Some?
    ensures Stage(trace[..n], g).Some?
  {
    if n < |trace| {
      assert trace[..|trace| - 1][..n] == trace[..n];
      StagePrefix(trace[..|trace| - 1], g, n);
    } else {
      assert trace[..n] == trace;
    }
  }

  /** No phase sends without having fired. */
  lemma SentOnlyIfFired(trace: seq<Event>, g: nat, j: nat)
    requires Stage(trace, g).Some? && j < |trace|
    ensures trace[j] == OngoingSent(g) ==> Phase1Fired(g) in trace[..j]
    ensures trace[j] == EndedSent(g) ==> Phase2Fired(g) in trace[..j]
  {
    StagePrefix(trace, g, j + 1);
    StagePrefix(trace, g, j);
    assert trace[..j + 1][..j] == trace[..j];
    TargetsReached(trace[..j], g);
  }

  /** In every run of the loop, whatever interleaves, each tracked run's frames are seed,
      ticks, final ONGOING, at most one ENDED, in that order. */
  lemma FramesInOrder(acts: seq<Act>, g: nat)
    requires g < |After(acts).gens|
    ensures InOrder(After(acts).trace, g)
  {
    EveryRunKeepsInv(acts);
    StageMeansInOrder(After(acts).trace, g);
  }

  /** Once a run's group is closed - superseded or shut down - nothing of it fires again,
      and any frame it still sends comes from a callback that had fired before the close.
      So when phase 2 had not fired by then, its ENDED is never sent. */
  lemma OnlyFiredCallbacksOutliveClose(acts: seq<Act>, g: nat, i: nat, j: nat)
    requires var t := After(acts).trace; i < j < |t| && t[i] == GroupClosed(g)
    ensures var t := After(acts).trace;
      && t[j] != Phase1Fired(g) && t[j] != Phase2Fired(g)
      && (t[j] == OngoingSent(g) ==> Phase1Fired(g) in t[..i])
      && (t[j] == EndedSent(g) ==> Phase2Fired(g) in t[..i])
  {
    EveryRunKeepsInv(acts);
    var t := After(acts).trace;
    hide After, Stage, GenOk, StageOf, IsClosed;
    assert t[i] in t;
    SentOnlyIfFired(t, g, j);
    if t[j] == OngoingSent(g) { FiredBeforeClose(t, Phase1Fired(g), g, i, j); }
    if t[j] == EndedSent(g) { FiredBeforeClose(t, Phase2Fired(g), g, i, j); }
  }

  lemma FiredBeforeClose(t: seq<Event>, e: Event, g: nat, i: nat, j: nat)
    requires i < j < |t| && t[i] == GroupClosed(g) && NoFireAfterClose(t)
    requires (e == Phase1Fired(g) || e == Phase2Fired(g)) && e in t[..j]
    ensures e in t[..i]
  {
    var k :| 0 <= k < j && t[k] == e;
    assert k < i;
    assert t[..i][k] == e;
  }

  // ---------- Which runs the idle pass picks ----------

  /** A run in a forge's list of active runs. */
  datatype Listed = Listed(run: Attempt, createdAt: Time)

  /** The pick: the run created last among those that are not the attempt last closed, and
      of several the one listed first. */
  method PickRun(runs: seq<Listed>, lastEnded: Option<Attempt>) returns (picked: Option<Listed>)
    ensures picked.None? <==> forall r :: r in runs ==> lastEnded.Some? && ClosedAttempt(lastEnded.value, r.run)
    ensures picked.Some? ==> exists i :: 0 <= i < |runs| && picked.value == runs[i] && IsPick(runs, lastEnded, i)
  {
    picked := None;
    ghost var at := 0;
    for n := 0 to |runs|
      invariant picked.None? ==> forall i :: 0 <= i < n ==> lastEnded.Some? && ClosedAttempt(lastEnded.value, runs[i].run)
      invariant picked.Some? ==> 0 <= at < n && picked.value == runs[at] && IsPick(runs[..n], lastEnded, at)
    {
      var r := runs[n];
      if lastEnded.Some? && ClosedAttempt(lastEnded.value, r.run) {
        continue;
      }
      if picked.None? || r.createdAt > picked.value.createdAt {
        picked := Some(r);
        at := n;
      }
    }
    assert runs[..|runs|] == runs;
  }

  ghost predicate IsPick(runs: seq<Listed>, lastEnded: Option<Attempt>, i: nat)
    requires i < |runs|
  {
    && !(lastEnded.Some? && ClosedAttempt(lastEnded.value, runs[i].run))
    && forall k :: 0 <= k < |runs| && !(lastEnded.Some? && ClosedAttempt(lastEnded.value, runs[k].run)) ==>
      if k < i then runs[k].createdAt < runs[i].createdAt else runs[k].createdAt <= runs[i].createdAt
  }

  /** run is another run than e, or a later attempt at it: it began after e did, or waits to
      begin where e had begun. */
  ghost predicate GoesAgain(e: Attempt, run: Attempt) {
    run.id == e.id ==> run.startedAt > e.startedAt || (run.startedAt == 0 && e.startedAt > 0)
  }

  ghost predicate CreatesAnother(s: Loop) {
    s.poll.Creating? && s.lastEnded.Some? ==> GoesAgain(s.lastEnded.value, s.poll.run)
  }

  lemma StepCreatesAnother(s: Loop, act: Act)
    requires Inv(s) && CreatesAnother(s)
    ensures CreatesAnother(Step(s, act))
  {
    hide Stage, NoFireAfterClose, GenOk, T.Inv, StageOf;
  }

  lemma {:induction false} EveryRunCreatesAnother(acts: seq<Act>)
    ensures CreatesAnother(After(acts))
  {
    if acts != [] {
      var before := acts[..|acts| - 1];
      EveryRunCreatesAnother(before);
      EveryRunKeepsInv(before);
      hide Inv, Step, CreatesAnother;
      StepCreatesAnother(After(before), acts[|acts| - 1]);
    }
  }

  lemma TracksWhatIsCreated(s: Loop, act: Act)
    requires Inv(s) && |Step(s, act).gens| > |s.gens|
    ensures s.poll.Creating? && Step(s, act).gens == s.gens + [Gen(s.poll.run, None, Waiting, Waiting)]
  {
    hide Stage, NoFireAfterClose, GenOk, T.Inv, StageOf;
  }

  /** After any run of the loop: a run that comes under tracking is never the attempt last
      closed. One with its id began later than that one is recorded to have begun, or has not
      begun at all while that one had. */
  lemma TheClosedAttemptIsNotRevived(acts: seq<Act>, act: Act)
    requires var s := After(acts); |Step(s, act).gens| > |s.gens| && s.lastEnded.Some?
    ensures var s := After(acts); var e := s.lastEnded.value; var run := Step(s, act).gens[|s.gens|].attempt;
      run.id == e.id ==> run.startedAt > e.startedAt || (run.startedAt == 0 && e.startedAt > 0)
  {
    EveryRunKeepsInv(acts);
    EveryRunCreatesAnother(acts);
    hide Inv, After, Step;
    TracksWhatIsCreated(After(acts), act);
  }

  ghost predicate EndOfAnother(s: Loop, g: nat, run: Attempt) {
    g < |s.gens| && s.gens[g].group.Some? && s.gens[g].attempt.id != run.id
  }

  /** And nothing else is kept off the card: while the poll goroutine is idle, a run that is
      found and created comes under tracking exactly when no run is on screen, an end still
      pending there is another run's, and it is not the attempt last closed. */
  lemma WhenARunIsPicked(acts: seq<Act>, run: Attempt)
    requires After(acts).poll.Idle?
    ensures var s := After(acts); var s' := Step(Step(s, Find(run)), CreateLands);
      && (|s'.gens| > |s.gens| <==>
          && (s.tracked.None? || EndOfAnother(s, s.tracked.value, run))
          && (s.lastEnded.None? || run.id != s.lastEnded.value.id || run.startedAt > s.lastEnded.value.startedAt
              || (run.startedAt == 0 && s.lastEnded.value.startedAt > 0)))
      && (|s'.gens| > |s.gens| ==>
          && s'.tracked == Some(|s.gens|) && s'.poll == Seeding(|s.gens|) && s'.gens[|s.gens|].attempt == run
          && (s.tracked.Some? ==> GroupClosed(s.tracked.value) in s'.trace))
      && (|s'.gens| <= |s.gens| ==> s' == s)
  {
    EveryRunKeepsInv(acts);
    hide After, Stage, NoFireAfterClose, GenOk, T.Inv, StageOf;
  }

  /** The attempt recorded as closed is one whose ENDED was sent, with the start it had when
      its end was scheduled. */
  ghost predicate EndedIsRecorded(s: Loop) {
    s.lastEnded.Some? ==> exists g :: 0 <= g < |s.gens| && RecordedAs(s, g, s.lastEnded.value)
  }

  ghost predicate RecordedAs(s: Loop, g: nat, e: Attempt) {
    g < |s.gens| && s.gens[g].attempt == e && s.gens[g].group.Some? && s.gens[g].pc2.Done?
  }

  /** A phase that is through is not taken up again. */
  lemma ThroughIsThrough(gen: Gen)
    requires GenOk(gen) && gen.group.Some? && gen.pc2.Done?
    ensures gen.pc1.Done? && !IsPending(gen.group.value, 0) && !IsPending(gen.group.value, 1)
  {
    hide T.Inv;
  }

  /** A scheduled end keeps its attempt, and a phase that is through stays so. */
  lemma EndsStayRecorded(s: Loop, act: Act, g: nat, e: Attempt)
    requires Inv(s) && RecordedAs(s, g, e)
    ensures RecordedAs(Step(s, act), g, e)
  {
    ThroughIsThrough(s.gens[g]);
    hide Stage, NoFireAfterClose, StageOf, GenOk, IsPending, T.Fire, T.Return, T.Rearmed, T.Closed, ClosedAttempt, CurrentHasIdOf;
  }

  lemma CleanupRecords(s: Loop, act: Act)
    requires Inv(s) && Step(s, act).lastEnded != s.lastEnded
    ensures act.Cleanup2? && act.g < |s.gens| && Step(s, act).lastEnded == Some(s.gens[act.g].attempt)
    ensures RecordedAs(Step(s, act), act.g, s.gens[act.g].attempt) && Step(s, act).tracked.None?
  {
    hide Stage, NoFireAfterClose, GenOk, T.Inv, StageOf, T.Return;
  }

  lemma {:induction false} EveryRunRecordsEnds(acts: seq<Act>)
    ensures EndedIsRecorded(After(acts))
  {
    if acts != [] {
      var before, act := acts[..|acts| - 1], acts[|acts| - 1];
      var s := After(before);
      EveryRunRecordsEnds(before);
      EveryRunKeepsInv(before);
      hide Inv, Step, RecordedAs;
      if Step(s, act).lastEnded != s.lastEnded {
        CleanupRecords(s, act);
        hide After;
      } else if s.lastEnded.Some? {
        var g :| 0 <= g < |s.gens| && RecordedAs(s, g, s.lastEnded.value);
        EndsStayRecorded(s, act, g, s.lastEnded.value);
        RecordedIsTracked(Step(s, act), g, s.lastEnded.value);
        hide After;
      }
    }
  }

  lemma RecordedIsTracked(s: Loop, g: nat, e: Attempt)
    requires RecordedAs(s, g, e)
    ensures g < |s.gens|
  {
  }

  lemma ThroughMeansEnded(s: Loop, g: nat, e: Attempt)
    requires Inv(s) && RecordedAs(s, g, e)
    ensures g < |s.gens| && s.gens[g].attempt == e && EndedSent(g) in s.trace
  {
    StageHoldsEnded(s.trace, g);
    hide NoFireAfterClose, GenOk, T.Inv, Stage;
  }

  lemma {:induction false} StageHoldsEnded(trace: seq<Event>, g: nat)
    ensures Stage(trace, g) == Some(6) ==> EndedSent(g) in trace
  {
    if trace != [] {
      StageHoldsEnded(trace[..|trace| - 1], g);
    }
  }

  /** In every run of the loop the attempt kept as last closed is that of a tracked run whose
      ENDED was sent. */
  lemma LastEndedSawItsEnd(acts: seq<Act>) returns (g: nat)
    requires After(acts).lastEnded.Some?
    ensures var s := After(acts); g < |s.gens| && s.gens[g].attempt == s.lastEnded.value && EndedSent(g) in s.trace
  {
    var s := After(acts);
    EveryRunKeepsInv(acts);
    EveryRunRecordsEnds(acts);
    hide After, Inv;
    g :| 0 <= g < |s.gens| && RecordedAs(s, g, s.lastEnded.value);
    ThroughMeansEnded(s, g, s.lastEnded.value);
  }

  // ---------- Who takes a run off the card ----------

  /** Phase 2's cleanup takes the tracked run off the card exactly when their ids are
      equal - which a later attempt of the same run has too. */
  lemma CleanupDropsSameId(s: Loop, g: nat)
    requires Inv(s) && EndPending(s, g) && s.gens[g].pc2.Sent? && s.tracked.Some?
    ensures Step(s, Cleanup2(g)).tracked.None? <==> s.gens[s.tracked.value].attempt.id == s.gens[g].attempt.id
    ensures Step(s, Cleanup2(g)).lastEnded ==
      if s.gens[s.tracked.value].attempt.id == s.gens[g].attempt.id then Some(s.gens[g].attempt) else s.lastEnded
  {
  }

  /** The end of a run starts with one phase armed, under the start its last report gave. Between
      the phases the callback goes on exactly while the tracked run has its id, and then arms the
      second unless the group was closed meanwhile. */
  lemma HowAnEndIsArmed(s: Loop, g: nat, startedAt: Time)
    requires Inv(s) && g < |s.gens|
    ensures s.poll.Idle? && s.tracked == Some(g) && s.gens[g].group.None? ==>
      var gen := Step(s, ScheduleEnd(startedAt)).gens[g];
      && gen.attempt == Attempt(s.gens[g].attempt.id, startedAt)
      && gen.group.Some? && gen.group.value.timers == [T.Pending] && !gen.group.value.stopped
    ensures s.gens[g].group.Some? && s.gens[g].pc1.Sent? ==>
      (Step(s, Check1(g)).gens[g].pc1.Cleared? <==>
        s.tracked.Some? && s.gens[s.tracked.value].attempt.id == s.gens[g].attempt.id)
    ensures s.gens[g].group.Some? && s.gens[g].pc1.Sent? && !Step(s, Check1(g)).gens[g].pc1.Cleared? ==>
      Step(s, Check1(g)).gens[g].pc1.Done?
    ensures s.gens[g].group.Some? && s.gens[g].pc1.Cleared? ==>
      var gen := Step(s, Rearm1(g)).gens[g];
      && gen.pc1.Done? && gen.group.Some?
      && (IsPending(gen.group.value, 1) <==> !s.gens[g].group.value.stopped)
  {
    assert GenOk(s.gens[g]);
    hide Stage, NoFireAfterClose, StageOf, ClosedAttempt;
  }

  /** Evicting the run on screen frees the card: the next run found is tracked whatever its id,
      unless it is the attempt last closed. */
  lemma EvictionFreesTheCard(s: Loop, run: Attempt)
    requires Inv(s) && s.poll.Idle? && s.tracked.Some? && s.gens[s.tracked.value].group.None?
    ensures var freed := Step(s, Evict);
      && freed == s.(tracked := None)
      && (s.lastEnded.None? || run.id != s.lastEnded.value.id ==>
            Step(Step(freed, Find(run)), CreateLands).tracked == Some(|s.gens|))
  {
    hide Stage, NoFireAfterClose, GenOk, T.Inv, StageOf;
  }

  /** A run that can fire nothing it has not fired yet: its group was closed, or both its
      phases are through. */
  ghost predicate Settled(gen: Gen) { IsClosed(gen) || gen.pc2.Done? }

  /** A run off the card with its end pending was closed, or saw its end through. */
  ghost predicate Superseded(s: Loop) {
    forall g :: 0 <= g < |s.gens| && s.gens[g].group.Some? && s.tracked != Some(g) ==> Settled(s.gens[g])
  }

  /** The cleanup of one attempt while another attempt of the same run has the card and its
      own end still pending. */
  ghost predicate Stray(s: Loop, act: Act) {
    && act.Cleanup2? && EndPending(s, act.g) && s.gens[act.g].pc2.Sent?
    && s.tracked.Some? && s.tracked.value != act.g && CurrentHasIdOf(s, act.g)
    && EndPending(s, s.tracked.value) && !Settled(s.gens[s.tracked.value])
  }

  /** A step of one run that leaves the card alone and settles no less than before. */
  lemma OneRunSupersedes(s: Loop, s': Loop, g: nat, gen: Gen)
    requires Superseded(s) && g < |s.gens| && s'.tracked == s.tracked && s'.gens == s.gens[g := gen]
    requires gen.group.Some? ==> s.gens[g].group.Some?
    requires Settled(s.gens[g]) ==> Settled(gen)
    ensures Superseded(s')
  {
  }

  lemma ReturnedSettles(gen: Gen)
    requires GenOk(gen) && gen.group.Some? && gen.pc2.Sent?
    ensures var after := gen.(pc2 := Done, group := Some(T.Return(gen.group.value, 1)));
      Settled(after) && IsClosed(after) == IsClosed(gen)
  {
    ReturnGenOk(gen);
    hide GenOk, T.Return;
  }

  lemma DroppingTheCard(s: Loop, s': Loop, g: nat)
    requires Superseded(s) && g < |s.gens| && |s'.gens| == |s.gens| && s'.tracked.None?
    requires s.tracked.Some? && s.tracked.value < |s.gens|
    requires Settled(s'.gens[g])
    requires forall h :: 0 <= h < |s.gens| && h != g ==> s'.gens[h] == s.gens[h]
    ensures Superseded(s') <==> s.tracked.value == g || s.gens[s.tracked.value].group.None? || Settled(s.gens[s.tracked.value])
  {
    var h := s.tracked.value;
    if Superseded(s') && h != g {
      assert s'.gens[h] == s.gens[h];
    }
  }

  lemma CleanupSupersedes(s: Loop, g: nat)
    requires Inv(s) && Superseded(s)
    ensures Superseded(TimerStep(s, Cleanup2(g))) <==> !Stray(s, Cleanup2(g))
  {
    hide Stage, NoFireAfterClose, StageOf, Superseded;
    if EndPending(s, g) && s.gens[g].pc2.Sent? {
      var gen := s.gens[g];
      var after := gen.(pc2 := Done, group := Some(T.Return(gen.group.value, 1)));
      ReturnedSettles(gen);
      hide GenOk, T.Return, Settled, IsClosed;
      var s' := TimerStep(s, Cleanup2(g));
      if CurrentHasIdOf(s, g) {
        DroppingTheCard(s, s', g);
      } else {
        OneRunSupersedes(s, s', g, after);
      }
    }
  }

  lemma CheckSupersedes(s: Loop, g: nat)
    requires Inv(s) && Superseded(s)
    ensures Superseded(TimerStep(s, Check1(g))) && Superseded(TimerStep(s, Rearm1(g)))
  {
    hide Stage, NoFireAfterClose, StageOf, T.Inv, CurrentHasIdOf, Agrees;
    if EndPending(s, g) {
      ReturnGenOk(s.gens[g]);
      if s.gens[g].pc1.Cleared? { RearmGenOk(s.gens[g]); }
      hide T.Return, T.Rearmed;
    }
  }

  lemma PendingIsUnsettled(gen: Gen)
    requires GenOk(gen) && gen.group.Some? && (IsPending(gen.group.value, 0) || IsPending(gen.group.value, 1))
    ensures !Settled(gen)
  {
    TimerGenOk(gen);
    hide GenOk;
  }

  lemma FireSupersedes(s: Loop, g: nat)
    requires Superseded(s) && EndPending(s, g) && GenOk(s.gens[g])
    ensures Superseded(TimerStep(s, Fire1(g))) && Superseded(TimerStep(s, Fire2(g)))
  {
    var gen := s.gens[g];
    if IsPending(gen.group.value, 0) {
      PendingIsUnsettled(gen);
      hide GenOk, T.Fire, Superseded, Settled;
      OneRunSupersedes(s, TimerStep(s, Fire1(g)), g, gen.(group := Some(T.Fire(gen.group.value, 0)), pc1 := Fired));
    }
    if IsPending(gen.group.value, 1) {
      PendingIsUnsettled(gen);
      hide GenOk, T.Fire, Superseded, Settled;
      OneRunSupersedes(s, TimerStep(s, Fire2(g)), g, gen.(group := Some(T.Fire(gen.group.value, 1)), pc2 := Fired));
    }
  }

  lemma SendSupersedes(s: Loop, g: nat)
    requires Superseded(s)
    ensures Superseded(TimerStep(s, Send1(g))) && Superseded(TimerStep(s, Send2(g)))
  {
    hide Superseded;
    if EndPending(s, g) {
      var gen := s.gens[g];
      if gen.pc1.Fired? { OneRunSupersedes(s, TimerStep(s, Send1(g)), g, gen.(pc1 := Sent)); }
      if gen.pc2.Fired? { OneRunSupersedes(s, TimerStep(s, Send2(g)), g, gen.(pc2 := Sent)); }
    }
  }

  lemma NothingToFire(s: Loop, g: nat)
    ensures !EndPending(s, g) ==> TimerStep(s, Fire1(g)) == s && TimerStep(s, Fire2(g)) == s
  {
  }

  lemma TimerStepSupersedes(s: Loop, act: Act)
    requires Inv(s) && Superseded(s)
    ensures Superseded(TimerStep(s, act)) <==> !Stray(s, act)
  {
    hide Superseded, GenOk, Stage, StageOf, NoFireAfterClose, TimerStep;
    match act
    case Cleanup2(g) => CleanupSupersedes(s, g);
    case Check1(g) => CheckSupersedes(s, g);
    case Rearm1(g) => CheckSupersedes(s, g);
    case Fire1(g) => NothingToFire(s, g); if EndPending(s, g) { FireSupersedes(s, g); }
    case Fire2(g) => NothingToFire(s, g); if EndPending(s, g) { FireSupersedes(s, g); }
    case Send1(g) => SendSupersedes(s, g);
    case Send2(g) => SendSupersedes(s, g);
    case _ => OtherActsAreThePolls(s, act);
  }

  lemma OtherActsAreThePolls(s: Loop, act: Act)
    requires !(act.Fire1? || act.Send1? || act.Check1? || act.Rearm1? || act.Fire2? || act.Send2? || act.Cleanup2?)
    ensures TimerStep(s, act) == s
  {
  }

  lemma ClosingSupersedes(s: Loop, s': Loop, g: nat)
    requires Superseded(s) && EndPending(s, g)
    requires s'.gens == CloseGroup(s, g).gens && (s'.tracked == s.tracked || (s.tracked == Some(g) && s'.tracked.None?))
    ensures Superseded(s')
  {
    ClosedIsStopped(s.gens[g].group.value);
    hide T.Closed;
  }

  lemma ClosedIsStopped(gr: T.Group)
    ensures T.Closed(gr).stopped
  {
  }

  lemma DetectionSupersedes(s: Loop, run: Attempt)
    requires Inv(s) && Superseded(s)
    ensures Superseded(PollStep(s, Find(run))) && Superseded(PollStep(s, CreateLands)) && Superseded(PollStep(s, CreateFails))
  {
    hide Stage, NoFireAfterClose, StageOf, GenOk, ClosedAttempt, T.Closed, CloseGroup;
    if CanFind(s, run) && Current(s).Some? { ClosingSupersedes(s, PollStep(s, Find(run)), s.tracked.value); }
  }

  lemma PassSupersedes(s: Loop, startedAt: Time)
    requires Inv(s) && Superseded(s)
    ensures Superseded(PollStep(s, ScheduleEnd(startedAt))) && Superseded(PollStep(s, Evict))
    ensures Superseded(PollStep(s, SendSeed)) && Superseded(PollStep(s, BeginTick)) && Superseded(PollStep(s, SendTick))
  {
    hide Stage, NoFireAfterClose, StageOf, GenOk, T.Rearmed;
  }

  lemma ShutdownSupersedes(s: Loop)
    requires Inv(s) && Superseded(s)
    ensures Superseded(PollStep(s, Shutdown))
  {
    hide Stage, NoFireAfterClose, StageOf, GenOk, T.Closed;
    if s.poll.Idle? && Current(s).Some? && EndPending(s, s.tracked.value) { ClosingSupersedes(s, PollStep(s, Shutdown), s.tracked.value); }
  }

  lemma PollStepSupersedes(s: Loop, act: Act)
    requires Inv(s) && Superseded(s)
    ensures Superseded(PollStep(s, act))
  {
    hide Inv, Superseded;
    match act
    case Find(run) => DetectionSupersedes(s, run);
    case CreateFails => DetectionSupersedes(s, Attempt(0, 0));
    case CreateLands => DetectionSupersedes(s, Attempt(0, 0));
    case ScheduleEnd(startedAt) => PassSupersedes(s, startedAt);
    case SendSeed => PassSupersedes(s, 0);
    case BeginTick => PassSupersedes(s, 0);
    case SendTick => PassSupersedes(s, 0);
    case Evict => PassSupersedes(s, 0);
    case Shutdown => ShutdownSupersedes(s);
    case _ =>
  }

  /** Exactly one kind of act breaks it: a stray cleanup, of a run whose other attempt has
      the card and an end of its own still to come. */
  lemma OnlyStrayCleanupsBreakIt(s: Loop, act: Act)
    requires Inv(s) && Superseded(s)
    ensures Superseded(Step(s, act)) <==> !Stray(s, act)
  {
    hide Inv, Superseded, TimerStep, PollStep;
    TimerStepSupersedes(s, act);
    PollStepSupersedes(s, act);
  }

  ghost predicate NoStray(acts: seq<Act>) {
    acts == [] || (NoStray(acts[..|acts| - 1]) && !Stray(After(acts[..|acts| - 1]), acts[|acts| - 1]))
  }

  lemma {:induction false} SupersededMeansClosed(acts: seq<Act>)
    requires NoStray(acts)
    ensures Superseded(After(acts))
  {
    if acts != [] {
      var before := acts[..|acts| - 1];
      EveryRunKeepsInv(before);
      SupersededMeansClosed(before);
      hide Inv, Step, Superseded, Stray;
      OnlyStrayCleanupsBreakIt(After(before), acts[|acts| - 1]);
    }
  }

  /** In every run without a stray cleanup, an older run with a pending end was closed, or
      has ended, before a newer one has the card; so by OnlyFiredCallbacksOutliveClose an
      ENDED whose phase 2 had not fired by then never reaches the new card. */
  lemma NewerRunClosesTheOlder(acts: seq<Act>, g: nat, h: nat)
    requires var s := After(acts); NoStray(acts) && g < h < |s.gens| && s.gens[g].group.Some? && s.tracked == Some(h)
    ensures GroupClosed(g) in After(acts).trace || After(acts).gens[g].pc2.Done?
  {
    SupersededMeansClosed(acts);
    EveryRunKeepsInv(acts);
  }

  // ---------- A re-run can lose its card ----------

  lemma AfterAppend(acts: seq<Act>, act: Act)
    ensures After(acts + [act]) == Step(After(acts), act)
  {
    assert (acts + [act])[..|acts|] == acts;
  }

  ghost predicate Reachable(s: Loop) { exists acts :: After(acts) == s }

  lemma StepReaches(s: Loop, act: Act)
    requires Reachable(s)
    ensures Reachable(Step(s, act))
  {
    var acts :| After(acts) == s;
    AfterAppend(acts, act);
  }

  // Run 5 ends and its phase 2 fires; run 6 supersedes it and ends in turn; a re-run of 5
  // goes on screen while the first phase-2 callback is still sending.

  const FIRST: Attempt := Attempt(5, 10)

  const OTHER: Attempt := Attempt(6, 20)

  const RERUN: Attempt := Attempt(5, 30)

  const ARMED: T.Group := T.Group(Some(0), false, 1, [T.Pending])

  const PHASE2_OUT: T.Group := T.Group(Some(1), false, 1, [T.Returned, T.Running])

  /** Run 0's phase-2 callback is out. */
  ghost predicate Phase2Out(s: Loop) {
    |s.gens| > 0 && s.gens[0].group.Some? && s.gens[0].pc2.Fired? && s.gens[0].attempt.id == FIRST.id
  }

  ghost predicate Ready(s: Loop, g: nat, id: int) {
    && Reachable(s) && s.poll.Idle? && s.lastEnded.None?
    && |s.gens| == g + 1 && s.tracked == Some(g) && s.gens[g].attempt.id == id
  }

  /** A run is found, carded and seeded. */
  lemma Card(s: Loop, run: Attempt) returns (s': Loop)
    requires Reachable(s) && CanFind(s, run) && s.lastEnded.None?
    requires s.tracked.Some? ==> EndPending(s, s.tracked.value)
    ensures Ready(s', |s.gens|, run.id) && OnScreen(s') && s'.gens[|s.gens|] == Gen(run, None, Waiting, Waiting)
    ensures Phase2Out(s) ==> Phase2Out(s')
  {
    hide Reachable, T.Closed, ClosedAttempt;
    var s1 := Step(s, Find(run));
    StepReaches(s, Find(run));
    var s2 := Step(s1, CreateLands);
    StepReaches(s1, CreateLands);
    s' := Step(s2, SendSeed);
    StepReaches(s2, SendSeed);
  }

  /** The run on screen has its end scheduled. */
  lemma Finish(s: Loop, g: nat, run: Attempt) returns (s': Loop)
    requires Ready(s, g, run.id) && s.gens[g] == Gen(run, None, Waiting, Waiting)
    ensures Ready(s', g, run.id) && s'.gens == s.gens[g := Gen(run, Some(ARMED), Waiting, Waiting)]
    ensures g > 0 && Phase2Out(s) ==> Phase2Out(s')
  {
    hide Reachable;
    s' := Step(s, ScheduleEnd(run.startedAt));
    StepReaches(s, ScheduleEnd(run.startedAt));
    assert T.Rearmed(T.ZERO) == ARMED;
  }

  const PHASE1_OUT: T.Group := T.Group(Some(0), false, 1, [T.Running])

  const PHASE2_ARMED: T.Group := T.Group(Some(1), false, 1, [T.Returned, T.Pending])

  lemma GroupMoves()
    ensures T.Fire(ARMED, 0) == PHASE1_OUT
    ensures T.Return(T.Rearmed(PHASE1_OUT), 0) == PHASE2_ARMED
    ensures T.Fire(PHASE2_ARMED, 1) == PHASE2_OUT
  {
    assert ARMED.timers[0 := T.Running] == [T.Running];
    assert ([T.Running] + [T.Pending])[0 := T.Returned] == [T.Returned, T.Pending];
    assert PHASE2_ARMED.timers[1 := T.Running] == [T.Returned, T.Running];
  }

  /** Phase 1 fires and sends. */
  lemma FireFirst(s: Loop, run: Attempt) returns (s': Loop)
    requires Ready(s, 0, run.id) && s.gens[0] == Gen(run, Some(ARMED), Waiting, Waiting)
    ensures Ready(s', 0, run.id) && s'.gens[0] == Gen(run, Some(PHASE1_OUT), Sent, Waiting)
  {
    GroupMoves();
    hide Reachable, T.Fire;
    var s1 := Step(s, Fire1(0));
    StepReaches(s, Fire1(0));
    s' := Step(s1, Send1(0));
    StepReaches(s1, Send1(0));
  }

  /** Phase 1 finds its run still current and re-arms. */
  lemma ArmSecond(s: Loop, run: Attempt) returns (s': Loop)
    requires Ready(s, 0, run.id) && s.gens[0] == Gen(run, Some(PHASE1_OUT), Sent, Waiting)
    ensures Ready(s', 0, run.id) && s'.gens[0] == Gen(run, Some(PHASE2_ARMED), Done, Waiting)
  {
    GroupMoves();
    hide Reachable, T.Return, T.Rearmed;
    var s1 := Step(s, Check1(0));
    StepReaches(s, Check1(0));
    s' := Step(s1, Rearm1(0));
    StepReaches(s1, Rearm1(0));
  }

  /** Phase 1 runs through, and phase 2 fires. */
  lemma FirePhases(s: Loop, run: Attempt) returns (s': Loop)
    requires Ready(s, 0, run.id) && s.gens[0] == Gen(run, Some(ARMED), Waiting, Waiting)
    ensures Ready(s', 0, run.id) && s'.gens[0] == Gen(run, Some(PHASE2_OUT), Done, Fired)
  {
    var s1 := FireFirst(s, run);
    var s2 := ArmSecond(s1, run);
    GroupMoves();
    hide Reachable, T.Fire;
    s' := Step(s2, Fire2(0));
    StepReaches(s2, Fire2(0));
  }

  /** The re-run is on screen while the first attempt's phase-2 callback is out. */
  lemma RerunIsCarded() returns (s: Loop)
    ensures Ready(s, 2, RERUN.id) && OnScreen(s) && Phase2Out(s) && s.gens[2] == Gen(RERUN, None, Waiting, Waiting)
  {
    StartReachable();
    hide Reachable, Step;
    var s1 := Card(START, FIRST);
    var s2 := Finish(s1, 0, FIRST);
    var s3 := FirePhases(s2, FIRST);
    var s4 := Card(s3, OTHER);
    var s5 := Finish(s4, 1, OTHER);
    s := Card(s5, RERUN);
  }

  /** The loop can reach a state where a late phase-2 callback takes a live re-run off the
      card: ids do not tell the attempts apart there. */
  lemma RerunCanLoseItsCard() returns (s: Loop)
    ensures Reachable(s) && OnScreen(s) && s.tracked == Some(2) && EndPending(s, 0)
    ensures Current(Step(s, Cleanup2(0))).None?
  {
    hide Step;
    var s6 := RerunIsCarded();
    s := LateSend(s6);
  }

  const NEXT_RUN: Attempt := Attempt(7, 40)

  /** A stray cleanup drops the re-run while its own end is pending. */
  lemma StrayDropsTheRerun(s: Loop) returns (s': Loop)
    requires Ready(s, 2, FIRST.id) && Phase2Out(s) && s.gens[2] == Gen(RERUN, Some(ARMED), Waiting, Waiting)
    ensures Reachable(s') && s'.poll.Idle? && s'.tracked.None? && s'.lastEnded == Some(s.gens[0].attempt)
    ensures |s'.gens| == 3 && s'.gens[2] == s.gens[2]
  {
    hide Reachable, T.Return;
    var sent := Step(s, Send2(0));
    StepReaches(s, Send2(0));
    s' := Step(sent, Cleanup2(0));
    StepReaches(sent, Cleanup2(0));
  }

  /** And the next run is carded with nothing to close. */
  lemma NextRunIsCarded(s: Loop) returns (s': Loop)
    requires Reachable(s) && s.poll.Idle? && s.tracked.None? && |s.gens| == 3
    requires s.lastEnded.Some? && s.lastEnded.value.id == FIRST.id
    ensures Reachable(s') && s'.tracked == Some(3) && |s'.gens| == 4 && s'.gens[2] == s.gens[2]
  {
    hide Reachable;
    var found := Step(s, Find(NEXT_RUN));
    StepReaches(s, Find(NEXT_RUN));
    var landed := Step(found, CreateLands);
    StepReaches(found, CreateLands);
    s' := Step(landed, SendSeed);
    StepReaches(landed, SendSeed);
  }

  /** Without that condition a newer run can take the card from an older one whose group
      was never closed: both phases of the older one's end are still to fire. */
  lemma AnEndCanOutliveItsCard() returns (s: Loop)
    ensures Reachable(s) && s.tracked == Some(3) && |s.gens| == 4 && EndPending(s, 2)
    ensures GroupClosed(2) !in s.trace && !s.gens[2].pc2.Done? && IsPending(s.gens[2].group.value, 0)
  {
    hide Step;
    var carded := RerunIsCarded();
    var ending := Finish(carded, 2, RERUN);
    var dropped := StrayDropsTheRerun(ending);
    s := NextRunIsCarded(dropped);
    ReachableInv(s);
    hide Reachable, GenOk, Stage, NoFireAfterClose;
  }

  lemma ReachableInv(s: Loop)
    requires Reachable(s)
    ensures Inv(s)
  {
    var acts :| After(acts) == s;
    EveryRunKeepsInv(acts);
  }

  lemma LateSend(s: Loop) returns (s': Loop)
    requires Ready(s, 2, FIRST.id) && OnScreen(s) && Phase2Out(s)
    ensures Reachable(s') && OnScreen(s') && s'.tracked == Some(2) && EndPending(s', 0)
    ensures Current(Step(s', Cleanup2(0))).None?
  {
    hide Reachable;
    s' := Step(s, Send2(0));
    StepReaches(s, Send2(0));
  }

  lemma StartReachable()
    ensures Reachable(START)
  {
    assert After([]) == START;
  }
}
