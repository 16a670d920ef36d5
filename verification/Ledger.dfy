/** backrest/internal/poller/poller.go: which operations the bridge has open, which it has
    closed out, and the two-phase ends still under way. */
module Ledger {
  import opened Prelude
  import opened Clock

  const MAX_SEND_FAILURE_WINDOW: nat := 10 * 60 * SECOND

  /** One operation with an open activity. end names its two-phase close once scheduled. */
  datatype Record = Record(
    opId: int,
    slug: string,
    seeded: bool,
    preempted: bool,
    probedAt: Time,
    failingSince: Time,
    ending: bool,
    end: Option<nat>)

  /** Where a two-phase close stands. A phase is armed, then fired, then returns. */
  datatype Phase = FirstArmed | FirstFired | SecondArmed | SecondFired | Over

  datatype End = End(opId: int, phase: Phase, closed: bool)

  datatype Bridge = Bridge(
    tracked: map<int, Record>,
    done: set<int>,
    ends: seq<End>,
    seen: set<int>,
    primed: bool)

  const FRESH: Bridge := Bridge(map[], {}, [], {}, false)

  datatype Status = Running | Terminal | Pending

  /** A row of the query window, with its finish stamp in milliseconds of the Unix epoch,
      zero where Backrest never stamped one. */
  datatype Op = Op(id: int, slug: string, status: Status, endedMs: int)

  const MILLISECOND: nat := 1_000_000
  const HEARTBEAT_FLOOR: nat := 30 * SECOND
  const DEFAULT_STALE_TIMEOUT: nat := 30 * 60 * SECOND

  /** The gap between two updates at most: half the stale timeout, floored. */
  function Heartbeat(staleTimeout: nat): nat { Max(staleTimeout / 2, HEARTBEAT_FLOOR) }

  /** How recently a finish must lie to be announced. Zero takes the shipped default. */
  function AdoptWindow(staleTimeout: nat): (d: nat)
    ensures d > 0
  {
    if staleTimeout > 0 then staleTimeout else DEFAULT_STALE_TIMEOUT
  }

  /** Whether a finish lies within d of now, on either side: the stamp is another host's. */
  predicate EndedWithin(op: Op, now: Time, d: nat) {
    op.endedMs > 0 && -(d as int) < now - (UNIX_EPOCH * SECOND + op.endedMs * MILLISECOND) < d
  }

  /** What becomes of a push. A first one is two requests, a create and the opening frame:
      HalfLands is the create alone, and a plain rejection where there is none to make. */
  datatype Outcome = Lands | Evicted | HalfLands | Fails

  predicate Rejects(o: Outcome) { o.HalfLands? || o.Fails? }

  /** A row being handled: whether the throttle finds the tick worth a push, the time, and
      what becomes of a send. */
  datatype Row = Row(op: Op, worth: bool, now: Time, outcome: Outcome)

  /** What leaves the bridge on behalf of an operation, timers aside. Create puts up an
      activity without its opening frame. */
  datatype Act = Seed(id: int) | Create(id: int) | Send(id: int) | ScheduleEnd(id: int) | Abandon(id: int)

  // ---------- The steps as functions ----------

  function NewRecord(op: Op): Record {
    Record(op.id, op.slug, false, false, 0, 0, false, None)
  }

  /** TimerGroup.Close on a two-phase end: an armed phase never fires, a fired one runs on. */
  function ClosedEnd(e: End): End {
    if e.phase == FirstArmed || e.phase == SecondArmed then e.(phase := Over, closed := true) else e.(closed := true)
  }

  predicate Superseded(r: Record, slug: string) { r.slug == slug && r.ending }

  predicate EndSuperseded(tracked: map<int, Record>, ends: seq<End>, slug: string, k: nat)
    requires k < |ends|
  {
    var id := ends[k].opId;
    id in tracked && Superseded(tracked[id], slug) && tracked[id].end == Some(k)
  }

  function Kept(tracked: map<int, Record>, slug: string): map<int, Record> {
    map id | id in tracked && !Superseded(tracked[id], slug) :: tracked[id]
  }

  function EndsAfter(tracked: map<int, Record>, ends: seq<End>, slug: string): (r: seq<End>)
    ensures |r| == |ends|
    ensures forall k :: 0 <= k < |ends| ==> r[k] == if EndSuperseded(tracked, ends, slug, k) then ClosedEnd(ends[k]) else ends[k]
  {
    seq(|ends|, k requires 0 <= k < |ends| => if EndSuperseded(tracked, ends, slug, k) then ClosedEnd(ends[k]) else ends[k])
  }

  /** Whether the bridge has a record to work on: not for an operation closed out, nor for
      one whose close is under way. */
  predicate Opens(b: Bridge, op: Op) {
    op.id !in b.done && !(op.id in b.tracked && b.tracked[op.id].ending)
  }

  /** A first sight also ends the closing activities that share the slug. */
  function Tracked(b: Bridge, op: Op): Bridge {
    if op.id in b.done || op.id in b.tracked then b
    else b.(tracked := Kept(b.tracked, op.slug)[op.id := NewRecord(op)], ends := EndsAfter(b.tracked, b.ends, op.slug))
  }

  function Abandoned(b: Bridge, id: int): Bridge {
    b.(done := b.done + {id}, tracked := b.tracked - {id})
  }

  function Scheduled(b: Bridge, id: int): Bridge
    requires id in b.tracked
  {
    b.(tracked := b.tracked[id := b.tracked[id].(ending := true, end := Some(|b.ends|))],
       done := b.done + {id},
       ends := b.ends + [End(id, FirstArmed, false)])
  }

  /** A preempted activity is probed only once a staleTimeout has passed. */
  predicate Holds(r: Record, now: Time, staleTimeout: nat) {
    r.preempted && now - r.probedAt < Heartbeat(staleTimeout)
  }

  predicate GivesUp(r: Record, row: Row) {
    !r.preempted && Rejects(row.outcome) && !IsZero(r.failingSince) && row.now - r.failingSince >= MAX_SEND_FAILURE_WINDOW
  }

  /** The record after a send. */
  function Pushed(r: Record, row: Row): Record {
    match row.outcome
    case Lands => r.(seeded := true, preempted := false, failingSince := 0, probedAt := if r.preempted then row.now else r.probedAt)
    case Evicted => r.(preempted := true, failingSince := 0, probedAt := row.now)
    case HalfLands | Fails =>
      if r.preempted then r.(probedAt := row.now)
      else if IsZero(r.failingSince) then r.(failingSince := row.now)
      else r
  }

  /** An activity the server has evicted is one that exists. */
  function Sent(r: Record, id: int, o: Outcome): Act {
    if r.seeded || o.Fails? then Send(id) else if o.Lands? then Seed(id) else Create(id)
  }

  /** What push makes of the bridge, what leaves it, and whether it reports no error. */
  function Push(b: Bridge, row: Row, staleTimeout: nat): (Bridge, seq<Act>, bool)
    requires row.op.id in b.tracked
  {
    var id, r := row.op.id, b.tracked[row.op.id];
    if Holds(r, row.now, staleTimeout) then (b, [], true)
    else
      var act := Sent(r, id, row.outcome);
      if GivesUp(r, row) then (Abandoned(b, id), [act, Abandon(id)], false)
      else (b.(tracked := b.tracked[id := Pushed(r, row)]), [act], !Rejects(row.outcome))
  }

  function HandleRunning(b: Bridge, row: Row, staleTimeout: nat): (Bridge, seq<Act>) {
    if !Opens(b, row.op) then (Tracked(b, row.op), [])
    else
      var t := Tracked(b, row.op);
      if t.tracked[row.op.id].seeded && !row.worth then (t, [])
      else
        var (p, acts, _) := Push(t, row, staleTimeout);
        (p, acts)
  }

  function HandleTerminal(b: Bridge, row: Row, staleTimeout: nat): (Bridge, seq<Act>) {
    if !Opens(b, row.op) then (Tracked(b, row.op), [])
    else
      var (p, acts, ok) := Push(Tracked(b, row.op), row, staleTimeout);
      if ok && row.op.id in p.tracked then (Scheduled(p, row.op.id), acts + [ScheduleEnd(row.op.id)]) else (p, acts)
  }

  function AdoptFinished(b: Bridge, row: Row, staleTimeout: nat): (Bridge, seq<Act>) {
    if EndedWithin(row.op, row.now, AdoptWindow(staleTimeout)) then HandleTerminal(b, row, staleTimeout)
    else (b.(done := b.done + {row.op.id}), [])
  }

  function HandleRow(b: Bridge, row: Row, staleTimeout: nat): (Bridge, seq<Act>) {
    var s := b.(seen := b.seen + {row.op.id});
    match row.op.status
    case Running => if b.primed then HandleRunning(s, row, staleTimeout) else (s, [])
    case Terminal =>
      if b.primed && row.op.id in b.tracked then HandleTerminal(s, row, staleTimeout) else AdoptFinished(s, row, staleTimeout)
    case Pending => (s, [])
  }

  /** An operation that left the window unfinished is closed, or dropped if it never had a card. */
  function Vanished(b: Bridge, id: int): (Bridge, seq<Act>)
    requires id in b.tracked
  {
    if b.tracked[id].seeded then (Scheduled(b, id), [ScheduleEnd(id)]) else (Abandoned(b, id), [Abandon(id)])
  }

  function Pruned(b: Bridge): Bridge {
    b.(done := b.done * b.seen, seen := {}, primed := true)
  }

  function Fired(e: End): End {
    if e.phase == FirstArmed then e.(phase := FirstFired)
    else if e.phase == SecondArmed then e.(phase := SecondFired)
    else e
  }

  /** A fired phase returns: the first re-arms unless the group was closed, the second
      drops the record filed under its operation - whichever record that is by now. */
  function Returned(b: Bridge, k: nat): Bridge
    requires k < |b.ends|
  {
    var e := b.ends[k];
    if e.phase == FirstFired then
      b.(ends := b.ends[k := e.(phase := if e.closed then Over else SecondArmed)])
    else if e.phase == SecondFired then
      b.(ends := b.ends[k := e.(phase := Over)], tracked := b.tracked - {e.opId})
    else b
  }

  // ---------- Runs ----------

  /** Rows arrive until a poll ends; what vanished is closed before it does. Timers fire and
      return in between. */
  datatype Event =
    | See(row: Row)
    | Vanish(id: int)
    | EndPoll
    | Fire(k: nat)
    | Return(k: nat)

  predicate Orphan(b: Bridge, id: int) {
    id in b.tracked && id !in b.seen && !b.tracked[id].ending
  }

  ghost predicate Possible(b: Bridge, e: Event) {
    match e
    case See(_) => true
    case Vanish(id) => Orphan(b, id)
    case EndPoll => forall id :: id in b.tracked ==> !Orphan(b, id)
    case Fire(k) => k < |b.ends| && (b.ends[k].phase == FirstArmed || b.ends[k].phase == SecondArmed)
    case Return(k) => k < |b.ends| && (b.ends[k].phase == FirstFired || b.ends[k].phase == SecondFired)
  }

  function Next(b: Bridge, e: Event, staleTimeout: nat): (Bridge, seq<Act>) {
    match e
    case See(row) => HandleRow(b, row, staleTimeout)
    case Vanish(id) => if id in b.tracked then Vanished(b, id) else (b, [])
    case EndPoll => (Pruned(b), [])
    case Fire(k) => (if k < |b.ends| then b.(ends := b.ends[k := Fired(b.ends[k])]) else b, [])
    case Return(k) => (if k < |b.ends| then Returned(b, k) else b, [])
  }

  /** What an onlooker counts during one stay of an operation in the query window. over is
      set by a scheduled end or by giving up; late counts what is sent after that; up says
      that an activity was put up. */
  datatype Stay = Stay(seeds: nat, ends: nat, over: bool, late: nat, up: bool)

  const NO_STAY: Stay := Stay(0, 0, false, 0, false)

  function StayOf(stays: map<int, Stay>, id: int): Stay {
    if id in stays then stays[id] else NO_STAY
  }

  function Counted(s: Stay, act: Act): Stay {
    match act
    case Seed(_) => s.(seeds := s.seeds + 1, late := if s.over then s.late + 1 else s.late, up := true)
    case Create(_) => s.(late := if s.over then s.late + 1 else s.late, up := true)
    case Send(_) => s.(late := if s.over then s.late + 1 else s.late)
    case ScheduleEnd(_) => s.(ends := s.ends + 1, over := true)
    case Abandon(_) => s.(over := true)
  }

  /** One operation's count after some acts of its own. */
  function Tally(s: Stay, acts: seq<Act>): Stay {
    if acts == [] then s else Counted(Tally(s, acts[..|acts| - 1]), acts[|acts| - 1])
  }

  function CountedAll(stays: map<int, Stay>, acts: seq<Act>): map<int, Stay> {
    if acts == [] then stays
    else
      var before, act := CountedAll(stays, acts[..|acts| - 1]), acts[|acts| - 1];
      before[act.id := Counted(StayOf(before, act.id), act)]
  }

  /** A stay is over once a poll ends without its operation. */
  function Watch(stays: map<int, Stay>, b: Bridge, e: Event, acts: seq<Act>): map<int, Stay> {
    if e == EndPoll then map id | id in stays && id in b.seen :: stays[id] else CountedAll(stays, acts)
  }

  /** The bridge and its onlooker. */
  datatype World = World(bridge: Bridge, stays: map<int, Stay>)

  const START: World := World(FRESH, map[])

  function Step(w: World, e: Event, staleTimeout: nat): World {
    var (b, acts) := Next(w.bridge, e, staleTimeout);
    World(b, Watch(w.stays, w.bridge, e, acts))
  }

  /** The cleanup of an end whose operation has meanwhile been opened again: the record it
      drops is a seeded, open one, not its own. */
  predicate Stray(b: Bridge, e: Event) {
    && e.Return? && e.k < |b.ends| && b.ends[e.k].phase == SecondFired
    && b.ends[e.k].opId in b.tracked
    && var r := b.tracked[b.ends[e.k].opId];
    r.seeded && !r.ending
  }

  ghost predicate Run(w: World, es: seq<Event>, staleTimeout: nat)
    decreases |es|
  {
    es == [] || (Possible(w.bridge, es[0]) && Run(Step(w, es[0], staleTimeout), es[1..], staleTimeout))
  }

  ghost predicate NoStray(w: World, es: seq<Event>, staleTimeout: nat)
    decreases |es|
  {
    es == [] || (!Stray(w.bridge, es[0]) && NoStray(Step(w, es[0], staleTimeout), es[1..], staleTimeout))
  }

  function From(w: World, es: seq<Event>, staleTimeout: nat): World
    decreases |es|
  {
    if es == [] then w else From(Step(w, es[0], staleTimeout), es[1..], staleTimeout)
  }

  // ---------- The invariant ----------

  predicate IsOpen(b: Bridge, id: int) { id in b.tracked && !b.tracked[id].ending }

  /** One operation's bookkeeping against what the onlooker counted. */
  ghost predicate Sound(b: Bridge, s: Stay, id: int) {
    && s.seeds <= 1 && s.ends <= 1 && s.late == 0
    && (s.ends > 0 ==> s.over)
    && (s.over ==> id in b.done && !IsOpen(b, id))
    && (IsOpen(b, id) ==> (b.tracked[id].seeded <==> s.seeds == 1))
    && (s.seeds == 1 && !s.over ==> IsOpen(b, id))
  }

  ghost predicate Inv(w: World) {
    && (forall id :: Sound(w.bridge, StayOf(w.stays, id), id))
    && (forall id :: id in w.bridge.tracked ==> w.bridge.tracked[id].opId == id)
  }

  /** An event that leaves an operation's record as open as it was, and its stay alone. */
  ghost predicate Untouched(b: Bridge, b': Bridge, id: int) {
    && (id in b'.done <==> id in b.done)
    && (IsOpen(b', id) <==> IsOpen(b, id))
    && (IsOpen(b, id) ==> b'.tracked[id].seeded == b.tracked[id].seeded)
  }

  lemma UntouchedSound(b: Bridge, b': Bridge, s: Stay, id: int)
    requires Sound(b, s, id) && Untouched(b, b', id)
    ensures Sound(b', s, id)
  {
  }

  ghost predicate OwnIds(b: Bridge) {
    forall id :: id in b.tracked ==> b.tracked[id].opId == id
  }

  /** What one step does for one operation: its bookkeeping moves with its acts, and every
      other operation's is left alone. */
  ghost predicate StepFor(b: Bridge, b': Bridge, acts: seq<Act>, id: int, s: Stay) {
    && OwnIds(b') && Sound(b', Tally(s, acts), id)
    && (forall i :: 0 <= i < |acts| ==> acts[i].id == id)
    && (forall other :: other != id ==> Untouched(b, b', other))
  }

  lemma TallyNone(s: Stay)
    ensures Tally(s, []) == s
  {
  }

  lemma TallyMore(s: Stay, acts: seq<Act>, act: Act)
    ensures Tally(s, acts + [act]) == Counted(Tally(s, acts), act)
  {
    assert (acts + [act])[..|acts|] == acts;
  }

  lemma TallyOne(s: Stay, act: Act)
    ensures Tally(s, [act]) == Counted(s, act)
  {
    assert [act][..0] == [];
  }

  lemma TrackedStep(b: Bridge, op: Op, s: Stay)
    requires OwnIds(b) && Sound(b, s, op.id)
    ensures var t := Tracked(b, op);
      && StepFor(b, t, [], op.id, s)
      && (Opens(b, op) ==> IsOpen(t, op.id) && op.id !in t.done)
      && (!Opens(b, op) ==> t == b)
  {
    TallyNone(s);
    hide Tally;
  }

  lemma PushStep(b: Bridge, row: Row, staleTimeout: nat, s: Stay)
    requires IsOpen(b, row.op.id) && row.op.id !in b.done && OwnIds(b) && Sound(b, s, row.op.id)
    ensures var (p, acts, ok) := Push(b, row, staleTimeout);
      StepFor(b, p, acts, row.op.id, s) && (ok ==> IsOpen(p, row.op.id) && row.op.id !in p.done)
  {
    TallyNone(s);
    TallyOne(s, Seed(row.op.id));
    TallyOne(s, Send(row.op.id));
    TallyOne(s, Create(row.op.id));
    TallyMore(s, [Create(row.op.id)], Abandon(row.op.id));
    TallyMore(s, [Send(row.op.id)], Abandon(row.op.id));
    assert [Create(row.op.id)] + [Abandon(row.op.id)] == [Create(row.op.id), Abandon(row.op.id)];
    assert [Send(row.op.id)] + [Abandon(row.op.id)] == [Send(row.op.id), Abandon(row.op.id)];
    hide Tally;
  }

  lemma ScheduledStep(b: Bridge, id: int, s: Stay)
    requires IsOpen(b, id) && OwnIds(b) && Sound(b, s, id) && s.ends == 0
    ensures StepFor(b, Scheduled(b, id), [ScheduleEnd(id)], id, s)
  {
    TallyOne(s, ScheduleEnd(id));
    hide Tally;
  }

  lemma {:induction false} TallySplit(s: Stay, a: seq<Act>, c: seq<Act>)
    ensures Tally(s, a + c) == Tally(Tally(s, a), c)
  {
    if c == [] {
      assert a + c == a;
    } else {
      assert (a + c)[..|a + c| - 1] == a + c[..|c| - 1];
      TallySplit(s, a, c[..|c| - 1]);
    }
  }

  /** Two steps for the same operation, one after the other. */
  lemma Chain(b: Bridge, m: Bridge, b': Bridge, a: seq<Act>, c: seq<Act>, id: int, s: Stay)
    requires StepFor(b, m, a, id, s) && StepFor(m, b', c, id, Tally(s, a))
    ensures StepFor(b, b', a + c, id, s)
  {
    TallySplit(s, a, c);
    hide Tally, Sound;
    forall other | other != id
      ensures Untouched(b, b', other)
    {
      assert Untouched(b, m, other) && Untouched(m, b', other);
    }
  }

  lemma SeeingStep(b: Bridge, id: int, s: Stay)
    requires OwnIds(b) && Sound(b, s, id)
    ensures StepFor(b, b.(seen := b.seen + {id}), [], id, s)
  {
    TallyNone(s);
    hide Tally;
  }

  lemma MarkDoneStep(b: Bridge, id: int, s: Stay)
    requires OwnIds(b) && Sound(b, s, id)
    ensures StepFor(b, b.(done := b.done + {id}), [], id, s)
  {
    TallyNone(s);
    hide Tally;
  }

  lemma RunningStep(b: Bridge, row: Row, staleTimeout: nat, s: Stay)
    requires OwnIds(b) && Sound(b, s, row.op.id)
    ensures var (p, acts) := HandleRunning(b, row, staleTimeout); StepFor(b, p, acts, row.op.id, s)
  {
    TrackedStep(b, row.op, s);
    if Opens(b, row.op) {
      var t := Tracked(b, row.op);
      TallyNone(s);
      hide Tally, Tracked, Push, Sound, Untouched;
      if !(t.tracked[row.op.id].seeded && !row.worth) {
        PushStep(t, row, staleTimeout, s);
        var (p, acts, ok) := Push(t, row, staleTimeout);
        Chain(b, t, p, [], acts, row.op.id, s);
        assert [] + acts == acts;
      }
    }
  }

  lemma OpenHasNoEnd(b: Bridge, s: Stay, id: int)
    requires Sound(b, s, id) && IsOpen(b, id)
    ensures s.ends == 0
  {
  }

  lemma TerminalStep(b: Bridge, row: Row, staleTimeout: nat, s: Stay)
    requires OwnIds(b) && Sound(b, s, row.op.id)
    ensures var (p, acts) := HandleTerminal(b, row, staleTimeout); StepFor(b, p, acts, row.op.id, s)
  {
    TrackedStep(b, row.op, s);
    if Opens(b, row.op) {
      var id, t := row.op.id, Tracked(b, row.op);
      TallyNone(s);
      hide Tally, Tracked, Push, Sound, Untouched, Scheduled;
      PushStep(t, row, staleTimeout, s);
      var (p, acts, ok) := Push(t, row, staleTimeout);
      Chain(b, t, p, [], acts, id, s);
      assert [] + acts == acts;
      if ok {
        OpenHasNoEnd(p, Tally(s, acts), id);
        ScheduledStep(p, id, Tally(s, acts));
        Chain(b, p, Scheduled(p, id), acts, [ScheduleEnd(id)], id, s);
      }
    }
  }

  lemma RowStep(b: Bridge, row: Row, staleTimeout: nat, s: Stay)
    requires OwnIds(b) && Sound(b, s, row.op.id)
    ensures var (p, acts) := HandleRow(b, row, staleTimeout); StepFor(b, p, acts, row.op.id, s)
  {
    var m := b.(seen := b.seen + {row.op.id});
    SeeingStep(b, row.op.id, s);
    TallyNone(s);
    MarkDoneStep(m, row.op.id, s);
    RunningStep(m, row, staleTimeout, s);
    TerminalStep(m, row, staleTimeout, s);
    SeeingStep(m, row.op.id, s);
    assert m.(seen := m.seen + {row.op.id}) == m;
    hide StepFor, HandleRunning, HandleTerminal, Tally;
    var (p, acts) := HandleRow(b, row, staleTimeout);
    Chain(b, m, p, [], acts, row.op.id, s);
    assert [] + acts == acts;
  }

  lemma VanishStep(b: Bridge, id: int, s: Stay)
    requires OwnIds(b) && Sound(b, s, id) && IsOpen(b, id)
    ensures var (p, acts) := Vanished(b, id); StepFor(b, p, acts, id, s)
  {
    OpenHasNoEnd(b, s, id);
    ScheduledStep(b, id, s);
    TallyOne(s, Abandon(id));
    hide Tally, Scheduled;
  }

  // ---------- Every run ----------

  lemma {:induction false} CountedAllFacts(stays: map<int, Stay>, acts: seq<Act>, id: int)
    requires forall i :: 0 <= i < |acts| ==> acts[i].id == id
    ensures StayOf(CountedAll(stays, acts), id) == Tally(StayOf(stays, id), acts)
    ensures forall other :: other != id ==> StayOf(CountedAll(stays, acts), other) == StayOf(stays, other)
  {
    if acts != [] {
      CountedAllFacts(stays, acts[..|acts| - 1], id);
    }
  }

  lemma StepForKeepsInv(w: World, b': Bridge, acts: seq<Act>, id: int)
    requires Inv(w) && StepFor(w.bridge, b', acts, id, StayOf(w.stays, id))
    ensures Inv(World(b', CountedAll(w.stays, acts)))
  {
    CountedAllFacts(w.stays, acts, id);
    hide Sound, Untouched, Tally, CountedAll;
    forall other
      ensures Sound(b', StayOf(CountedAll(w.stays, acts), other), other)
    {
      if other != id {
        assert Untouched(w.bridge, b', other) && Sound(w.bridge, StayOf(w.stays, other), other);
        UntouchedSound(w.bridge, b', StayOf(w.stays, other), other);
      }
    }
  }

  lemma EndPollKeepsInv(w: World, staleTimeout: nat)
    requires Inv(w) && Possible(w.bridge, EndPoll)
    ensures Inv(Step(w, EndPoll, staleTimeout))
  {
    var next := Step(w, EndPoll, staleTimeout);
    forall id
      ensures Sound(next.bridge, StayOf(next.stays, id), id)
    {
      assert Sound(w.bridge, StayOf(w.stays, id), id);
      assert !Orphan(w.bridge, id);
    }
  }

  lemma TimersKeepInv(w: World, e: Event, staleTimeout: nat)
    requires Inv(w) && Possible(w.bridge, e) && (e.Fire? || e.Return?) && !Stray(w.bridge, e)
    ensures Inv(Step(w, e, staleTimeout))
  {
    var next := Step(w, e, staleTimeout);
    forall id
      ensures Sound(next.bridge, StayOf(next.stays, id), id)
    {
      assert Sound(w.bridge, StayOf(w.stays, id), id);
    }
  }

  lemma NextKeepsInv(w: World, e: Event, staleTimeout: nat)
    requires Inv(w) && Possible(w.bridge, e) && !Stray(w.bridge, e)
    ensures Inv(Step(w, e, staleTimeout))
  {
    hide Sound, StepFor, HandleRow, Vanished, CountedAll;
    match e
    case See(row) =>
      var (b, acts) := HandleRow(w.bridge, row, staleTimeout);
      assert Sound(w.bridge, StayOf(w.stays, row.op.id), row.op.id);
      RowStep(w.bridge, row, staleTimeout, StayOf(w.stays, row.op.id));
      StepForKeepsInv(w, b, acts, row.op.id);
    case Vanish(id) =>
      var (b, acts) := Vanished(w.bridge, id);
      assert Sound(w.bridge, StayOf(w.stays, id), id);
      VanishStep(w.bridge, id, StayOf(w.stays, id));
      StepForKeepsInv(w, b, acts, id);
    case EndPoll => EndPollKeepsInv(w, staleTimeout);
    case Fire(_) => TimersKeepInv(w, e, staleTimeout);
    case Return(_) => TimersKeepInv(w, e, staleTimeout);
  }

  lemma {:induction false} EveryRunKeepsInv(w: World, es: seq<Event>, staleTimeout: nat)
    requires Inv(w) && Run(w, es, staleTimeout) && NoStray(w, es, staleTimeout)
    ensures Inv(From(w, es, staleTimeout))
    decreases |es|
  {
    if es != [] {
      NextKeepsInv(w, es[0], staleTimeout);
      hide Inv, Stray, Possible, Step;
      EveryRunKeepsInv(Step(w, es[0], staleTimeout), es[1..], staleTimeout);
    }
  }

  /** During one stay in the query window an operation is seeded at most once, has at most
      one two-phase end scheduled, and nothing is sent for it after that or after it was
      given up - in every run in which no stray cleanup drops an open record. */
  lemma OneCardPerStay(es: seq<Event>, staleTimeout: nat, id: int)
    requires Run(START, es, staleTimeout) && NoStray(START, es, staleTimeout)
    ensures var s := StayOf(From(START, es, staleTimeout).stays, id); s.seeds <= 1 && s.ends <= 1 && s.late == 0
  {
    EveryRunKeepsInv(START, es, staleTimeout);
    assert Sound(From(START, es, staleTimeout).bridge, StayOf(From(START, es, staleTimeout).stays, id), id);
  }

  /** A stray cleanup is exactly what breaks it: the bookkeeping no longer knows the card. */
  lemma StrayIsTheOnlyHarm(w: World, e: Event, staleTimeout: nat)
    requires Inv(w) && Possible(w.bridge, e)
    ensures Inv(Step(w, e, staleTimeout)) <==> !Stray(w.bridge, e)
  {
    if Stray(w.bridge, e) {
      StrayForgets(w, e, staleTimeout);
    } else {
      NextKeepsInv(w, e, staleTimeout);
    }
  }

  lemma StrayForgets(w: World, e: Event, staleTimeout: nat)
    requires Inv(w) && Stray(w.bridge, e)
    ensures var id := w.bridge.ends[e.k].opId; var next := Step(w, e, staleTimeout);
      && StayOf(next.stays, id) == StayOf(w.stays, id) && StayOf(next.stays, id).seeds == 1
      && id !in next.bridge.tracked && next.bridge.done == w.bridge.done
      && !StayOf(next.stays, id).over
      && !Sound(next.bridge, StayOf(next.stays, id), id)
  {
    var id := w.bridge.ends[e.k].opId;
    assert Sound(w.bridge, StayOf(w.stays, id), id);
  }

  // ---------- What left the window ----------

  /** An operation that left the window with an activity up has it closed exactly when its
      opening frame had landed; otherwise it is given up as if none had been created. */
  lemma WhenAVanishedCardIsClosed(es: seq<Event>, staleTimeout: nat, id: int)
    requires Run(START, es, staleTimeout) && NoStray(START, es, staleTimeout)
    requires var w := From(START, es, staleTimeout); Orphan(w.bridge, id) && StayOf(w.stays, id).up
    ensures var w := From(START, es, staleTimeout); var s := StayOf(Step(w, Vanish(id), staleTimeout).stays, id);
      s.up && s.over && (s.ends == 1 <==> StayOf(w.stays, id).seeds == 1) && (s.ends == 0 <==> StayOf(w.stays, id).seeds == 0)
  {
    EveryRunKeepsInv(START, es, staleTimeout);
    var w := From(START, es, staleTimeout);
    assert Sound(w.bridge, StayOf(w.stays, id), id);
    var (b, acts) := Vanished(w.bridge, id);
    VanishStep(w.bridge, id, StayOf(w.stays, id));
    CountedAllFacts(w.stays, acts, id);
    TallyOne(StayOf(w.stays, id), ScheduleEnd(id));
    TallyOne(StayOf(w.stays, id), Abandon(id));
    hide From, Run, NoStray, Tally, CountedAll;
  }

  // ---------- What one row brings about ----------

  /** The act of a push that goes out: the opening frame, the create alone, or a frame. */
  ghost predicate Pushes(b: Bridge, row: Row, act: Act) {
    var id := row.op.id;
    if id in b.tracked && b.tracked[id].seeded then act == Send(id)
    else act == match row.outcome
      case Lands => Seed(id)
      case Evicted | HalfLands => Create(id)
      case Fails => Send(id)
  }

  /** A preempted record waits out half the stale timeout, or half a minute, between two sends. */
  ghost predicate IsHeld(b: Bridge, row: Row, staleTimeout: nat) {
    && row.op.id in b.tracked && b.tracked[row.op.id].preempted
    && row.now - b.tracked[row.op.id].probedAt < Max(staleTimeout / 2, 30_000_000_000)
  }

  /** Rejected now, and by nothing but rejections for ten minutes. */
  ghost predicate IsGivenUp(b: Bridge, row: Row) {
    && row.op.id in b.tracked && !b.tracked[row.op.id].preempted && (row.outcome == Fails || row.outcome == HalfLands)
    && b.tracked[row.op.id].failingSince > 0 && row.now - b.tracked[row.op.id].failingSince >= 600_000_000_000
  }

  /** A running row is left alone before the first poll is over, and while its operation is
      closed out or closing, held, or not worth a frame; it opens a card the first time, patches
      it after that, and is given up after ten minutes of rejections. */
  lemma WhatARunningRowSends(b: Bridge, row: Row, staleTimeout: nat)
    requires row.op.status == Running
    ensures var (b', acts) := HandleRow(b, row, staleTimeout); var id := row.op.id;
      var left := !b.primed || id in b.done || IsHeld(b, row, staleTimeout)
        || (id in b.tracked && (b.tracked[id].ending || (b.tracked[id].seeded && !row.worth)));
      && (left ==> acts == [] && b'.done == b.done)
      && (!left ==> |acts| > 0 && Pushes(b, row, acts[0]))
      && (!left && !IsGivenUp(b, row) ==>
          && |acts| == 1 && id in b'.tracked && b'.done == b.done
          && b'.tracked[id].slug == (if id in b.tracked then b.tracked[id].slug else row.op.slug)
          && (b'.tracked[id].seeded <==> row.outcome == Lands || (id in b.tracked && b.tracked[id].seeded))
          && (row.outcome == Evicted ==> b'.tracked[id].preempted) && (row.outcome == Lands ==> !b'.tracked[id].preempted)
          && (b'.tracked[id].preempted ==> b'.tracked[id].probedAt == row.now)
          && (row.outcome == Lands || row.outcome == Evicted ==> b'.tracked[id].failingSince == 0)
          && (id in b.tracked && b.tracked[id].preempted && b'.tracked[id].preempted && row.outcome != Evicted ==>
              b'.tracked[id].failingSince == b.tracked[id].failingSince)
          && (!b'.tracked[id].preempted && row.outcome != Lands ==>
              b'.tracked[id].failingSince == if id in b.tracked && b.tracked[id].failingSince > 0 then b.tracked[id].failingSince else row.now))
      && (!left && IsGivenUp(b, row) ==> acts[1..] == [Abandon(id)] && id in b'.done && id !in b'.tracked)
  {
    hide Kept, EndsAfter;
  }

  /** A finished row of an operation with an open card - or of one that ended just now, on
      either side of our clock - is announced: pushed unless held, and closed unless the push
      was rejected. One that ended at any other time is only recorded as done. */
  lemma WhatAFinishedRowSends(b: Bridge, row: Row, staleTimeout: nat)
    requires row.op.status == Terminal
    ensures var (b', acts) := HandleRow(b, row, staleTimeout); var id := row.op.id;
      var window := if staleTimeout > 0 then staleTimeout else 1_800_000_000_000;
      var age := row.now - (62_135_596_800_000_000_000 + row.op.endedMs * 1_000_000);
      var ours := (b.primed && id in b.tracked) || (row.op.endedMs > 0 && -window < age < window);
      var open := id !in b.done && !(id in b.tracked && b.tracked[id].ending);
      var rejected := row.outcome == Fails || row.outcome == HalfLands;
      && (!ours ==> acts == [] && b'.done == b.done + {id} && b'.tracked == b.tracked)
      && (ours && !open ==> acts == [])
      && (ours && open && IsHeld(b, row, staleTimeout) ==> acts == [ScheduleEnd(id)])
      && (ours && open && !IsHeld(b, row, staleTimeout) && !rejected ==>
          |acts| == 2 && Pushes(b, row, acts[0]) && acts[1] == ScheduleEnd(id))
      && (ours && open && !IsHeld(b, row, staleTimeout) && rejected ==>
          |acts| > 0 && Pushes(b, row, acts[0]) && ScheduleEnd(id) !in acts && (IsGivenUp(b, row) <==> acts[1..] == [Abandon(id)]))
      && (ScheduleEnd(id) in acts ==>
          && id in b'.done && id in b'.tracked && b'.tracked[id].ending
          && b'.tracked[id].end == Some(|b'.ends| - 1) && b'.ends[|b'.ends| - 1] == End(id, FirstArmed, false))
  {
    hide Kept, EndsAfter;
    assert row.op.endedMs * MILLISECOND == row.op.endedMs * 1_000_000;
  }

  /** The first sight of an operation takes over its slug: records closing under it are gone and
      their ends closed for good, fired phases aside, and no other record or end is touched. */
  lemma FirstSightTakesTheSlug(b: Bridge, op: Op)
    requires op.id !in b.done && op.id !in b.tracked
    ensures var t := Tracked(b, op);
      && op.id in t.tracked && t.tracked[op.id].slug == op.slug && !t.tracked[op.id].seeded && !t.tracked[op.id].ending
      && (forall id :: id in b.tracked && b.tracked[id].slug == op.slug && b.tracked[id].ending ==> id !in t.tracked)
      && (forall id :: id in b.tracked && !(b.tracked[id].slug == op.slug && b.tracked[id].ending) ==>
            id in t.tracked && t.tracked[id] == b.tracked[id])
      && (forall id :: id in t.tracked ==> id == op.id || id in b.tracked)
      && |t.ends| == |b.ends|
      && (forall k :: 0 <= k < |b.ends| ==>
            var id := b.ends[k].opId;
            var taken := id in b.tracked && b.tracked[id].slug == op.slug && b.tracked[id].ending && b.tracked[id].end == Some(k);
            && (!taken ==> t.ends[k] == b.ends[k])
            && (taken ==>
                && t.ends[k].closed && t.ends[k].opId == id && t.ends[k].phase != FirstArmed && t.ends[k].phase != SecondArmed
                && (b.ends[k].phase == FirstFired || b.ends[k].phase == SecondFired ==> t.ends[k].phase == b.ends[k].phase)))
  {
  }

  /** A closed end fires nothing more, whatever its phases do after; an open one goes through
      both in turn, and the second, when it returns, drops the record under its operation. */
  lemma HowAnEndGoes(b: Bridge, k: nat, staleTimeout: nat)
    requires k < |b.ends|
    ensures var e := b.ends[k]; var fired := Next(b, Fire(k), staleTimeout).0; var back := Next(b, Return(k), staleTimeout).0;
      && fired.ends[k].phase == (if e.phase == FirstArmed then FirstFired else if e.phase == SecondArmed then SecondFired else e.phase)
      && fired.tracked == b.tracked && fired.done == b.done
      && (e.phase == FirstFired ==> back.ends[k].phase == (if e.closed then Over else SecondArmed) && back.tracked == b.tracked)
      && (e.phase == SecondFired ==> back.ends[k].phase == Over && back.tracked.Keys == b.tracked.Keys - {e.opId})
      && back.done == b.done
      && forall i :: 0 <= i < |b.ends| && i != k ==> fired.ends[i] == b.ends[i] && back.ends[i] == b.ends[i]
  {
  }

  /** Once a poll ends, done holds nothing that the poll did not show. */
  lemma DoneIsPruned(b: Bridge, staleTimeout: nat, id: int)
    ensures var b' := Next(b, EndPoll, staleTimeout).0;
      && (id in b'.done <==> id in b.done && id in b.seen) && b'.primed && b'.seen == {} && b'.tracked == b.tracked && b'.ends == b.ends
  {
  }

  // ---------- Giving up ----------

  /** One operation's record after its rows were pushed in turn. */
  function PushedAll(r: Record, rows: seq<Row>, staleTimeout: nat): Record {
    if rows == [] then r
    else
      var before, row := PushedAll(r, rows[..|rows| - 1], staleTimeout), rows[|rows| - 1];
      if Holds(before, row.now, staleTimeout) then before else Pushed(before, row)
  }

  /** Nothing but rejections from row i on. */
  ghost predicate RejectedSince(rows: seq<Row>, i: nat) {
    i < |rows| && forall j :: i <= j < |rows| ==> Rejects(rows[j].outcome)
  }

  lemma {:induction false} FailingSinceTheFirstRejection(op: Op, rows: seq<Row>, staleTimeout: nat) returns (i: nat)
    ensures var r := PushedAll(NewRecord(op), rows, staleTimeout);
      !IsZero(r.failingSince) ==> !r.preempted && RejectedSince(rows, i) && rows[i].now == r.failingSince
  {
    i := 0;
    if rows != [] {
      var n := |rows| - 1;
      var before := PushedAll(NewRecord(op), rows[..n], staleTimeout);
      i := FailingSinceTheFirstRejection(op, rows[..n], staleTimeout);
      if IsZero(before.failingSince) {
        i := n;
      }
    }
  }

  /** The bridge gives an operation up only when its sends have been rejected, and nothing
      else, for the whole of the failure window. */
  lemma GivesUpOnlyAfterTheWindow(op: Op, rows: seq<Row>, staleTimeout: nat, row: Row) returns (i: nat)
    requires GivesUp(PushedAll(NewRecord(op), rows, staleTimeout), row)
    ensures RejectedSince(rows + [row], i) && row.now - (rows + [row])[i].now >= MAX_SEND_FAILURE_WINDOW
  {
    i := FailingSinceTheFirstRejection(op, rows, staleTimeout);
  }

  // ---------- A stray cleanup, step by step ----------

  const STILL_RUNNING: Op := Op(1, "slug", Running, 0)
  /** A millisecond past the epoch, when the earlier run finished. */
  const MOMENT: Time := UNIX_EPOCH * SECOND + MILLISECOND

  const EARLIER_RUN: Op := Op(2, "slug", Terminal, 1)

  function LandsAt(op: Op, now: Time): Event { See(Row(op, true, now, Lands)) }

  /** Operation 1 slips out of the window while it runs and is closed; its second phase has
      fired when an earlier run of the same plan slides back in and supersedes it. */
  const SLIPS_OUT: seq<Event> := [EndPoll, LandsAt(STILL_RUNNING, MOMENT), EndPoll, Vanish(1), EndPoll, Fire(0), Return(0), Fire(0)]

  const SLIPS_BACK: seq<Event> := [LandsAt(EARLIER_RUN, MOMENT), LandsAt(STILL_RUNNING, MOMENT), EndPoll]

  const STRAY_CLEANUP: seq<Event> := [Return(0), LandsAt(STILL_RUNNING, MOMENT)]

  function RecordOf(id: int, end: Option<nat>): Record { Record(id, "slug", true, false, 0, 0, end.Some?, end) }

  const SLIPPED_OUT: World :=
    World(Bridge(map[1 := RecordOf(1, Some(0))], {}, [End(1, SecondFired, false)], {}, true), map[])

  const SLIPPED_BACK: World :=
    World(Bridge(map[1 := RecordOf(1, None)], {2}, [End(1, SecondFired, true), End(2, Over, true)], {}, true),
          map[1 := Stay(1, 0, false, 0, true), 2 := Stay(1, 1, true, 0, true)])

  ghost predicate Goes(w: World, es: seq<Event>, w': World, staleTimeout: nat) {
    Run(w, es, staleTimeout) && From(w, es, staleTimeout) == w'
  }

  lemma GoesOn(w: World, e: Event, m: World, es: seq<Event>, w': World, staleTimeout: nat)
    requires Possible(w.bridge, e) && Step(w, e, staleTimeout) == m && Goes(m, es, w', staleTimeout)
    ensures Goes(w, [e] + es, w', staleTimeout)
  {
    assert ([e] + es)[1..] == es;
  }

  lemma GoesThrough(w: World, a: seq<Event>, m: World, c: seq<Event>, w': World, staleTimeout: nat)
    requires Goes(w, a, m, staleTimeout) && Goes(m, c, w', staleTimeout)
    ensures Goes(w, a + c, w', staleTimeout)
    decreases |a|
  {
    if a == [] {
      assert a + c == c;
    } else {
      assert (a + c)[1..] == a[1..] + c;
      GoesThrough(Step(w, a[0], staleTimeout), a[1..], m, c, w', staleTimeout);
    }
  }

  /** A first sight of a running operation, with a send that lands. */
  lemma Seeds(w: World, op: Op, now: Time, staleTimeout: nat)
    requires op.status == Running && w.bridge.primed && op.id !in w.bridge.done && op.id !in w.bridge.tracked
    ensures var t := Tracked(w.bridge, op); var m := Step(w, LandsAt(op, now), staleTimeout);
      && m.bridge == Bridge(t.tracked[op.id := Record(op.id, op.slug, true, false, 0, 0, false, None)],
                            w.bridge.done, t.ends, w.bridge.seen + {op.id}, true)
      && m.stays == w.stays[op.id := Counted(StayOf(w.stays, op.id), Seed(op.id))]
  {
    var row := Row(op, true, now, Lands);
    var s := w.bridge.(seen := w.bridge.seen + {op.id});
    var t := Tracked(s, op);
    assert t.tracked[op.id] == NewRecord(op);
    var (p, acts, ok) := Push(t, row, staleTimeout);
    assert acts == [Seed(op.id)] && acts[..0] == [];
    assert Next(w.bridge, LandsAt(op, now), staleTimeout) == (p, acts);
    assert CountedAll(w.stays, acts[..0]) == w.stays;
  }

  const OPENED: World :=
    World(Bridge(map[1 := RecordOf(1, None)], {}, [], {}, true), map[1 := Stay(1, 0, false, 0, true)])

  function Closing(phase: Phase): World {
    World(Bridge(map[1 := RecordOf(1, Some(0))], {}, [End(1, phase, false)], {}, true), map[])
  }

  lemma Opened(staleTimeout: nat)
    ensures Goes(START, SLIPS_OUT[..3], OPENED, staleTimeout)
  {
    var es := SLIPS_OUT;
    var w1 := World(FRESH.(primed := true), map[]);
    assert Step(START, EndPoll, staleTimeout) == w1;
    Seeds(w1, STILL_RUNNING, 1, staleTimeout);
    var w2 := OPENED.(bridge := OPENED.bridge.(seen := {1}));
    assert Step(w1, es[1], staleTimeout) == w2;
    assert Step(w2, EndPoll, staleTimeout) == OPENED;
    GoesOn(w2, EndPoll, OPENED, [], OPENED, staleTimeout);
    GoesOn(w1, es[1], w2, [EndPoll], OPENED, staleTimeout);
    GoesOn(START, EndPoll, w1, [es[1], EndPoll], OPENED, staleTimeout);
    assert es[..3] == [EndPoll] + ([es[1]] + ([EndPoll] + []));
  }

  lemma Vanishes(staleTimeout: nat)
    ensures Goes(OPENED, [Vanish(1), EndPoll], Closing(FirstArmed), staleTimeout)
  {
    var closing := Closing(FirstArmed);
    var w := World(closing.bridge.(done := {1}), map[1 := Stay(1, 1, true, 0, true)]);
    assert [ScheduleEnd(1)][..0] == [];
    assert Step(OPENED, Vanish(1), staleTimeout) == w;
    assert Step(w, EndPoll, staleTimeout) == closing;
    GoesOn(w, EndPoll, closing, [], closing, staleTimeout);
    GoesOn(OPENED, Vanish(1), w, [EndPoll], closing, staleTimeout);
  }

  lemma BothPhasesFire(staleTimeout: nat)
    ensures Goes(Closing(FirstArmed), [Fire(0), Return(0), Fire(0)], SLIPPED_OUT, staleTimeout)
  {
    assert Step(Closing(FirstArmed), Fire(0), staleTimeout) == Closing(FirstFired);
    assert Step(Closing(FirstFired), Return(0), staleTimeout) == Closing(SecondArmed);
    assert Step(Closing(SecondArmed), Fire(0), staleTimeout) == SLIPPED_OUT;
    GoesOn(Closing(SecondArmed), Fire(0), SLIPPED_OUT, [], SLIPPED_OUT, staleTimeout);
    GoesOn(Closing(FirstFired), Return(0), Closing(SecondArmed), [Fire(0)], SLIPPED_OUT, staleTimeout);
    GoesOn(Closing(FirstArmed), Fire(0), Closing(FirstFired), [Return(0), Fire(0)], SLIPPED_OUT, staleTimeout);
  }

  lemma SlipsOut(staleTimeout: nat)
    ensures Goes(START, SLIPS_OUT, SLIPPED_OUT, staleTimeout)
  {
    Opened(staleTimeout);
    Vanishes(staleTimeout);
    BothPhasesFire(staleTimeout);
    hide Goes;
    GoesThrough(OPENED, [Vanish(1), EndPoll], Closing(FirstArmed), [Fire(0), Return(0), Fire(0)], SLIPPED_OUT, staleTimeout);
    GoesThrough(START, SLIPS_OUT[..3], OPENED, [Vanish(1), EndPoll] + [Fire(0), Return(0), Fire(0)], SLIPPED_OUT, staleTimeout);
    assert SLIPS_OUT == SLIPS_OUT[..3] + ([Vanish(1), EndPoll] + [Fire(0), Return(0), Fire(0)]);
  }

  /** The earlier run is announced and closed in one row, superseding the closing card. */
  lemma EarlierRunIsAnnounced(staleTimeout: nat)
    ensures Step(SLIPPED_OUT, LandsAt(EARLIER_RUN, MOMENT), staleTimeout) == ANNOUNCED
  {
    var row := Row(EARLIER_RUN, true, MOMENT, Lands);
    var s := SLIPPED_OUT.bridge.(seen := {2});
    var t := Tracked(s, EARLIER_RUN);
    assert Superseded(s.tracked[1], "slug");
    assert Kept(s.tracked, "slug") == map[];
    assert t.tracked == map[2 := NewRecord(EARLIER_RUN)];
    assert EndSuperseded(s.tracked, s.ends, "slug", 0);
    assert t.ends == [End(1, SecondFired, true)];
    var (p, acts, ok) := Push(t, row, staleTimeout);
    assert acts == [Seed(2)] && p.tracked == map[2 := RecordOf(2, None)];
    assert HandleTerminal(s, row, staleTimeout) == (Scheduled(p, 2), [Seed(2), ScheduleEnd(2)]) by {
      assert acts + [ScheduleEnd(2)] == [Seed(2), ScheduleEnd(2)];
    }
    var all := [Seed(2), ScheduleEnd(2)];
    assert all[..1] == [Seed(2)] && [Seed(2)][..0] == [];
    assert CountedAll(map[], [Seed(2)]) == map[2 := Stay(1, 0, false, 0, true)];
  }

  const ANNOUNCED: World :=
    World(Bridge(map[2 := RecordOf(2, Some(1))], {2}, [End(1, SecondFired, true), End(2, FirstArmed, false)], {2}, true),
          map[2 := Stay(1, 1, true, 0, true)])

  /** The operation still running is seen again and, its record gone, given a new one. */
  lemma RunningIsReopened(staleTimeout: nat)
    ensures Step(ANNOUNCED, LandsAt(STILL_RUNNING, MOMENT), staleTimeout) == SLIPPED_BACK.(bridge := SLIPPED_BACK.bridge.(seen := {1, 2}))
  {
    var b := ANNOUNCED.bridge;
    Seeds(ANNOUNCED, STILL_RUNNING, 2, staleTimeout);
    hide Step;
    assert Superseded(b.tracked[2], "slug");
    assert Kept(b.tracked, "slug") == map[];
    assert !EndSuperseded(b.tracked, b.ends, "slug", 0);
    assert EndSuperseded(b.tracked, b.ends, "slug", 1);
    assert EndsAfter(b.tracked, b.ends, "slug") == SLIPPED_BACK.bridge.ends;
  }

  const BOTH_SEEN: World := SLIPPED_BACK.(bridge := SLIPPED_BACK.bridge.(seen := {1, 2}))

  lemma PollEnds(staleTimeout: nat)
    ensures Goes(BOTH_SEEN, [EndPoll], SLIPPED_BACK, staleTimeout)
  {
    assert Step(BOTH_SEEN, EndPoll, staleTimeout) == SLIPPED_BACK;
    GoesOn(BOTH_SEEN, EndPoll, SLIPPED_BACK, [], SLIPPED_BACK, staleTimeout);
  }

  lemma SlipsBack(staleTimeout: nat)
    ensures Goes(SLIPPED_OUT, SLIPS_BACK, SLIPPED_BACK, staleTimeout)
  {
    EarlierRunIsAnnounced(staleTimeout);
    RunningIsReopened(staleTimeout);
    PollEnds(staleTimeout);
    hide Step, Goes;
    GoesOn(ANNOUNCED, LandsAt(STILL_RUNNING, MOMENT), BOTH_SEEN, [EndPoll], SLIPPED_BACK, staleTimeout);
    assert [LandsAt(STILL_RUNNING, MOMENT)] + [EndPoll] == [LandsAt(STILL_RUNNING, MOMENT), EndPoll];
    GoesOn(SLIPPED_OUT, LandsAt(EARLIER_RUN, MOMENT), ANNOUNCED, [LandsAt(STILL_RUNNING, MOMENT), EndPoll], SLIPPED_BACK, staleTimeout);
    assert SLIPS_BACK == [LandsAt(EARLIER_RUN, MOMENT)] + [LandsAt(STILL_RUNNING, MOMENT), EndPoll];
  }

  lemma StrayCleanupReseeds(staleTimeout: nat)
    ensures Run(SLIPPED_BACK, STRAY_CLEANUP, staleTimeout) && Stray(SLIPPED_BACK.bridge, STRAY_CLEANUP[0])
    ensures StayOf(From(SLIPPED_BACK, STRAY_CLEANUP, staleTimeout).stays, 1).seeds == 2
  {
    var w12 := Step(SLIPPED_BACK, Return(0), staleTimeout);
    assert w12.bridge.tracked == map[] && w12.stays == SLIPPED_BACK.stays;
    Seeds(w12, STILL_RUNNING, 3, staleTimeout);
    var w13 := Step(w12, LandsAt(STILL_RUNNING, MOMENT), staleTimeout);
    GoesOn(w12, LandsAt(STILL_RUNNING, MOMENT), w13, [], w13, staleTimeout);
    GoesOn(SLIPPED_BACK, Return(0), w12, [LandsAt(STILL_RUNNING, MOMENT)], w13, staleTimeout);
    assert STRAY_CLEANUP == [Return(0)] + [LandsAt(STILL_RUNNING, MOMENT)];
  }

  /** A run of the bridge in which one operation is seeded twice in one stay. */
  lemma ACardCanBeSeededTwice(staleTimeout: nat)
    ensures exists es :: Run(START, es, staleTimeout) && StayOf(From(START, es, staleTimeout).stays, 1).seeds == 2
  {
    SlipsOut(staleTimeout);
    SlipsBack(staleTimeout);
    StrayCleanupReseeds(staleTimeout);
    var end := From(SLIPPED_BACK, STRAY_CLEANUP, staleTimeout);
    assert Goes(SLIPPED_BACK, STRAY_CLEANUP, end, staleTimeout);
    GoesThrough(SLIPPED_OUT, SLIPS_BACK, SLIPPED_BACK, STRAY_CLEANUP, end, staleTimeout);
    GoesThrough(START, SLIPS_OUT, SLIPPED_OUT, SLIPS_BACK + STRAY_CLEANUP, end, staleTimeout);
    var es := SLIPS_OUT + (SLIPS_BACK + STRAY_CLEANUP);
    assert Goes(START, es, end, staleTimeout);
    assert Run(START, es, staleTimeout) && From(START, es, staleTimeout) == end;
  }

  // ---------- A card left up, step by step ----------

  /** The opening frame of a running operation is rejected, and it leaves the window. */
  const HALF_OPENED: seq<Event> := [EndPoll, See(Row(STILL_RUNNING, true, MOMENT, HalfLands)), EndPoll]

  const HALF_OPEN: World :=
    World(Bridge(map[1 := Record(1, "slug", false, false, 0, MOMENT, false, None)], {}, [], {}, true),
          map[1 := Stay(0, 0, false, 0, true)])

  lemma HalfOpens(staleTimeout: nat)
    ensures Goes(START, HALF_OPENED, HALF_OPEN, staleTimeout)
  {
    var w1 := World(FRESH.(primed := true), map[]);
    var w2 := HALF_OPEN.(bridge := HALF_OPEN.bridge.(seen := {1}));
    var row := Row(STILL_RUNNING, true, MOMENT, HalfLands);
    assert Step(START, EndPoll, staleTimeout) == w1;
    assert w1.bridge.seen + {1} == {1};
    var t := Tracked(w1.bridge.(seen := {1}), STILL_RUNNING);
    assert Kept(map[], "slug") == map[] && t.tracked == map[1 := NewRecord(STILL_RUNNING)];
    var (p, acts, ok) := Push(t, row, staleTimeout);
    assert acts == [Create(1)] && acts[..0] == [] && p == w2.bridge;
    assert Next(w1.bridge, See(row), staleTimeout) == (p, acts);
    assert CountedAll(w1.stays, acts[..0]) == w1.stays;
    assert Step(w1, See(row), staleTimeout) == w2;
    assert Step(w2, EndPoll, staleTimeout) == HALF_OPEN;
    GoesOn(w2, EndPoll, HALF_OPEN, [], HALF_OPEN, staleTimeout);
    GoesOn(w1, See(row), w2, [EndPoll], HALF_OPEN, staleTimeout);
    GoesOn(START, EndPoll, w1, [See(row), EndPoll], HALF_OPEN, staleTimeout);
    assert HALF_OPENED == [EndPoll] + ([See(row)] + ([EndPoll] + []));
  }

  /** So a card can be left up: created, never closed, and its operation closed out. */
  lemma ACardCanBeLeftUp(staleTimeout: nat)
    ensures var w := From(START, HALF_OPENED, staleTimeout); var next := Step(w, Vanish(1), staleTimeout);
      && Run(START, HALF_OPENED, staleTimeout) && Possible(w.bridge, Vanish(1))
      && StayOf(next.stays, 1) == Stay(0, 0, true, 0, true) && 1 in next.bridge.done && 1 !in next.bridge.tracked
  {
    HalfOpens(staleTimeout);
    hide From, Run;
    assert [Abandon(1)][..0] == [];
  }
}
