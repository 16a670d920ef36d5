/** shared/syncx/timergroup.go: one active timer, and a wait group over the callbacks in
    flight. A timer is known by its allocation order; what the runtime does with it is
    part of the state, so the wait-group arithmetic is checked against it. */
module Timers {
  import opened Prelude

  /** A callback is Pending until its timer fires, then Running until it returns; a timer
      stopped in time is Cancelled and its callback never runs. */
  datatype Status = Pending | Running | Returned | Cancelled

  datatype Group = Group(timer: Option<nat>, stopped: bool, wg: int, timers: seq<Status>)

  const ZERO: Group := Group(None, false, 0, [])

  datatype Op = DoReset | DoStop | DoClose | DoFire(t: nat) | DoReturn(t: nat)

  /** time.Timer.Stop on the group's timer: whether it was still pending. */
  predicate StopsInTime(g: Group) {
    g.timer.Some? && g.timer.value < |g.timers| && g.timers[g.timer.value].Pending?
  }

  function CancelCurrent(g: Group): Group {
    if StopsInTime(g) then g.(wg := g.wg - 1, timers := g.timers[g.timer.value := Cancelled]) else g
  }

  function Cleared(g: Group): Group { CancelCurrent(g).(timer := None) }

  function Rearmed(g: Group): Group {
    if g.stopped then g
    else
      var cancelled := CancelCurrent(g.(wg := g.wg + 1));
      cancelled.(timer := Some(|g.timers|), timers := cancelled.timers + [Pending])
  }

  function Closed(g: Group): Group { Cleared(g.(stopped := true)) }

  function Fire(g: Group, t: nat): Group {
    if t < |g.timers| && g.timers[t].Pending? then g.(timers := g.timers[t := Running]) else g
  }

  /** The callback returns: its deferred wg.Done. */
  function Return(g: Group, t: nat): Group {
    if t < |g.timers| && g.timers[t].Running? then g.(timers := g.timers[t := Returned], wg := g.wg - 1) else g
  }

  function Step(g: Group, op: Op): Group {
    match op
    case DoReset => Rearmed(g)
    case DoStop => Cleared(g)
    case DoClose => Closed(g)
    case DoFire(t) => Fire(g, t)
    case DoReturn(t) => Return(g, t)
  }

  function From(g: Group, ops: seq<Op>): Group {
    if ops == [] then g else Step(From(g, ops[..|ops| - 1]), ops[|ops| - 1])
  }

  // ---------- The class ----------

  class TimerGroup {
    var timer: Option<nat>
    var stopped: bool
    var wg: int
    var timers: seq<Status>

    function View(): Group
      reads this
    {
      Group(timer, stopped, wg, timers)
    }

    constructor ()
      ensures View() == ZERO
    {
      timer, stopped, wg, timers := None, false, 0, [];
    }

    /** time.Timer.Stop, on the runtime's record of the timer. */
    method StopTimer(t: nat) returns (inTime: bool)
      modifies this
      ensures inTime <==> t < |old(timers)| && old(timers)[t].Pending?
      ensures View() == old(View()).(timers := if inTime then old(timers)[t := Cancelled] else old(timers))
    {
      inTime := t < |timers| && timers[t].Pending?;
      if inTime {
        timers := timers[t := Cancelled];
      }
    }

    method Reset()
      modifies this
      ensures View() == Rearmed(old(View()))
    {
      if stopped {
        return;
      }
      wg := wg + 1;
      if timer.Some? {
        var inTime := StopTimer(timer.value);
        if inTime {
          wg := wg - 1;
        }
      }
      timer := Some(|timers|);
      timers := timers + [Pending];
    }

    method ClearTimerLocked()
      modifies this
      ensures View() == Cleared(old(View()))
    {
      if timer.Some? {
        var inTime := StopTimer(timer.value);
        if inTime {
          wg := wg - 1;
        }
        timer := None;
      }
    }

    method Stop()
      modifies this
      ensures View() == Cleared(old(View()))
    {
      ClearTimerLocked();
    }

    method Close()
      modifies this
      ensures View() == Closed(old(View()))
    {
      stopped := true;
      ClearTimerLocked();
    }
  }

  /** Re-arming an open group leaves one callback pending, a new one, and forgets none that is
      running; a closed one is left as it is. */
  lemma ResetArms(g: Group)
    ensures g.stopped ==> Rearmed(g) == g
    ensures !g.stopped ==>
      && |Rearmed(g).timers| == |g.timers| + 1 && Rearmed(g).timers[|g.timers|] == Pending
      && Rearmed(g).timer == Some(|g.timers|) && !Rearmed(g).stopped
      && forall t :: 0 <= t < |g.timers| ==>
        Rearmed(g).timers[t] == if g.timer == Some(t) && g.timers[t].Pending? then Cancelled else g.timers[t]
  {
  }

  // ---------- What every run keeps ----------

  predicate InFlight(s: Status) { s.Pending? || s.Running? }

  ghost function Count(timers: seq<Status>): nat {
    if timers == [] then 0 else Count(timers[..|timers| - 1]) + if InFlight(timers[|timers| - 1]) then 1 else 0
  }

  lemma {:induction false} CountUpdate(timers: seq<Status>, t: nat, s: Status)
    requires t < |timers|
    ensures Count(timers[t := s]) == Count(timers) - (if InFlight(timers[t]) then 1 else 0) + (if InFlight(s) then 1 else 0)
  {
    var n := |timers| - 1;
    if t == n {
      assert timers[t := s][..n] == timers[..n];
    } else {
      CountUpdate(timers[..n], t, s);
      assert timers[t := s][..n] == timers[..n][t := s];
    }
  }

  lemma CountAppend(timers: seq<Status>, s: Status)
    ensures Count(timers + [s]) == Count(timers) + if InFlight(s) then 1 else 0
  {
    assert (timers + [s])[..|timers|] == timers;
  }

  /** The wait group counts the callbacks pending or running; only the group's current
      timer can be pending; and a closed group has none. */
  ghost predicate Inv(g: Group) {
    && g.wg == Count(g.timers)
    && (g.timer.Some? ==> g.timer.value < |g.timers|)
    && (forall t :: 0 <= t < |g.timers| && g.timers[t].Pending? ==> g.timer == Some(t) && !g.stopped)
  }

  lemma CancelKeepsCount(g: Group)
    requires g.wg == Count(g.timers) || g.wg == Count(g.timers) + 1
    ensures CancelCurrent(g).wg - Count(CancelCurrent(g).timers) == g.wg - Count(g.timers)
    ensures CancelCurrent(g).stopped == g.stopped && CancelCurrent(g).timer == g.timer && |CancelCurrent(g).timers| == |g.timers|
  {
    if StopsInTime(g) { CountUpdate(g.timers, g.timer.value, Cancelled); }
  }

  lemma NothingPendingAfterCancel(g: Group)
    requires forall t :: 0 <= t < |g.timers| && g.timers[t].Pending? ==> g.timer == Some(t)
    ensures forall t :: 0 <= t < |g.timers| ==> !CancelCurrent(g).timers[t].Pending?
  {
  }

  lemma ResetKeepsInv(g: Group)
    requires Inv(g)
    ensures Inv(Rearmed(g))
  {
    hide Count, CancelCurrent;
    var h := g.(wg := g.wg + 1);
    CancelKeepsCount(h);
    NothingPendingAfterCancel(h);
    CountAppend(CancelCurrent(h).timers, Pending);
  }

  lemma ClearKeepsInv(g: Group)
    requires g.wg == Count(g.timers) && (g.timer.Some? ==> g.timer.value < |g.timers|)
    requires forall t :: 0 <= t < |g.timers| && g.timers[t].Pending? ==> g.timer == Some(t)
    ensures Inv(Cleared(g)) && forall t :: 0 <= t < |g.timers| ==> !Cleared(g).timers[t].Pending?
  {
    hide Count, CancelCurrent;
    CancelKeepsCount(g);
    NothingPendingAfterCancel(g);
  }

  lemma StepKeepsInv(g: Group, op: Op)
    requires Inv(g)
    ensures Inv(Step(g, op))
  {
    hide Count, CancelCurrent;
    match op
    case DoReset => ResetKeepsInv(g);
    case DoStop => ClearKeepsInv(g);
    case DoClose => ClearKeepsInv(g.(stopped := true));
    case DoFire(t) => if t < |g.timers| { CountUpdate(g.timers, t, Running); }
    case DoReturn(t) => if t < |g.timers| { CountUpdate(g.timers, t, Returned); }
  }

  /** In every run from the zero group the wait group equals the callbacks in flight, so
      it never goes negative, and at most one callback is pending. */
  lemma {:induction false} EveryRunKeepsInv(ops: seq<Op>)
    ensures Inv(From(ZERO, ops))
    ensures From(ZERO, ops).wg >= 0
  {
    if ops != [] {
      EveryRunKeepsInv(ops[..|ops| - 1]);
      StepKeepsInv(From(ZERO, ops[..|ops| - 1]), ops[|ops| - 1]);
    }
  }

  // ---------- After Close ----------

  /** What a closed group can still do: let callbacks already running return. */
  lemma ClosedStep(g: Group, op: Op)
    requires Inv(g) && g.stopped
    ensures var h := Step(g, op);
      && Inv(h) && h.stopped
      && |h.timers| == |g.timers|
      && (forall t :: 0 <= t < |g.timers| ==> !h.timers[t].Pending?)
      && (forall t :: 0 <= t < |g.timers| && h.timers[t].Running? ==> g.timers[t].Running?)
      && h.wg <= g.wg
  {
    StepKeepsInv(g, op);
    match op
    case DoReturn(t) => hide Count;
    case DoFire(t) => hide Count;
    case _ => hide Count;
  }

  /** Once closed, no callback is ever armed again, whatever races with it: the ones
      running later were already running at Close, and the count only falls. */
  lemma {:induction false} NothingArmsAfterClose(g: Group, ops: seq<Op>)
    requires Inv(g)
    ensures var closed := Closed(g); var h := From(closed, ops);
      && Inv(h) && h.stopped
      && |h.timers| == |g.timers|
      && (forall t :: 0 <= t < |h.timers| ==> !h.timers[t].Pending?)
      && (forall t :: 0 <= t < |h.timers| && h.timers[t].Running? ==> g.timers[t].Running?)
      && h.wg <= g.wg
  {
    if ops == [] {
      StepKeepsInv(g, DoClose);
      CloseKeepsRunning(g);
    } else {
      NothingArmsAfterClose(g, ops[..|ops| - 1]);
      hide Inv, Closed, Step;
      ClosedStep(From(Closed(g), ops[..|ops| - 1]), ops[|ops| - 1]);
    }
  }

  lemma CloseKeepsRunning(g: Group)
    requires Inv(g)
    ensures var h := Closed(g);
      && |h.timers| == |g.timers| && h.wg <= g.wg
      && (forall t :: 0 <= t < |h.timers| && h.timers[t].Running? ==> g.timers[t].Running?)
  {
    hide Count;
  }

  lemma {:induction false} CountZero(timers: seq<Status>)
    ensures Count(timers) == 0 <==> forall t :: 0 <= t < |timers| ==> !InFlight(timers[t])
  {
    if timers != [] {
      var n := |timers| - 1;
      CountZero(timers[..n]);
      assert forall t :: 0 <= t < n ==> timers[..n][t] == timers[t];
    }
  }

  /** Wait returns on a closed group exactly when every callback that was running at
      Close has returned. */
  lemma WaitReturnsWhenTheFiredFinish(g: Group, ops: seq<Op>)
    requires Inv(g)
    ensures var h := From(Closed(g), ops);
      && |h.timers| == |g.timers|
      && (h.wg == 0 <==> forall t :: 0 <= t < |h.timers| && g.timers[t].Running? ==> !h.timers[t].Running?)
  {
    NothingArmsAfterClose(g, ops);
    hide From, Closed, Count;
    CountZero(From(Closed(g), ops).timers);
  }
}
