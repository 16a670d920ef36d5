/** backrest/internal/poller/poller.go: the poller object, each method against the step it
    takes in the ledger. */
module Backrest {
  import opened Prelude
  import opened Clock
  import opened Ledger

  /** A record's end is one scheduled for its own operation. */
  ghost predicate EndsBelong(b: Bridge) {
    forall id :: id in b.tracked && b.tracked[id].end.Some? ==>
      b.tracked[id].end.value < |b.ends| && b.ends[b.tracked[id].end.value].opId == id
  }

  function ClosedIf(e: End, close: bool): End { if close then ClosedEnd(e) else e }

  class Poller {
    var tracked: map<int, Record>
    var done: set<int>
    var ends: seq<End>
    var seen: set<int>
    var primed: bool
    const staleTimeout: nat

    ghost function View(): Bridge
      reads this
    {
      Bridge(tracked, done, ends, seen, primed)
    }

    ghost predicate Valid()
      reads this
    {
      EndsBelong(View())
    }

    constructor (staleTimeout: nat)
      ensures Valid() && View() == FRESH && this.staleTimeout == staleTimeout
    {
      tracked, done, ends, seen, primed := map[], {}, [], {}, false;
      this.staleTimeout := staleTimeout;
    }

    /** Closes and forgets every closing record under the slug. order is the order in which
        Go happens to range over the map. */
    method Supersede(slug: string, order: seq<int>)
      requires Valid() && forall id :: id in tracked ==> id in order
      modifies `tracked, `ends
      ensures tracked == Kept(old(tracked), slug) && ends == EndsAfter(old(tracked), old(ends), slug)
    {
      var i := 0;
      while i < |order|
        invariant i <= |order|
        invariant forall id :: id in tracked <==> id in old(tracked) && (id !in order[..i] || !Superseded(old(tracked)[id], slug))
        invariant forall id :: id in tracked ==> tracked[id] == old(tracked)[id]
        invariant |ends| == |old(ends)|
        invariant forall k :: 0 <= k < |ends| ==>
          ends[k] == ClosedIf(old(ends)[k], EndSuperseded(old(tracked), old(ends), slug, k) && old(ends)[k].opId in order[..i])
      {
        var id := order[i];
        assert order[..i + 1] == order[..i] + [id];
        if id in tracked {
          var other := tracked[id];
          if other.slug == slug && other.ending {
            if other.end.Some? {
              var k := other.end.value;
              ends := ends[k := ClosedEnd(ends[k])];
            }
            tracked := tracked - {id};
          }
        }
        i := i + 1;
      }
      assert order[..i] == order;
      KeptIs(old(tracked), slug, tracked);
    }

    /** Whether there is a record to work on; one is made on first sight. */
    method Track(op: Op, order: seq<int>) returns (open: bool)
      requires Valid() && forall id :: id in tracked ==> id in order
      modifies `tracked, `ends
      ensures Valid() && View() == Tracked(old(View()), op) && open == Opens(old(View()), op)
    {
      if op.id in done {
        return false;
      }
      if op.id !in tracked {
        Supersede(op.slug, order);
        tracked := tracked[op.id := NewRecord(op)];
      }
      return !tracked[op.id].ending;
    }

    method AbandonRecord(id: int)
      requires Valid()
      modifies `tracked, `done
      ensures Valid() && View() == Abandoned(old(View()), id)
    {
      done := done + {id};
      tracked := tracked - {id};
    }

    method ScheduleEndOf(id: int)
      requires Valid() && id in tracked && !tracked[id].ending
      modifies `tracked, `done, `ends
      ensures Valid() && View() == Scheduled(old(View()), id)
    {
      tracked := tracked[id := tracked[id].(ending := true, end := Some(|ends|))];
      done := done + {id};
      ends := ends + [End(id, FirstArmed, false)];
    }

    /** The create and the opening frame, or a patch. */
    method SendFrame(t: Record, row: Row) returns (act: Act)
      ensures act == Sent(t, row.op.id, row.outcome)
    {
      if t.seeded {
        return Send(row.op.id);
      }
      match row.outcome {
        case Fails => return Send(row.op.id);
        case Evicted | HalfLands => return Create(row.op.id);
        case Lands => return Seed(row.op.id);
      }
    }

    /** Seeds or patches; a frame is recorded only once it has landed. */
    method PushFrame(row: Row) returns (acts: seq<Act>, ok: bool)
      requires Valid() && row.op.id in tracked
      modifies `tracked, `done
      ensures Valid() && (View(), acts, ok) == Push(old(View()), row, staleTimeout)
    {
      var id := row.op.id;
      var t := tracked[id];
      if t.preempted {
        if row.now - t.probedAt < Heartbeat(staleTimeout) {
          return [], true;
        }
        t := t.(probedAt := row.now);
      }
      var act := SendFrame(t, row);
      acts := [act];
      match row.outcome {
        case Evicted =>
          t := t.(failingSince := 0);
          if !t.preempted {
            t := t.(preempted := true, probedAt := row.now);
          }
          tracked := tracked[id := t];
          return acts, true;
        case HalfLands | Fails =>
          if t.preempted {
            tracked := tracked[id := t];
            return acts, false;
          }
          var failing := !IsZero(t.failingSince) && row.now - t.failingSince >= MAX_SEND_FAILURE_WINDOW;
          if failing {
            AbandonRecord(id);
            return [acts[0], Act.Abandon(id)], false;
          }
          if IsZero(t.failingSince) {
            t := t.(failingSince := row.now);
          }
          tracked := tracked[id := t];
          return acts, false;
        case Lands =>
          tracked := tracked[id := t.(seeded := true, preempted := false, failingSince := 0)];
          return acts, true;
      }
    }

    method OnRunning(row: Row, order: seq<int>) returns (acts: seq<Act>)
      requires Valid() && forall id :: id in tracked ==> id in order
      modifies this
      ensures Valid() && (View(), acts) == HandleRunning(old(View()), row, staleTimeout)
    {
      hide Tracked, Push, EndsBelong;
      var open := Track(row.op, order);
      if !open {
        return [];
      }
      OpenIsTracked(row.op, old(View()));
      if tracked[row.op.id].seeded && !row.worth {
        return [];
      }
      var ok: bool;
      acts, ok := PushFrame(row);
    }

    method OnTerminal(row: Row, order: seq<int>) returns (acts: seq<Act>)
      requires Valid() && forall id :: id in tracked ==> id in order
      modifies this
      ensures Valid() && (View(), acts) == HandleTerminal(old(View()), row, staleTimeout)
    {
      hide Tracked, Push, EndsBelong, Scheduled;
      var open := Track(row.op, order);
      if !open {
        return [];
      }
      OpenIsTracked(row.op, old(View()));
      ghost var before := View();
      var ok: bool;
      acts, ok := PushFrame(row);
      if !ok {
        PushKeepsOpen(before, row, staleTimeout);
        return;
      }
      PushKeepsOpen(before, row, staleTimeout);
      ScheduleEndOf(row.op.id);
      acts := acts + [Act.ScheduleEnd(row.op.id)];
    }

    /** endedWithin the adopt window. */
    method Ended(op: Op, now: Time) returns (recent: bool)
      ensures recent == EndedWithin(op, now, AdoptWindow(staleTimeout))
    {
      if op.endedMs <= 0 {
        return false;
      }
      var age := now - (UNIX_EPOCH * SECOND + op.endedMs * MILLISECOND);
      return age > -(AdoptWindow(staleTimeout) as int) && age < AdoptWindow(staleTimeout);
    }

    /** A finished operation with no record is announced if it ended just now, else only
        recorded. */
    method Adopt(row: Row, order: seq<int>) returns (acts: seq<Act>)
      requires Valid() && forall id :: id in tracked ==> id in order
      modifies this
      ensures Valid() && (View(), acts) == AdoptFinished(old(View()), row, staleTimeout)
    {
      hide HandleTerminal;
      var ended := Ended(row.op, row.now);
      if ended {
        acts := OnTerminal(row, order);
        return;
      }
      done := done + {row.op.id};
      acts := [];
    }

    /** One row of the query window. */
    method OnRow(row: Row, order: seq<int>) returns (acts: seq<Act>)
      requires Valid() && forall id :: id in tracked ==> id in order
      modifies this
      ensures Valid() && (View(), acts) == HandleRow(old(View()), row, staleTimeout)
    {
      hide HandleTerminal, HandleRunning, AdoptFinished;
      seen := seen + {row.op.id};
      acts := [];
      if !primed {
        if row.op.status == Terminal {
          acts := Adopt(row, order);
        }
      } else if row.op.status == Running {
        acts := OnRunning(row, order);
      } else if row.op.status == Terminal && row.op.id in tracked {
        acts := OnTerminal(row, order);
      } else if row.op.status == Terminal {
        acts := Adopt(row, order);
      }
    }

    method VanishedOne(id: int) returns (acts: seq<Act>)
      requires Valid() && Orphan(View(), id)
      modifies this
      ensures Valid() && (View(), acts) == Vanished(old(View()), id)
    {
      if !tracked[id].seeded {
        AbandonRecord(id);
        return [Act.Abandon(id)];
      }
      ScheduleEndOf(id);
      return [Act.ScheduleEnd(id)];
    }

    /** Closes what left the window unfinished; after it the poll may end. */
    method ReapVanished(order: seq<int>) returns (acts: seq<Act>)
      requires Valid() && forall id :: id in tracked ==> id in order
      modifies this
      ensures Valid() && (View(), acts) == Reaped(old(View()), order)
      ensures Possible(View(), EndPoll)
    {
      ghost var was := View();
      acts := [];
      var i := 0;
      while i < |order|
        invariant i <= |order| && Valid()
        invariant (View(), acts) == Reaped(was, order[..i])
      {
        assert order[..i + 1][..i] == order[..i];
        var id := order[i];
        if id in tracked && id !in seen && !tracked[id].ending {
          var more := VanishedOne(id);
          acts := acts + more;
        }
        i := i + 1;
      }
      assert order[..i] == order;
      ReapedLeavesNone(was, order);
    }

    method PruneDone()
      requires Valid()
      modifies `done, `seen, `primed
      ensures Valid() && View() == Pruned(old(View()))
    {
      done := done * seen;
      seen, primed := {}, true;
    }

    /** The tail of a closing phase's callback, after its send. */
    method PhaseReturned(k: nat)
      requires Valid() && k < |ends|
      modifies `ends, `tracked
      ensures Valid() && View() == Returned(old(View()), k)
    {
      var e := ends[k];
      match e.phase {
        case FirstFired =>
          ends := ends[k := e.(phase := if e.closed then Over else SecondArmed)];
        case SecondFired =>
          ends := ends[k := e.(phase := Over)];
          tracked := tracked - {e.opId};
        case _ =>
      }
    }
  }

  /** The orphans among some ids, closed one after the other. */
  function Reaped(b: Bridge, ids: seq<int>): (Bridge, seq<Act>) {
    if ids == [] then (b, []) else
      var (m, acts) := Reaped(b, ids[..|ids| - 1]);
      var id := ids[|ids| - 1];
      if Orphan(m, id) then
        var (v, more) := Vanished(m, id);
        (v, acts + more)
      else (m, acts)
  }

  /** Reaping opens nothing, so no listed id is an orphan afterwards. */
  lemma {:induction false} ReapedLeavesNone(b: Bridge, ids: seq<int>)
    requires forall id :: id in b.tracked ==> id in ids
    ensures forall id :: id in Reaped(b, ids).0.tracked ==> !Orphan(Reaped(b, ids).0, id)
  {
    ReapedAmong(b, ids);
  }

  lemma {:induction false} ReapedAmong(b: Bridge, ids: seq<int>)
    ensures var m := Reaped(b, ids).0;
      && m.seen == b.seen
      && (forall id :: Orphan(m, id) ==> Orphan(b, id) && id !in ids)
  {
    if ids != [] {
      var n := |ids| - 1;
      ReapedAmong(b, ids[..n]);
      assert ids == ids[..n] + [ids[n]];
    }
  }

  lemma KeptIs(was: map<int, Record>, slug: string, now: map<int, Record>)
    requires forall id :: id in now <==> id in was && !Superseded(was[id], slug)
    requires forall id :: id in now ==> now[id] == was[id]
    ensures now == Kept(was, slug)
  {
    var kept := Kept(was, slug);
    assert forall id :: id in now <==> id in kept;
    assert forall id :: id in now ==> now[id] == kept[id];
  }

  lemma OpenIsTracked(op: Op, b: Bridge)
    ensures Opens(b, op) ==> op.id in Tracked(b, op).tracked && !Tracked(b, op).tracked[op.id].ending
  {
  }

  lemma PushKeepsOpen(b: Bridge, row: Row, staleTimeout: nat)
    requires row.op.id in b.tracked && !b.tracked[row.op.id].ending
    ensures var (p, _, ok) := Push(b, row, staleTimeout); ok ==> row.op.id in p.tracked && !p.tracked[row.op.id].ending
  {
  }
}
