/** shared/widgets/manager.go: the loop that keeps one scalar widget in step with its
    source - changes past a tolerance, and heartbeats that must not change anything. */
module Widgets {
  import opened Prelude
  import opened Clock

  /** What a widget shows. A field left empty is left out of a request, and the server
      then keeps what it has (section 2 of RFC 7396). */
  datatype Content = Content(value: Option<real>, text: Option<string>, points: Option<seq<real>>, fixed: map<string, string>)

  const NOTHING: Content := Content(None, None, None, map[])

  function Merge(stored: Content, patch: Content): Content {
    Content(patch.value.Or(stored.value), patch.text.Or(stored.text), patch.points.Or(stored.points), stored.fixed + patch.fixed)
  }

  datatype Spec = Spec(always: bool, minChange: real, heartbeat: nat, needsValue: bool, fixed: map<string, string>)

  /** A finite reading, with the label and the history rendered from it. */
  datatype Reading = Reading(value: real, text: string, points: seq<real>)

  function Rendered(spec: Spec, r: Reading): Content {
    Content(Some(r.value), OmitEmpty(r.text), OmitEmpty(r.points), spec.fixed)
  }

  function Abs(x: real): real { if x < 0.0 then -x else x }

  /** Whether a reading moved by more than the tolerance; a missing old value is the
      source's NaN. */
  predicate ValueChanged(oldV: real, newV: real, minChange: real) {
    if minChange == 0.0 then oldV != newV else Abs(newV - oldV) > minChange
  }

  predicate HeartbeatDue(spec: Spec, lastSent: Time, now: Time) {
    spec.heartbeat > 0 && !IsZero(lastSent) && now - lastSent >= spec.heartbeat
  }

  /** lastValue is None until a value has been sent. */
  datatype Loop = Loop(lastValue: Option<real>, lastSent: Time, lastContent: Content, needsCreate: bool)

  predicate Unchanged(spec: Spec, s: Loop, v: real) {
    s.lastValue.Some? && !spec.always && !ValueChanged(s.lastValue.value, v, spec.minChange)
  }

  predicate Skips(spec: Spec, s: Loop, v: real, now: Time) {
    !s.needsCreate && Unchanged(spec, s, v) && !HeartbeatDue(spec, s.lastSent, now)
  }

  /** The widget as the loop and the server see it; stored is what the server keeps under
      the slug, which an earlier process may have left there. */
  datatype Widget = Widget(local: Loop, stored: Content)

  /** One pass of the ticker: no reading, or a reading and whether the request it leads to
      is applied. */
  datatype Tick = Tick(reading: Option<Reading>, now: Time, lands: bool)

  function Next(spec: Spec, w: Widget, t: Tick): Widget {
    if t.reading.None? then w
    else
      var r, s := t.reading.value, w.local;
      if Skips(spec, s, r.value, t.now) || !t.lands then w
      else if s.needsCreate || !Unchanged(spec, s, r.value) then
        Widget(Loop(Some(r.value), t.now, Rendered(spec, r), false), Merge(w.stored, Rendered(spec, r)))
      else
        Widget(s.(lastSent := t.now), Merge(w.stored, s.lastContent))
  }

  /** The widget before its loop runs. Gauges, progress bars and trends are not created
      until a first reading; any other is created at once, perhaps without a value. */
  function Started(spec: Spec, first: Option<Reading>, text: string, now: Time, before: Content): Widget {
    if first.None? && spec.needsValue then Widget(Loop(None, 0, NOTHING, true), before)
    else
      var content :=
        if first.Some? then Rendered(spec, first.value)
        else Content(None, OmitEmpty(text), None, spec.fixed);
      Widget(Loop(if first.Some? then Some(first.value.value) else None, now, content, false), Merge(before, content))
  }

  class ScalarWidget {
    const spec: Spec
    var lastValue: Option<real>
    var lastSent: Time
    var lastContent: Content
    var needsCreate: bool
    /** The server's side. */
    ghost var stored: Content

    ghost function View(): Widget
      reads this
    {
      Widget(Loop(lastValue, lastSent, lastContent, needsCreate), stored)
    }

    constructor (spec: Spec, first: Option<Reading>, text: string, now: Time, ghost before: Content)
      ensures this.spec == spec && View() == Started(spec, first, text, now, before)
    {
      this.spec := spec;
      if first.None? && spec.needsValue {
        lastValue, lastSent, lastContent, needsCreate, stored := None, 0, NOTHING, true, before;
      } else {
        var content := Content(None, OmitEmpty(text), None, spec.fixed);
        if first.Some? {
          content := Rendered(spec, first.value);
        }
        lastValue := if first.Some? then Some(first.value.value) else None;
        lastSent, lastContent, needsCreate, stored := now, content, false, Merge(before, content);
      }
    }

    method TickScalar(t: Tick)
      modifies this
      ensures View() == Next(spec, old(View()), t)
    {
      if t.reading.None? {
        return;
      }
      var r := t.reading.value;
      var content := Rendered(spec, r);
      if needsCreate {
        if !t.lands {
          return;
        }
        stored := Merge(stored, content);
        needsCreate := false;
        lastValue, lastContent, lastSent := Some(r.value), content, t.now;
        return;
      }
      var same := lastValue.Some? && !spec.always && !ValueChanged(lastValue.value, r.value, spec.minChange);
      if same && !HeartbeatDue(spec, lastSent, t.now) {
        return;
      }
      var send := if same then lastContent else content;
      if !t.lands {
        return;
      }
      stored := Merge(stored, send);
      if !same {
        lastValue, lastContent := Some(r.value), content;
      }
      lastSent := t.now;
    }
  }

  // ---------- Whole runs ----------

  function From(spec: Spec, w: Widget, ticks: seq<Tick>): Widget
    decreases |ticks|
  {
    if ticks == [] then w else From(spec, Next(spec, w, ticks[0]), ticks[1..])
  }

  /** What the loop remembers is what the server holds. */
  ghost predicate Inv(w: Widget) {
    !w.local.needsCreate ==>
      && Merge(w.stored, w.local.lastContent) == w.stored
      && w.local.lastContent.value == w.local.lastValue
      && (w.local.lastValue.Some? ==> w.stored.value == w.local.lastValue)
  }

  lemma MergeTwice(stored: Content, patch: Content)
    ensures Merge(Merge(stored, patch), patch) == Merge(stored, patch)
  {
    assert stored.fixed + patch.fixed + patch.fixed == stored.fixed + patch.fixed;
  }

  lemma StartedInv(spec: Spec, first: Option<Reading>, text: string, now: Time, before: Content)
    ensures Inv(Started(spec, first, text, now, before))
  {
    var w := Started(spec, first, text, now, before);
    MergeTwice(before, w.local.lastContent);
  }

  lemma NextKeepsInv(spec: Spec, w: Widget, t: Tick)
    requires Inv(w)
    ensures Inv(Next(spec, w, t))
  {
    if t.reading.Some? {
      MergeTwice(w.stored, Rendered(spec, t.reading.value));
    }
  }

  lemma {:induction false} EveryRunKeepsInv(spec: Spec, w: Widget, ticks: seq<Tick>)
    requires Inv(w)
    ensures Inv(From(spec, w, ticks))
    decreases |ticks|
  {
    if ticks != [] {
      NextKeepsInv(spec, w, ticks[0]);
      EveryRunKeepsInv(spec, Next(spec, w, ticks[0]), ticks[1..]);
    }
  }

  /** After any run, sending what the loop last sent again leaves the server as it is. */
  lemma HeartbeatsAreTouches(spec: Spec, first: Option<Reading>, text: string, start: Time, before: Content, ticks: seq<Tick>)
    ensures var w := From(spec, Started(spec, first, text, start, before), ticks);
      !w.local.needsCreate ==> Merge(w.stored, w.local.lastContent) == w.stored
  {
    StartedInv(spec, first, text, start, before);
    EveryRunKeepsInv(spec, Started(spec, first, text, start, before), ticks);
  }

  /** A tick whose reading was sent or passed over as unchanged. */
  predicate Settles(spec: Spec, w: Widget, t: Tick) {
    t.reading.Some? && (t.lands || Skips(spec, w.local, t.reading.value.value, t.now))
  }

  /** No drift: whatever ticks and failed sends came before, once a tick settles the server
      shows a value within the tolerance of that tick's reading. */
  lemma NoDrift(spec: Spec, first: Option<Reading>, text: string, start: Time, before: Content, ticks: seq<Tick>, t: Tick)
    requires spec.minChange >= 0.0
    requires Settles(spec, From(spec, Started(spec, first, text, start, before), ticks), t)
    ensures var w := Next(spec, From(spec, Started(spec, first, text, start, before), ticks), t);
      w.stored.value.Some? && Abs(w.stored.value.value - t.reading.value.value) <= spec.minChange
  {
    StartedInv(spec, first, text, start, before);
    var w := From(spec, Started(spec, first, text, start, before), ticks);
    EveryRunKeepsInv(spec, Started(spec, first, text, start, before), ticks);
    WithinTolerance(spec, w, t);
  }

  lemma WithinTolerance(spec: Spec, w: Widget, t: Tick)
    requires Inv(w) && spec.minChange >= 0.0 && Settles(spec, w, t)
    ensures var w' := Next(spec, w, t);
      w'.stored.value.Some? && Abs(w'.stored.value.value - t.reading.value.value) <= spec.minChange
  {
  }

  /** A reading within tolerance of the server's value never changes what is stored. */
  lemma QuietTicksChangeNothing(spec: Spec, w: Widget, t: Tick)
    requires Inv(w) && !w.local.needsCreate && !spec.always && w.stored.value.Some? && w.local.lastValue.Some?
    requires t.reading.Some? && spec.minChange > 0.0 && Abs(t.reading.value.value - w.stored.value.value) <= spec.minChange
    ensures Next(spec, w, t).stored == w.stored
  {
  }

  /** When a tick with a reading sends: a widget not created yet is created, a reading off by more
      than the tolerance is sent - any that differs, without one - and so is every one if that is
      wanted; otherwise the last content goes out again once a heartbeat, where there is one, has
      passed since the last time. Nothing is remembered of a request that was not applied. */
  lemma WhenATickSends(spec: Spec, w: Widget, t: Tick)
    requires spec.minChange >= 0.0
    ensures t.reading.None? || !t.lands ==> Next(spec, w, t) == w
    ensures t.reading.Some? && t.lands ==>
      var v := t.reading.value.value; var s := w.local; var next := Next(spec, w, t);
      var isNew := s.needsCreate || spec.always || s.lastValue.None?
        || v < s.lastValue.value - spec.minChange || v > s.lastValue.value + spec.minChange;
      && (isNew ==>
          && next.local == Loop(Some(v), t.now, Rendered(spec, t.reading.value), false)
          && next.stored.value == Some(v)
          && (t.reading.value.text != "" ==> next.stored.text == Some(t.reading.value.text))
          && (t.reading.value.points != [] ==> next.stored.points == Some(t.reading.value.points))
          && forall k :: k in spec.fixed ==> k in next.stored.fixed && next.stored.fixed[k] == spec.fixed[k])
      && (!isNew && spec.heartbeat > 0 && s.lastSent > 0 && t.now - s.lastSent >= spec.heartbeat ==> next.local == s.(lastSent := t.now))
      && (!isNew && !(spec.heartbeat > 0 && s.lastSent > 0 && t.now - s.lastSent >= spec.heartbeat) ==> next == w)
  {
  }

  /** A widget that cannot be shown without a value waits for one; any other is there at once. */
  lemma WhenAWidgetIsCreated(spec: Spec, first: Option<Reading>, text: string, now: Time, before: Content)
    ensures var w := Started(spec, first, text, now, before);
      && (w.local.needsCreate <==> first.None? && spec.needsValue)
      && (w.local.needsCreate ==> w.stored == before)
      && (first.Some? ==> w.stored.value == Some(first.value.value) && w.local.lastSent == now)
      && (first.None? && !spec.needsValue ==> w.stored.value == before.value && w.local.lastValue == None && w.local.lastSent == now)
  {
  }

  // ---------- Staleness ----------

  /** Half the window, but no less than half a minute. None means no heartbeat. */
  function HeartbeatFor(staleAfter: Option<nat>): nat {
    match staleAfter
    case None => 0
    case Some(s) => Max(30 * SECOND, s * SECOND / 2)
  }

  /** Every tick reads a value and lands what it sends, no later than an interval after the
      one before. */
  ghost predicate Steady(ticks: seq<Tick>, last: Time, interval: nat)
    decreases |ticks|
  {
    ticks == [] ||
      (ticks[0].reading.Some? && ticks[0].lands && last <= ticks[0].now <= last + interval
       && Steady(ticks[1..], ticks[0].now, interval))
  }

  function LastTick(ticks: seq<Tick>, last: Time): Time
    decreases |ticks|
  {
    if ticks == [] then last else LastTick(ticks[1..], ticks[0].now)
  }

  lemma {:induction false} SentRecently(spec: Spec, w: Widget, ticks: seq<Tick>, last: Time, interval: nat)
    requires Steady(ticks, last, interval) && !w.local.needsCreate && spec.heartbeat > 0
    requires 0 < w.local.lastSent <= last < w.local.lastSent + spec.heartbeat
    ensures var s := From(spec, w, ticks).local; s.lastSent <= LastTick(ticks, last) < s.lastSent + spec.heartbeat
    decreases |ticks|
  {
    if ticks != [] {
      var next := Next(spec, w, ticks[0]);
      SentRecently(spec, next, ticks[1..], ticks[0].now, interval);
    }
  }

  /** While readings come and requests land, a heartbeat from HeartbeatFor keeps the widget
      from going stale at any moment up to the next tick, the interval being at most a third
      of the window - which the server takes from 60 s up. */
  lemma NeverStale(spec: Spec, w: Widget, ticks: seq<Tick>, interval: nat, staleAfter: nat, at: Time)
    requires staleAfter >= 60 && spec.heartbeat == HeartbeatFor(Some(staleAfter)) && 3 * interval <= staleAfter * SECOND
    requires !w.local.needsCreate && 0 < w.local.lastSent && Steady(ticks, w.local.lastSent, interval)
    requires LastTick(ticks, w.local.lastSent) <= at <= LastTick(ticks, w.local.lastSent) + interval
    ensures at - From(spec, w, ticks).local.lastSent < staleAfter * SECOND
    ensures 6 * (at - From(spec, w, ticks).local.lastSent) < 5 * staleAfter * SECOND
  {
    SentRecently(spec, w, ticks, w.local.lastSent, interval);
  }
}
