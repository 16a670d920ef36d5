/** shared/pushward/breaker.go: the circuit breaker, and the many calls that share one. */
module Breaker {
  datatype Mode = Closed | Open | HalfOpen

  /** What a finished call tells the breaker. */
  datatype Signal = Success | Reachable | Failure | Abort

  datatype Circuit = Circuit(mode: Mode, failures: nat, openUntil: int)

  datatype Settings = Settings(threshold: int, cooldown: nat)

  const FRESH := Circuit(Closed, 0, 0)

  predicate Admits(c: Circuit, now: int) {
    c.mode == Closed || (c.mode == Open && now > c.openUntil)
  }

  /** The circuit after a call asked to proceed. */
  function Asked(c: Circuit, now: int): Circuit {
    if c.mode == Open && now > c.openUntil then c.(mode := HalfOpen) else c
  }

  /** The circuit after a call reported. A failure or an abort of a half-open probe
      starts a fresh cooldown; only a success clears a closed streak. */
  function Reported(s: Settings, c: Circuit, signal: Signal, now: int): Circuit {
    match (c.mode, signal)
    case (_, Success) => Circuit(Closed, 0, c.openUntil)
    case (HalfOpen, Reachable) => Circuit(Closed, 0, c.openUntil)
    case (HalfOpen, _) => c.(mode := Open, openUntil := now + s.cooldown)
    case (Closed, Failure) =>
      if c.failures + 1 >= s.threshold then Circuit(Open, c.failures + 1, now + s.cooldown)
      else c.(failures := c.failures + 1)
    case _ => c
  }

  class CircuitBreaker {
    const threshold: int
    const cooldown: nat
    var mode: Mode
    var failures: nat
    var openUntil: int

    ghost function View(): Circuit
      reads this
    {
      Circuit(mode, failures, openUntil)
    }

    ghost function Config(): Settings {
      Settings(threshold, cooldown)
    }

    constructor (threshold: int, cooldown: nat)
      ensures View() == FRESH && Config() == Settings(threshold, cooldown)
    {
      this.threshold, this.cooldown := threshold, cooldown;
      mode, failures, openUntil := Closed, 0, 0;
    }

    method Allow(now: int) returns (ok: bool)
      modifies this
      ensures ok == Admits(old(View()), now) && View() == Asked(old(View()), now)
    {
      match mode {
        case Closed => return true;
        case Open =>
          if now > openUntil {
            mode := HalfOpen;
            return true;
          }
          return false;
        case HalfOpen => return false;
      }
    }

    method RecordSuccess(now: int)
      modifies this
      ensures View() == Reported(Config(), old(View()), Success, now)
    {
      failures := 0;
      mode := Closed;
    }

    method RecordReachable(now: int)
      modifies this
      ensures View() == Reported(Config(), old(View()), Reachable, now)
    {
      if mode == HalfOpen {
        mode := Closed;
        failures := 0;
      }
    }

    method RecordFailure(now: int)
      modifies this
      ensures View() == Reported(Config(), old(View()), Failure, now)
    {
      match mode {
        case Closed =>
          failures := failures + 1;
          if failures >= threshold {
            mode := Open;
            openUntil := now + cooldown;
          }
        case HalfOpen =>
          mode := Open;
          openUntil := now + cooldown;
        case Open =>
      }
    }

    method Abort(now: int)
      modifies this
      ensures View() == Reported(Config(), old(View()), Signal.Abort, now)
    {
      if mode == HalfOpen {
        mode := Open;
        openUntil := now + cooldown;
      }
    }

    method IsOpen() returns (open: bool)
      ensures open <==> View().mode != Closed
    {
      open := mode != Closed;
    }

    /** Whether Allow would refuse right now. */
    method Blocking(now: int) returns (blocked: bool)
      ensures blocked <==> !Admits(View(), now)
    {
      match mode {
        case Open => return now <= openUntil;
        case HalfOpen => return true;
        case Closed => return false;
      }
    }
  }

  // ---------- Many calls, one breaker ----------

  /** Calls start and finish in any order; the clock never runs back. */
  datatype Event =
    | Ask(after: nat)
    | Report(call: nat, signal: Signal, after: nat)

  /** What the outside can see: the circuit leaving closed, a probe let through, and the
      circuit closing again. */
  datatype Mark = Opened(at: int) | Probed(at: int) | Reclosed(at: int)

  /** probe is the call admitted last while the circuit was open; heard is what was reported
      while the circuit was closed, since it last closed. */
  datatype Shared = Shared(circuit: Circuit, clock: int, calls: nat, reports: nat, inFlight: set<nat>, probe: nat,
    marks: seq<Mark>, heard: seq<Signal>)

  function Start(clock: int): Shared {
    Shared(FRESH, clock, 0, 0, {}, 0, [], [])
  }

  /** The failures since the last success. Calls that merely reached the backend, and calls
      given up, neither add to it nor clear it. */
  function Streak(heard: seq<Signal>): nat {
    if heard == [] then 0
    else
      var before := Streak(heard[..|heard| - 1]);
      match heard[|heard| - 1]
      case Success => 0
      case Failure => before + 1
      case _ => before
  }

  /** Only a call that was admitted and has not reported may report. */
  predicate Possible(s: Shared, e: Event) {
    e.Report? ==> e.call in s.inFlight
  }

  function AfterAsk(s: Shared, now: int): Shared {
    var c := Asked(s.circuit, now);
    var marks := if c.mode != s.circuit.mode then s.marks + [Probed(now)] else s.marks;
    if Admits(s.circuit, now) then
      Shared(c, now, s.calls + 1, s.reports, s.inFlight + {s.calls}, if c.mode == HalfOpen then s.calls else s.probe,
        marks, s.heard)
    else
      s.(circuit := c, clock := now)
  }

  function AfterReport(cfg: Settings, s: Shared, call: nat, signal: Signal, now: int): Shared {
    var c := Reported(cfg, s.circuit, signal, now);
    var marks :=
      if c.mode == Closed && s.circuit.mode != Closed then s.marks + [Reclosed(now)]
      else if c.mode != Closed && s.circuit.mode == Closed then s.marks + [Opened(now)]
      else s.marks;
    var heard := if s.circuit.mode == Closed then s.heard + [signal] else [];
    s.(circuit := c, clock := now, reports := s.reports + 1, inFlight := s.inFlight - {call}, marks := marks, heard := heard)
  }

  function Next(cfg: Settings, s: Shared, e: Event): Shared {
    match e
    case Ask(after) => AfterAsk(s, s.clock + after)
    case Report(call, signal, after) => AfterReport(cfg, s, call, signal, s.clock + after)
  }

  ghost predicate Run(cfg: Settings, s: Shared, es: seq<Event>)
    decreases |es|
  {
    es == [] || (Possible(s, es[0]) && Run(cfg, Next(cfg, s, es[0]), es[1..]))
  }

  function From(cfg: Settings, s: Shared, es: seq<Event>): Shared
    decreases |es|
  {
    if es == [] then s else From(cfg, Next(cfg, s, es[0]), es[1..])
  }

  /** The opening and the probes with no close between them: each is more than the cooldown
      after the one before. */
  ghost predicate ProbesApart(cfg: Settings, marks: seq<Mark>) {
    forall i, j :: 0 <= i < j < |marks| && (forall k :: i <= k <= j ==> !marks[k].Reclosed?) ==>
      marks[j].at > marks[i].at + cfg.cooldown
  }

  /** Until the circuit is seen to close it is probing or cooling down, and it is seen to
      open before that. */
  ghost predicate CoolsDown(cfg: Settings, s: Shared) {
    && (s.circuit.mode == Closed <==> s.marks == [] || s.marks[|s.marks| - 1].Reclosed?)
    && (s.marks != [] && !s.marks[|s.marks| - 1].Reclosed? ==>
        var at := s.marks[|s.marks| - 1].at;
        && at <= s.clock
        && (s.circuit.mode == HalfOpen ==> s.marks[|s.marks| - 1].Probed?)
        && (s.circuit.mode == HalfOpen || (s.circuit.mode == Open && s.circuit.openUntil >= at + cfg.cooldown)))
  }

  ghost predicate Inv(cfg: Settings, s: Shared) {
    && (s.circuit.mode == Closed <==> s.circuit.failures < cfg.threshold)
    && (s.circuit.mode == HalfOpen ==> s.probe in s.inFlight)
    && (s.circuit.mode == Open ==> s.circuit.openUntil <= s.clock + cfg.cooldown)
    && (forall call :: call in s.inFlight ==> call < s.calls)
    && |s.inFlight| + s.reports == s.calls
    && (s.circuit.mode == Closed ==> s.circuit.failures == Streak(s.heard))
    && CoolsDown(cfg, s)
    && ProbesApart(cfg, s.marks)
  }

  lemma MarkKeepsApart(cfg: Settings, marks: seq<Mark>, mark: Mark)
    requires ProbesApart(cfg, marks)
    requires !mark.Reclosed? && |marks| > 0 && !marks[|marks| - 1].Reclosed? ==> mark.at > marks[|marks| - 1].at + cfg.cooldown
    ensures ProbesApart(cfg, marks + [mark])
  {
    var longer := marks + [mark];
    var n := |marks|;
    forall i, j | 0 <= i < j < |longer| && (forall k :: i <= k <= j ==> !longer[k].Reclosed?)
      ensures longer[j].at > longer[i].at + cfg.cooldown
    {
      assert !longer[j].Reclosed?;
      assert forall k :: i <= k <= j && k < n ==> longer[k] == marks[k];
      if j == n {
        assert !longer[n - 1].Reclosed?;
        assert i < n - 1 ==> marks[n - 1].at > marks[i].at + cfg.cooldown;
      }
    }
  }

  lemma AskKeepsInv(cfg: Settings, s: Shared, now: int)
    requires cfg.threshold >= 1 && Inv(cfg, s) && s.clock <= now
    ensures Inv(cfg, AfterAsk(s, now))
  {
    hide ProbesApart, Streak;
    if s.circuit.mode == Open && now > s.circuit.openUntil {
      MarkKeepsApart(cfg, s.marks, Probed(now));
    }
  }

  lemma ReportKeepsInv(cfg: Settings, s: Shared, call: nat, signal: Signal, now: int)
    requires cfg.threshold >= 1 && Inv(cfg, s) && s.clock <= now && call in s.inFlight
    ensures Inv(cfg, AfterReport(cfg, s, call, signal, now))
  {
    hide ProbesApart;
    assert (s.heard + [signal])[..|s.heard|] == s.heard;
    if s.circuit.mode == Closed {
      MarkKeepsApart(cfg, s.marks, Opened(now));
    } else {
      MarkKeepsApart(cfg, s.marks, Reclosed(now));
    }
  }

  lemma NextKeepsInv(cfg: Settings, s: Shared, e: Event)
    requires cfg.threshold >= 1 && Inv(cfg, s) && Possible(s, e)
    ensures Inv(cfg, Next(cfg, s, e))
  {
    hide Inv, AfterAsk, AfterReport;
    match e
    case Ask(after) => AskKeepsInv(cfg, s, s.clock + after);
    case Report(call, signal, after) => ReportKeepsInv(cfg, s, call, signal, s.clock + after);
  }

  lemma {:induction false} EveryRunKeepsInv(cfg: Settings, s: Shared, es: seq<Event>)
    requires cfg.threshold >= 1 && Inv(cfg, s) && Run(cfg, s, es)
    ensures Inv(cfg, From(cfg, s, es))
    decreases |es|
  {
    if es != [] {
      NextKeepsInv(cfg, s, es[0]);
      EveryRunKeepsInv(cfg, Next(cfg, s, es[0]), es[1..]);
    }
  }

  /** In every interleaving: every admitted call has reported once or is in flight; the
      circuit is closed exactly while the count is short of the threshold, and while closed
      that count is the streak of failures; a half-open circuit has its probe in flight; and
      an opening and the probes after it, with no close between them, are more than the
      cooldown apart. */
  lemma EveryInterleaving(cfg: Settings, clock: int, es: seq<Event>)
    requires cfg.threshold >= 1 && Run(cfg, Start(clock), es)
    ensures var s := From(cfg, Start(clock), es);
      && |s.inFlight| + s.reports == s.calls
      && (s.circuit.mode == Closed <==> s.circuit.failures < cfg.threshold)
      && (s.circuit.mode == Closed ==> s.circuit.failures == Streak(s.heard))
      && (s.circuit.mode == HalfOpen ==> s.probe in s.inFlight)
      && ProbesApart(cfg, s.marks)
  {
    StartInv(cfg, clock);
    hide Inv, ProbesApart;
    EveryRunKeepsInv(cfg, Start(clock), es);
    InvMeans(cfg, From(cfg, Start(clock), es));
  }

  lemma StartInv(cfg: Settings, clock: int)
    requires cfg.threshold >= 1
    ensures Inv(cfg, Start(clock))
  {
  }

  lemma InvMeans(cfg: Settings, s: Shared)
    requires Inv(cfg, s)
    ensures |s.inFlight| + s.reports == s.calls
    ensures s.circuit.mode == Closed <==> s.circuit.failures < cfg.threshold
    ensures s.circuit.mode == Closed ==> s.circuit.failures == Streak(s.heard)
    ensures s.circuit.mode == HalfOpen ==> s.probe in s.inFlight
    ensures ProbesApart(cfg, s.marks)
  {
    hide ProbesApart, Streak;
  }

  lemma ReportOpens(cfg: Settings, s: Shared, call: nat, signal: Signal, now: int)
    requires cfg.threshold >= 1 && s.circuit.mode == Closed
    requires s.circuit.failures == Streak(s.heard) && s.circuit.failures < cfg.threshold
    ensures AfterReport(cfg, s, call, signal, now).circuit.mode != Closed <==> Streak(s.heard + [signal]) >= cfg.threshold
  {
    assert (s.heard + [signal])[..|s.heard|] == s.heard;
  }

  /** A closed circuit opens exactly on the report that brings the streak to the threshold. */
  lemma OpensOnTheThreshold(cfg: Settings, clock: int, es: seq<Event>, call: nat, signal: Signal, after: nat)
    requires cfg.threshold >= 1 && Run(cfg, Start(clock), es)
    requires var s := From(cfg, Start(clock), es); s.circuit.mode == Closed && call in s.inFlight
    ensures var s := From(cfg, Start(clock), es); var next := Next(cfg, s, Report(call, signal, after));
      next.circuit.mode != Closed <==> Streak(s.heard + [signal]) >= cfg.threshold
  {
    EveryInterleaving(cfg, clock, es);
    var s := From(cfg, Start(clock), es);
    hide From, Run, Start, AfterReport, Streak, ProbesApart;
    ReportOpens(cfg, s, call, signal, s.clock + after);
  }

  /** In this run, closed means short of the threshold. */
  ghost predicate ClosedIsShort(cfg: Settings, clock: int, es: seq<Event>) {
    Run(cfg, Start(clock), es) ==>
      (var c := From(cfg, Start(clock), es).circuit; c.mode == Closed <==> c.failures < cfg.threshold)
  }

  /** Closed means short of the threshold in every run exactly when the threshold is at
      least one. */
  lemma ThresholdMatters(cfg: Settings, clock: int)
    ensures (forall es :: ClosedIsShort(cfg, clock, es)) <==> cfg.threshold >= 1
  {
    if cfg.threshold >= 1 {
      forall es
        ensures ClosedIsShort(cfg, clock, es)
      {
        if Run(cfg, Start(clock), es) {
          EveryInterleaving(cfg, clock, es);
        }
      }
    } else {
      assert !ClosedIsShort(cfg, clock, []);
    }
  }

  lemma ReportedAsOne(cfg: Settings, c: Circuit, signal: Signal, now: int)
    requires cfg.threshold <= 1
    ensures Reported(cfg, c, signal, now) == Reported(cfg.(threshold := 1), c, signal, now)
  {
  }

  /** And a threshold below one behaves as a threshold of one, in every run. */
  lemma {:induction false} LowThresholdsActAsOne(cfg: Settings, s: Shared, es: seq<Event>)
    requires cfg.threshold <= 1
    ensures From(cfg, s, es) == From(cfg.(threshold := 1), s, es)
    ensures Run(cfg, s, es) <==> Run(cfg.(threshold := 1), s, es)
    decreases |es|
  {
    if es != [] {
      var e := es[0];
      if e.Report? {
        ReportedAsOne(cfg, s.circuit, e.signal, s.clock + e.after);
      }
      hide Reported;
      LowThresholdsActAsOne(cfg, Next(cfg, s, e), es[1..]);
    }
  }

  // ---------- Who is refused, and when it closes ----------

  /** Whatever else happens, no success is reported. */
  ghost predicate Quiet(more: seq<Event>) {
    forall e :: e in more ==> !(e.Report? && e.signal == Success)
  }

  lemma {:induction false} StaysOpen(cfg: Settings, s: Shared, more: seq<Event>)
    requires s.circuit.mode == Open && Quiet(more) && From(cfg, s, more).calls == s.calls
    ensures From(cfg, s, more).circuit == s.circuit
    decreases |more|
  {
    if more != [] {
      var next := Next(cfg, s, more[0]);
      assert more[0] in more;
      CallsGrow(cfg, s, more[..1]);
      CallsGrow(cfg, next, more[1..]);
      assert next.calls == s.calls by { assert From(cfg, next, []) == next; assert more[..1][1..] == []; }
      assert Quiet(more[1..]);
      StaysOpen(cfg, next, more[1..]);
    }
  }

  lemma {:induction false} CallsGrow(cfg: Settings, s: Shared, more: seq<Event>)
    ensures From(cfg, s, more).calls >= s.calls && From(cfg, s, more).clock >= s.clock
    decreases |more|
  {
    if more != [] {
      CallsGrow(cfg, Next(cfg, s, more[0]), more[1..]);
    }
  }

  lemma {:induction false} NobodyGetsThrough(cfg: Settings, s: Shared, more: seq<Event>)
    requires s.circuit.mode == Open && Quiet(more) && From(cfg, s, more).clock <= s.circuit.openUntil
    ensures From(cfg, s, more).calls == s.calls
    decreases |more|
  {
    if more != [] {
      var next := Next(cfg, s, more[0]);
      assert more[0] in more;
      CallsGrow(cfg, next, more[1..]);
      assert Quiet(more[1..]);
      assert next.circuit == s.circuit;
      NobodyGetsThrough(cfg, next, more[1..]);
    }
  }

  /** A report opens the circuit: the failure that brings a closed one's streak to the
      threshold, or a probe's failing or giving up. */
  ghost predicate Trips(cfg: Settings, s: Shared, signal: Signal) {
    || (s.circuit.mode == Closed && Streak(s.heard + [signal]) >= cfg.threshold)
    || (s.circuit.mode == HalfOpen && (signal == Failure || signal == Signal.Abort))
  }

  lemma TrippedUntil(cfg: Settings, s: Shared, call: nat, signal: Signal, now: int)
    requires cfg.threshold >= 1 && Inv(cfg, s) && Trips(cfg, s, signal)
    ensures AfterReport(cfg, s, call, signal, now).circuit.mode == Open
    ensures AfterReport(cfg, s, call, signal, now).circuit.openUntil == now + cfg.cooldown
  {
    assert (s.heard + [signal])[..|s.heard|] == s.heard;
    hide ProbesApart, CoolsDown;
  }

  /** After the report at t that opens the circuit, and while no success is reported, nobody
      is admitted up to t plus the cooldown, whoever else reports meanwhile; the next call is
      admitted exactly once that time has passed, and it is a probe. */
  lemma OpenRefusesForTheCooldown(cfg: Settings, clock: int, es: seq<Event>, call: nat, signal: Signal, after: nat, more: seq<Event>, later: nat)
    requires cfg.threshold >= 1 && Run(cfg, Start(clock), es)
    requires var s := From(cfg, Start(clock), es); call in s.inFlight && Trips(cfg, s, signal)
    requires Quiet(more)
    ensures var s := From(cfg, Start(clock), es); var t := s.clock + after; var tripped := Next(cfg, s, Report(call, signal, after));
      var now := From(cfg, tripped, more);
      && (now.clock <= t + cfg.cooldown ==> now.calls == tripped.calls)
      && (now.calls == tripped.calls ==>
          var next := Next(cfg, now, Ask(later));
          && (next.calls == now.calls + 1 <==> now.clock + later > t + cfg.cooldown)
          && (next.calls == now.calls + 1 ==> next.probe == now.calls && next.circuit.mode == HalfOpen)
          && (next.calls != now.calls + 1 ==> next.calls == now.calls && next.inFlight == now.inFlight))
  {
    var s := From(cfg, Start(clock), es);
    StartInv(cfg, clock);
    EveryRunKeepsInv(cfg, Start(clock), es);
    TrippedUntil(cfg, s, call, signal, s.clock + after);
    var tripped := Next(cfg, s, Report(call, signal, after));
    var now := From(cfg, tripped, more);
    hide Inv, Trips, Quiet, Run, From;
    if now.clock <= s.clock + after + cfg.cooldown {
      NobodyGetsThrough(cfg, tripped, more);
    }
    if now.calls == tripped.calls {
      StaysOpen(cfg, tripped, more);
    }
  }

  /** A closed circuit admits everybody; and one that is not closes on a report exactly when
      it is a success, whoever's, or the reply a half-open one was waiting for. */
  lemma WhenItCloses(cfg: Settings, clock: int, es: seq<Event>, call: nat, signal: Signal, after: nat)
    requires cfg.threshold >= 1 && Run(cfg, Start(clock), es)
    ensures var s := From(cfg, Start(clock), es); var next := Next(cfg, s, Report(call, signal, after));
      && (s.circuit.mode == Closed ==> Next(cfg, s, Ask(after)).calls == s.calls + 1 && Next(cfg, s, Ask(after)).circuit == s.circuit)
      && (s.circuit.mode != Closed ==>
          (next.circuit.mode == Closed <==> signal == Success || (signal == Reachable && s.circuit.mode == HalfOpen)))
      && (s.circuit.mode != Closed && next.circuit.mode == Closed ==> next.circuit.failures == 0 && next.heard == [])
      && (s.circuit.mode == Open && next.circuit.mode != Closed ==> next.circuit == s.circuit)
  {
    StartInv(cfg, clock);
    EveryRunKeepsInv(cfg, Start(clock), es);
    hide From, Run, ProbesApart, Streak;
  }

  /** No run wedges the breaker: at most one report away, and one cooldown later, it
      admits again - whatever the probe has to say, and whoever else reports first. */
  lemma NeverWedged(cfg: Settings, clock: int, es: seq<Event>, call: nat, signal: Signal, after: nat, later: int)
    requires cfg.threshold >= 1 && Run(cfg, Start(clock), es)
    ensures var s := From(cfg, Start(clock), es);
      && (s.circuit.mode == HalfOpen ==> s.inFlight != {})
      && (s.circuit.mode != HalfOpen && later > s.clock + cfg.cooldown ==> Admits(s.circuit, later))
      && (s.circuit.mode == HalfOpen && call in s.inFlight && later > s.clock + after + cfg.cooldown ==>
            Admits(Next(cfg, s, Report(call, signal, after)).circuit, later))
  {
    EveryRunKeepsInv(cfg, Start(clock), es);
  }

  /** A half-open circuit lets no second call through until somebody reports. */
  lemma {:induction false} OneProbeAtATime(cfg: Settings, s: Shared, asks: seq<Event>)
    requires s.circuit.mode == HalfOpen && forall e :: e in asks ==> e.Ask?
    ensures From(cfg, s, asks).circuit == s.circuit && From(cfg, s, asks).inFlight == s.inFlight
    decreases |asks|
  {
    if asks != [] {
      assert asks[0] in asks;
      OneProbeAtATime(cfg, Next(cfg, s, asks[0]), asks[1..]);
    }
  }
}
