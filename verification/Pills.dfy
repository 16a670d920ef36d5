/** shared/ci/weights.go and shared/ci/anchor.go: completing the measured weights
    against their run, drawing one pill per step, and the countdown window that has to
    agree with the pill. */
module Pills {
  import opened Prelude
  import opened Clock
  import opened Steps
  import opened Weights

  datatype WeightsSource = FromMeasurement | FromMeasurementAndSplit | FromSplit | NoWeights

  // ---------- EvenWeights, FillWeights ----------

  function EvenShare(labels: seq<string>, total: int): Option<real> {
    if |labels| == 0 || total <= 0 then None
    else
      var share := Seconds(total) / |labels| as real;
      if share <= STEP_WEIGHT_FLOOR then None else Some(share)
  }

  /** What an even split gives each label; no entry at all when there is none worth having. */
  function EvenSplit(labels: seq<string>, total: int): ByName {
    match EvenShare(labels, total)
    case None => map[]
    case Some(share) => map l | l in labels :: share
  }

  method EvenWeights(labels: seq<string>, total: int) returns (out: Option<ByName>)
    ensures out.None? <==> EvenShare(labels, total).None?
    ensures out.GetOr(map[]) == EvenSplit(labels, total)
  {
    if |labels| == 0 || total <= 0 {
      return None;
    }
    var share := Seconds(total) / |labels| as real;
    if share <= STEP_WEIGHT_FLOOR {
      return None;
    }
    var m: ByName := map[];
    for i := 0 to |labels|
      invariant m == map l | l in labels[..i] :: share
    {
      assert labels[..i + 1] == labels[..i] + [labels[i]];
      m := m[labels[i] := share];
    }
    assert labels[..|labels|] == labels;
    out := Some(m);
  }

  /** A measured weight cut to the length of its run, for runs over the floor. */
  function Clamp(w: real, run: int): real {
    if Seconds(run) > STEP_WEIGHT_FLOOR && w > Seconds(run) then Seconds(run) else w
  }

  ghost function Filled(measured: ByName, labels: seq<string>, run: int): ByName {
    var even := EvenSplit(labels, run);
    map n | n in measured.Keys + even.Keys :: if n in measured then Clamp(measured[n], run) else even[n]
  }

  method FillWeights(measured: Option<ByName>, labels: seq<string>, run: int)
    returns (weights: Option<ByName>, source: WeightsSource)
    ensures weights.None? <==> measured.None? && EvenShare(labels, run).None?
    ensures weights.GetOr(map[]) == Filled(measured.GetOr(map[]), labels, run)
    ensures source == (
      if measured.None? then (if weights.None? then NoWeights else FromSplit)
      else if EvenSplit(labels, run).Keys <= measured.value.Keys then FromMeasurement
      else FromMeasurementAndSplit)
  {
    hide EvenShare, EvenSplit, Seconds;
    var even := EvenWeights(labels, run);
    if measured.None? {
      assert Filled(map[], labels, run) == EvenSplit(labels, run);
      if even.None? {
        return None, NoWeights;
      }
      return even, FromSplit;
    }
    var limit := Seconds(run);
    var out: ByName := map[];
    var rest := measured.value.Keys;
    while rest != {}
      invariant rest <= measured.value.Keys
      invariant out.Keys == measured.value.Keys - rest
      invariant forall n :: n in out ==> out[n] == Clamp(measured.value[n], run)
    {
      var name :| name in rest;
      rest := rest - {name};
      var w := measured.value[name];
      if limit > STEP_WEIGHT_FLOOR && w > limit {
        w := limit;
      }
      out := out[name := w];
    }
    source := FromMeasurement;
    var shares := even.GetOr(map[]);
    rest := shares.Keys;
    while rest != {}
      invariant rest <= shares.Keys
      invariant out.Keys == measured.value.Keys + (shares.Keys - rest)
      invariant forall n :: n in out ==> out[n] == if n in measured.value then Clamp(measured.value[n], run) else shares[n]
      invariant source == if shares.Keys - rest <= measured.value.Keys then FromMeasurement else FromMeasurementAndSplit
    {
      var name :| name in rest;
      rest := rest - {name};
      if name !in out {
        out := out[name := shares[name]];
        source := FromMeasurementAndSplit;
      }
    }
    assert out == Filled(measured.value, labels, run);
    weights := Some(out);
  }

  lemma ShareIsLessThanTheRun(labels: seq<string>, total: int)
    ensures var share := EvenShare(labels, total);
      share.Some? ==> STEP_WEIGHT_FLOOR < share.value <= Seconds(total)
  {
    if EvenShare(labels, total).Some? { QuotientIsSmaller(Seconds(total), |labels|); }
  }

  lemma QuotientIsSmaller(x: real, n: nat)
    requires x >= 0.0 && n >= 1
    ensures x / n as real <= x
  {
    var q := x / n as real;
    assert q * n as real == x;
    assert q >= 0.0;
    assert q * (n as real - 1.0) >= 0.0;
  }

  /** Filling keeps every weight at least the floor, and, once the run is longer than
      the floor, none exceeds the run. Every label gets a weight when the run can be
      split, and no measured group is lost. */
  lemma FillBounds(measured: ByName, labels: seq<string>, run: int)
    requires AtLeastFloor(measured)
    ensures var w := Filled(measured, labels, run);
      && AtLeastFloor(w)
      && measured.Keys <= w.Keys
      && (Seconds(run) > STEP_WEIGHT_FLOOR ==> forall n :: n in w ==> w[n] <= Seconds(run))
      && (EvenShare(labels, run).Some? ==> forall l :: l in labels ==> l in w)
  {
    ShareIsLessThanTheRun(labels, run);
  }

  /** Filling, weight by weight, in seconds. A measurement within the run is kept as it is, and
      one that outlasts a run of more than a second is cut to it. A label that was not measured
      gets the even share of the run if that is more than a second; nothing else is added. */
  lemma WhatFillingKeeps(measured: ByName, labels: seq<string>, run: int, name: string)
    ensures var w := Filled(measured, labels, run); var secs := run as real / 1_000_000_000.0;
      && (name in measured && (measured[name] <= secs || secs <= 1.0) ==> name in w && w[name] == measured[name])
      && (name in measured && measured[name] > secs > 1.0 ==> name in w && w[name] == secs)
      && (name !in measured && name in labels && secs / |labels| as real > 1.0 ==> name in w && w[name] == secs / |labels| as real)
      && (name in w ==> name in measured || (name in labels && secs / |labels| as real > 1.0))
  {
    if run <= 0 && |labels| > 0 {
      NoShareOfNothing(run as real / 1_000_000_000.0, |labels|);
    }
  }

  lemma WhenARunCanBeSplit(labels: seq<string>, run: int)
    ensures EvenShare(labels, run).Some? <==> labels != [] && run as real / 1_000_000_000.0 / |labels| as real > 1.0
  {
    if run <= 0 && labels != [] {
      NoShareOfNothing(run as real / 1_000_000_000.0, |labels|);
    }
  }

  lemma NoShareOfNothing(secs: real, n: nat)
    requires secs <= 0.0 && n > 0
    ensures secs / n as real <= 0.0
  {
    var q := secs / n as real;
    assert q * n as real == secs;
  }

  lemma MeasuredAtLeastFloor(jobs: seq<Job>)
    ensures AtLeastFloor(Pills(jobs))
  {
  }

  // ---------- meanWeight ----------

  ghost function Total(m: ByName): real
    decreases |m|
  {
    if m == map[] then 0.0 else
      var k :| k in m;
      m[k] + Total(m - {k})
  }

  /** The sum does not depend on the order the keys are taken in. */
  lemma {:induction false} TotalTakesAny(m: ByName, k: string)
    requires k in m
    ensures Total(m) == m[k] + Total(m - {k})
    decreases |m|
  {
    var c :| c in m && Total(m) == m[c] + Total(m - {c});
    if c != k {
      TotalTakesAny(m - {c}, k);
      TotalTakesAny(m - {k}, c);
      assert m - {c} - {k} == m - {k} - {c};
    }
  }

  ghost function Mean(byName: ByName): Option<real> {
    if |byName| == 0 then None else Some(MaxReal(STEP_WEIGHT_FLOOR, Total(byName) / |byName| as real))
  }

  method MeanWeight(byName: ByName) returns (mean: Option<real>)
    ensures mean == Mean(byName)
  {
    if |byName| == 0 {
      return None;
    }
    var sum := 0.0;
    var rest := byName;
    while rest != map[]
      invariant rest.Keys <= byName.Keys
      invariant sum + Total(rest) == Total(byName)
      decreases |rest|
    {
      var k :| k in rest;
      TotalTakesAny(rest, k);
      sum := sum + rest[k];
      rest := rest - {k};
    }
    var avg := sum / |byName| as real;
    if avg < STEP_WEIGHT_FLOOR {
      avg := STEP_WEIGHT_FLOOR;
    }
    mean := Some(avg);
  }

  ghost function Times(x: real, n: nat): real { x * n as real }

  lemma OneMore(x: real, n: nat)
    requires n >= 1
    ensures Times(x, n) == Times(x, n - 1) + x
  {
  }

  lemma QuotientBetween(t: real, n: real, lo: real, hi: real)
    requires n > 0.0 && lo * n <= t <= hi * n
    ensures lo <= t / n <= hi
  {
    var q := t / n;
    assert q * n == t;
    SignOfProduct(q - lo, n);
    SignOfProduct(hi - q, n);
  }

  lemma SignOfProduct(x: real, n: real)
    requires n > 0.0 && x * n >= 0.0
    ensures x >= 0.0
  {
  }

  /** The mean of what a run timed lies between its shortest and its longest group. */
  lemma {:induction false} TotalBounds(m: ByName, lo: real, hi: real)
    requires forall k :: k in m ==> lo <= m[k] <= hi
    ensures Times(lo, |m|) <= Total(m) <= Times(hi, |m|)
    decreases |m|
  {
    if m == map[] { assert Times(lo, 0) == 0.0 == Times(hi, 0); }
    hide Times;
    if m != map[] {
      var k :| k in m;
      TotalTakesAny(m, k);
      TotalBounds(m - {k}, lo, hi);
      assert |m - {k}| == |m| - 1;
      OneMore(lo, |m|);
      OneMore(hi, |m|);
    }
  }

  lemma MeanBetween(m: ByName, lo: real, hi: real)
    requires m != map[] && STEP_WEIGHT_FLOOR <= lo
    requires forall k :: k in m ==> lo <= m[k] <= hi
    ensures Mean(m).Some? && lo <= Mean(m).value <= hi
  {
    TotalBounds(m, lo, hi);
    assert |m| > 0;
    QuotientBetween(Total(m), |m| as real, lo, hi);
  }

  /** The weights of m added up along some listing of its keys. */
  ghost function SumAlong(m: ByName, keys: seq<string>): real
    requires forall k :: k in keys ==> k in m
  {
    if keys == [] then 0.0 else SumAlong(m, keys[..|keys| - 1]) + m[keys[|keys| - 1]]
  }

  ghost predicate Lists(keys: seq<string>, m: ByName) {
    Distinct(keys) && forall k :: k in keys <==> k in m
  }

  lemma SumOfFewer(m: ByName, fewer: ByName, keys: seq<string>)
    requires forall k :: k in keys ==> k in fewer && k in m && fewer[k] == m[k]
    ensures SumAlong(m, keys) == SumAlong(fewer, keys)
  {
  }

  lemma {:induction false} TotalIsTheSum(m: ByName, keys: seq<string>)
    requires Lists(keys, m)
    ensures Total(m) == SumAlong(m, keys) && |m| == |keys|
    decreases |keys|
  {
    if keys == [] {
      assert m == map[];
    } else {
      var n := |keys| - 1;
      var k := keys[n];
      assert keys == keys[..n] + [k];
      TotalTakesAny(m, k);
      TotalIsTheSum(m - {k}, keys[..n]);
      SumOfFewer(m, m - {k}, keys[..n]);
      assert |m| == |m - {k}| + 1;
    }
  }

  /** The mean of weights none of which is below a second is their average. */
  lemma MeanIsTheAverage(m: ByName, keys: seq<string>)
    requires m != map[] && AtLeastFloor(m) && Lists(keys, m)
    ensures Mean(m).Some? && Mean(m).value * |keys| as real == SumAlong(m, keys)
  {
    hide Total, SumAlong, Mean, AtLeastFloor;
    TotalIsTheSum(m, keys);
    MeanIsTheQuotient(m);
    Divided(Total(m), |m|);
  }

  lemma MeanIsTheQuotient(m: ByName)
    requires m != map[] && AtLeastFloor(m)
    ensures |m| > 0 && Mean(m) == Some(Total(m) / |m| as real)
  {
    hide Total;
    AverageClearsTheFloor(m);
  }

  lemma AverageClearsTheFloor(m: ByName)
    requires m != map[] && AtLeastFloor(m)
    ensures |m| > 0 && Total(m) / |m| as real >= STEP_WEIGHT_FLOOR
  {
    var top := 1.0 + Total(m);
    EachBelowTheTotal(m);
    assert forall k :: k in m ==> STEP_WEIGHT_FLOOR <= m[k] <= top;
    TotalBounds(m, STEP_WEIGHT_FLOOR, top);
    assert |m| > 0;
    QuotientBetween(Total(m), |m| as real, STEP_WEIGHT_FLOOR, top);
  }

  lemma EachBelowTheTotal(m: ByName)
    requires AtLeastFloor(m)
    ensures forall k :: k in m ==> m[k] <= Total(m)
  {
    forall k | k in m
      ensures m[k] <= Total(m)
    {
      TotalTakesAny(m, k);
      TotalIsPositive(m - {k});
    }
  }

  lemma {:induction false} TotalIsPositive(m: ByName)
    requires AtLeastFloor(m)
    ensures Total(m) >= 0.0
    decreases |m|
  {
    if m != map[] {
      var k :| k in m;
      TotalTakesAny(m, k);
      TotalIsPositive(m - {k});
    }
  }

  lemma Divided(x: real, n: nat)
    requires n > 0
    ensures x / n as real * n as real == x
  {
  }

  // ---------- ProjectWeights, UniformWeights ----------

  /** The weight a group draws at. */
  ghost function Drawn(name: string, byName: ByName): real
    requires byName != map[]
  {
    if name in byName then byName[name] else Mean(byName).value
  }

  /** One pill per label; Go's nil, here the empty sequence, without any history. */
  ghost function Projected(labels: seq<string>, byName: ByName): seq<real> {
    if byName == map[] then []
    else seq(|labels|, i requires 0 <= i < |labels| => Drawn(labels[i], byName))
  }

  method ProjectWeights(labels: seq<string>, byName: ByName) returns (out: seq<real>)
    ensures out == Projected(labels, byName)
  {
    var mean := MeanWeight(byName);
    if mean.None? {
      return [];
    }
    out := [];
    for i := 0 to |labels|
      invariant |out| == i
      invariant forall q :: 0 <= q < i ==> out[q] == Drawn(labels[q], byName)
    {
      out := out + [if labels[i] in byName then byName[labels[i]] else mean.value];
    }
  }

  function Uniform(n: int): seq<real> {
    if n <= 0 then [] else seq(n, _ => STEP_WEIGHT_FLOOR)
  }

  method UniformWeights(n: int) returns (out: seq<real>)
    ensures out == Uniform(n)
  {
    out := [];
    if n <= 0 {
      return;
    }
    for i := 0 to n
      invariant |out| == i && forall q :: 0 <= q < i ==> out[q] == STEP_WEIGHT_FLOOR
    {
      out := out + [STEP_WEIGHT_FLOOR];
    }
  }

  lemma ProjectedAtLeastFloor(labels: seq<string>, byName: ByName)
    requires AtLeastFloor(byName)
    ensures forall i :: 0 <= i < |Projected(labels, byName)| ==> Projected(labels, byName)[i] >= STEP_WEIGHT_FLOOR
  {
  }

  // ---------- LiveAnchor ----------

  const MIN_LIVE_WINDOW: int := 5 * SECOND

  datatype Decline = NoStepRunning | Queued | Unmeasured | NoStart | EstimateSpent

  datatype Anchor = Window(start: int, end: int) | Declined(why: Decline)

  /** Where the countdown starts: the group's start, never ahead of our own clock. */
  function AnchorStart(info: StepInfo, now: Time): Time {
    if now < info.currentStepStartedAt then now else info.currentStepStartedAt
  }

  /** How long the countdown runs, in whole seconds. */
  ghost function AnchorLength(name: string, byName: ByName, maxWindow: int): int
    requires byName != map[]
  {
    Round(MinReal(Drawn(name, byName), Seconds(maxWindow)))
  }

  ghost function LiveAnchor(info: StepInfo, byName: ByName, now: Time, maxWindow: int): Anchor {
    if info.currentStep < 1 then Declined(NoStepRunning)
    else if info.currentStepName == QUEUED_STEP_NAME then Declined(Queued)
    else if byName == map[] then Declined(Unmeasured)
    else if IsZero(info.currentStepStartedAt) then Declined(NoStart)
    else
      var startAt := AnchorStart(info, now);
      var endAt := startAt + AnchorLength(info.currentStepName, byName, maxWindow) * SECOND;
      if endAt <= now + MIN_LIVE_WINDOW then Declined(EstimateSpent)
      else Window(Unix(startAt), Unix(endAt))
  }

  method ComputeAnchor(info: StepInfo, byName: ByName, now: Time, maxWindow: int) returns (a: Anchor)
    ensures a == LiveAnchor(info, byName, now, maxWindow)
  {
    if info.currentStep < 1 {
      return Declined(NoStepRunning);
    }
    if info.currentStepName == QUEUED_STEP_NAME {
      return Declined(Queued);
    }
    var secs: real;
    if info.currentStepName in byName {
      secs := byName[info.currentStepName];
    } else {
      var mean := MeanWeight(byName);
      if mean.None? {
        return Declined(Unmeasured);
      }
      secs := mean.value;
    }
    secs := MinReal(secs, Seconds(maxWindow));
    var startAt := info.currentStepStartedAt;
    if IsZero(startAt) {
      return Declined(NoStart);
    }
    if now < startAt {
      startAt := now;
    }
    var endAt := startAt + Round(secs) * SECOND;
    if endAt <= now + MIN_LIVE_WINDOW {
      return Declined(EstimateSpent);
    }
    a := Window(Unix(startAt), Unix(endAt));
  }

  lemma UnixAdd(t: Time, secs: nat)
    ensures Unix(t + secs * SECOND) == Unix(t) + secs
  {
    assert (t + secs * SECOND) / SECOND == t / SECOND + secs;
  }

  lemma UnixMonotone(a: Time, b: Time)
    requires a <= b
    ensures Unix(a) <= Unix(b)
  {
  }

  /** Pill and countdown agree: a window offered for the step at labels[i] starts no
      later than now, ends more than the minimum ahead of it, and is exactly as long as
      the weight its own pill is drawn at, rounded and bounded. */
  lemma PillAndCountdownAgree(info: StepInfo, labels: seq<string>, i: nat, byName: ByName, now: Time, maxWindow: int)
    requires i < |labels| && labels[i] == info.currentStepName
    requires LiveAnchor(info, byName, now, maxWindow).Window?
    ensures var w := LiveAnchor(info, byName, now, maxWindow); var pills := Projected(labels, byName);
      && |pills| == |labels|
      && w.end - w.start == Round(MinReal(pills[i], Seconds(maxWindow)))
      && w.start <= Unix(now)
      && w.end >= Unix(now) + 5
      && w.start == Unix(AnchorStart(info, now))
      && w.start < w.end
  {
    WindowIsAhead(info, byName, now, maxWindow);
  }

  /** A window starts no later than now and ends more than five seconds ahead, the stamps on
      the wire being cut to whole seconds. */
  lemma WindowIsAhead(info: StepInfo, byName: ByName, now: Time, maxWindow: int)
    requires LiveAnchor(info, byName, now, maxWindow).Window?
    ensures byName != map[]
    ensures AnchorStart(info, now) <= now
    ensures AnchorStart(info, now) + AnchorLength(info.currentStepName, byName, maxWindow) * SECOND > now + MIN_LIVE_WINDOW
    ensures var w := LiveAnchor(info, byName, now, maxWindow);
      && w.start <= Unix(now)
      && w.end >= Unix(now) + 5
      && w.start < w.end
      && w.end - w.start == AnchorLength(info.currentStepName, byName, maxWindow)
      && w.start == Unix(AnchorStart(info, now))
      && info.currentStepName != QUEUED_STEP_NAME
  {
    var startAt := AnchorStart(info, now);
    var length := AnchorLength(info.currentStepName, byName, maxWindow);
    assert length > 0;
    UnixAdd(startAt, length);
    UnixMonotone(startAt, now);
    UnixAdd(now, 5);
    UnixMonotone(now + 5 * SECOND, startAt + length * SECOND);
  }

  /** The window of a started and measured group is refused exactly when its estimate is
      all but spent: no more than five seconds are left of it. */
  lemma AnchorDeclines(info: StepInfo, byName: ByName, now: Time, maxWindow: int)
    requires info.currentStep >= 1 && info.currentStepName != QUEUED_STEP_NAME
    requires byName != map[] && !IsZero(info.currentStepStartedAt)
    ensures LiveAnchor(info, byName, now, maxWindow).Declined? <==>
      AnchorLength(info.currentStepName, byName, maxWindow) * SECOND <= Max(0, now - info.currentStepStartedAt) + MIN_LIVE_WINDOW
  {
  }
}
