/** shared/testutil/testutil.go: the activity content the server holds, the merge of an
    accepted PATCH, and the validation that decides whether it is accepted. Also the
    wire clamps of shared/pushward/types.go. */
module Server {
  import opened Prelude
  import opened Json

  const TEMPLATE_STEPS := "steps"
  const MAX_STEP_LABEL_LEN: nat := 32
  const MIN_STEP_ROWS: int := 1
  const MAX_STEP_ROWS: int := 10
  const MAX_STATE_RUNES: nat := 256

  /** The members of an activity's content that the CI poller's frames carry. A frame
      on the wire and the content it is merged onto have the same shape: an absent
      member is None. */
  datatype Content = Content(
    template: Option<string>,
    progress: Option<real>,
    state: Option<string>,
    currentStep: Option<int>,
    totalSteps: Option<int>,
    stepRows: Option<seq<int>>,
    stepLabels: Option<seq<string>>,
    stepColors: Option<seq<string>>,
    stepWeights: Option<seq<real>>,
    liveProgress: Option<bool>,
    startDate: Option<int>,
    endDate: Option<int>)

  const EMPTY: Content := Content(None, None, None, None, None, None, None, None, None, None, None, None)

  /** The merge, member by member. */
  function Merge(stored: Content, patch: Content): Content {
    Content(
      patch.template.Or(stored.template),
      patch.progress.Or(stored.progress),
      patch.state.Or(stored.state),
      patch.currentStep.Or(stored.currentStep),
      patch.totalSteps.Or(stored.totalSteps),
      patch.stepRows.Or(stored.stepRows),
      patch.stepLabels.Or(stored.stepLabels),
      patch.stepColors.Or(stored.stepColors),
      patch.stepWeights.Or(stored.stepWeights),
      patch.liveProgress.Or(stored.liveProgress),
      patch.startDate.Or(stored.startDate),
      patch.endDate.Or(stored.endDate))
  }

  // ---------- The same content as JSON ----------

  datatype Key = KTemplate | KProgress | KState | KCurrentStep | KTotalSteps | KStepRows | KStepLabels
    | KStepColors | KStepWeights | KLiveProgress | KStartDate | KEndDate

  type Wire = Json<Key>

  function Ints(s: seq<int>): seq<Wire> { seq(|s|, i requires 0 <= i < |s| => Num(s[i] as real)) }

  function Strs(s: seq<string>): seq<Wire> { seq(|s|, i requires 0 <= i < |s| => Str(s[i])) }

  function Reals(s: seq<real>): seq<Wire> { seq(|s|, i requires 0 <= i < |s| => Num(s[i])) }

  function Lift<T>(x: Option<T>, f: T -> Wire): Option<Wire> {
    match x case None => None case Some(v) => Some(f(v))
  }

  /** The member a content carries under a key. */
  function Get(c: Content, k: Key): Option<Wire> {
    match k
    case KTemplate => Lift(c.template, s => Str(s))
    case KProgress => Lift(c.progress, r => Num(r))
    case KState => Lift(c.state, s => Str(s))
    case KCurrentStep => Lift(c.currentStep, (i: int) => Num(i as real))
    case KTotalSteps => Lift(c.totalSteps, (i: int) => Num(i as real))
    case KStepRows => Lift(c.stepRows, s => Arr(Ints(s)))
    case KStepLabels => Lift(c.stepLabels, s => Arr(Strs(s)))
    case KStepColors => Lift(c.stepColors, s => Arr(Strs(s)))
    case KStepWeights => Lift(c.stepWeights, s => Arr(Reals(s)))
    case KLiveProgress => Lift(c.liveProgress, b => Bool(b))
    case KStartDate => Lift(c.startDate, (i: int) => Num(i as real))
    case KEndDate => Lift(c.endDate, (i: int) => Num(i as real))
  }

  function Encode(c: Content): map<Key, Wire> {
    map k: Key | Get(c, k).Some? :: Get(c, k).value
  }

  lemma GetMerged(stored: Content, patch: Content, k: Key)
    ensures Get(Merge(stored, patch), k) == Get(patch, k).Or(Get(stored, k))
  {
  }

  /** Merging the typed contents is RFC 7396 on their wire form: a frame's absent
      members keep what the activity holds, present ones replace it whole. */
  lemma MergeIsRfc7396(stored: Content, patch: Content)
    ensures Encode(Merge(stored, patch)) == Merged(Encode(stored), Encode(patch))
  {
    var p := Encode(patch);
    forall k | k in p
      ensures !p[k].Null? && !p[k].Obj?
    {
    }
    PlainPatchOverlays(Encode(stored), p);
    forall k { GetMerged(stored, patch, k); }
    hide Get, Merge, Merged;
    assert Encode(Merge(stored, patch)) == Encode(stored) + p;
  }

  /** A frame that landed lands again without changing anything. */
  lemma MergeTwice(stored: Content, patch: Content)
    ensures Merge(Merge(stored, patch), patch) == Merge(stored, patch)
  {
  }

  // ---------- Validation ----------

  /** validateSteps: every array is absent or exactly as long as the ladder, and every
      entry is in bounds. */
  ghost predicate StepsValid(c: Content) {
    && c.totalSteps.Some? && c.totalSteps.value >= 1
    && c.currentStep.Some? && 0 <= c.currentStep.value <= c.totalSteps.value
    && ArraysFit(c, c.totalSteps.value)
  }

  ghost predicate ArraysFit(c: Content, total: int) {
    && (c.stepRows.Some? ==> RowsFit(c.stepRows.value, total))
    && (c.stepLabels.Some? ==> LabelsFit(c.stepLabels.value, total))
    && (c.stepColors.Some? ==> |c.stepColors.value| == total)
    && (c.stepWeights.Some? ==> WeightsFit(c.stepWeights.value, total))
  }

  ghost predicate RowsFit(rows: seq<int>, total: int) {
    |rows| == total && forall i :: 0 <= i < |rows| ==> MIN_STEP_ROWS <= rows[i] <= MAX_STEP_ROWS
  }

  ghost predicate LabelsFit(labels: seq<string>, total: int) {
    |labels| == total && forall i :: 0 <= i < |labels| ==> |labels[i]| <= MAX_STEP_LABEL_LEN
  }

  ghost predicate WeightsFit(weights: seq<real>, total: int) {
    |weights| == total && forall i :: 0 <= i < |weights| ==> weights[i] >= 0.0
  }

  /** The validation walks the arrays and stops at the first entry out of bounds. */
  method ValidateSteps(c: Content) returns (ok: bool)
    ensures ok <==> StepsValid(c)
  {
    if c.totalSteps.None? || c.totalSteps.value < 1 {
      return false;
    }
    if c.currentStep.None? || c.currentStep.value < 0 || c.currentStep.value > c.totalSteps.value {
      return false;
    }
    if c.stepRows.Some? {
      var rows := c.stepRows.value;
      if |rows| != c.totalSteps.value {
        return false;
      }
      for i := 0 to |rows|
        invariant forall q :: 0 <= q < i ==> MIN_STEP_ROWS <= rows[q] <= MAX_STEP_ROWS
      {
        if rows[i] < MIN_STEP_ROWS || rows[i] > MAX_STEP_ROWS {
          return false;
        }
      }
    }
    if c.stepLabels.Some? {
      var labels := c.stepLabels.value;
      if |labels| != c.totalSteps.value {
        return false;
      }
      for i := 0 to |labels|
        invariant forall q :: 0 <= q < i ==> |labels[q]| <= MAX_STEP_LABEL_LEN
      {
        if |labels[i]| > MAX_STEP_LABEL_LEN {
          return false;
        }
      }
    }
    if c.stepColors.Some? && |c.stepColors.value| != c.totalSteps.value {
      return false;
    }
    if c.stepWeights.Some? {
      var weights := c.stepWeights.value;
      if |weights| != c.totalSteps.value {
        return false;
      }
      for i := 0 to |weights|
        invariant forall q :: 0 <= q < i ==> weights[q] >= 0.0
      {
        if weights[i] < 0.0 {
          return false;
        }
      }
    }
    return true;
  }

  /** validateWindow, without the snooze bound no CI frame carries. */
  predicate WindowValid(c: Content) {
    && (c.endDate.Some? ==> c.endDate.value > 0)
    && (c.startDate.Some? ==> c.startDate.value > 0 && (c.endDate.Some? ==> c.startDate.value < c.endDate.value))
    && (c.liveProgress == Some(true) ==> c.endDate.Some?)
  }

  /** validateContent on the members a CI frame carries. The steps rules apply only
      once the activity has the steps template. */
  ghost predicate Valid(c: Content) {
    && (c.progress.Some? ==> 0.0 <= c.progress.value <= 1.0)
    && (c.state.Some? ==> |c.state.value| <= MAX_STATE_RUNES)
    && WindowValid(c)
    && (c.template == Some(TEMPLATE_STEPS) ==> StepsValid(c))
  }

  method ValidateContent(c: Content) returns (ok: bool)
    ensures ok <==> Valid(c)
  {
    if c.progress.Some? && (c.progress.value < 0.0 || c.progress.value > 1.0) {
      return false;
    }
    if c.state.Some? && |c.state.value| > MAX_STATE_RUNES {
      return false;
    }
    if !WindowValid(c) {
      return false;
    }
    if c.template == Some(TEMPLATE_STEPS) {
      ok := ValidateSteps(c);
    } else {
      ok := true;
    }
  }

  /** What the server holds after a PATCH: the merge if it validates, else what it held. */
  ghost function Patched(stored: Content, patch: Content): Content {
    if Valid(Merge(stored, patch)) then Merge(stored, patch) else stored
  }

  /** One activity on the server. */
  class Activity {
    var content: Content

    constructor ()
      ensures content == EMPTY
    {
      content := EMPTY;
    }

    /** POST /activities: an upsert that starts the content over. */
    method Create()
      modifies this
      ensures content == EMPTY
    {
      content := EMPTY;
    }

    /** PATCH /activities/{slug}: validated as merged, stored only once it validates. */
    method Patch(patch: Content) returns (accepted: bool)
      modifies this
      ensures accepted <==> Valid(Merge(old(content), patch))
      ensures content == Patched(old(content), patch)
    {
      var merged := Merge(content, patch);
      accepted := ValidateContent(merged);
      if accepted {
        content := merged;
      }
    }
  }

  // ---------- The wire clamps ----------

  function TruncateHard(s: string, maxLen: nat): (r: string)
    ensures r <= s && |r| <= maxLen && (|s| <= maxLen ==> r == s)
  {
    if |s| <= maxLen then s else s[..maxLen]
  }

  function ClampRows(rows: seq<int>): (r: seq<int>)
    ensures |r| == |rows|
    ensures forall i :: 0 <= i < |r| ==> MIN_STEP_ROWS <= r[i] <= MAX_STEP_ROWS
    ensures forall i :: 0 <= i < |r| && MIN_STEP_ROWS <= rows[i] <= MAX_STEP_ROWS ==> r[i] == rows[i]
  {
    seq(|rows|, i requires 0 <= i < |rows| => Min(Max(rows[i], MIN_STEP_ROWS), MAX_STEP_ROWS))
  }

  function ClampLabels(labels: seq<string>): (r: seq<string>)
    ensures |r| == |labels|
    ensures forall i :: 0 <= i < |r| ==> r[i] <= labels[i] && |r[i]| <= MAX_STEP_LABEL_LEN
    ensures forall i :: 0 <= i < |r| && |labels[i]| <= MAX_STEP_LABEL_LEN ==> r[i] == labels[i]
  {
    seq(|labels|, i requires 0 <= i < |labels| => TruncateHard(labels[i], MAX_STEP_LABEL_LEN))
  }

  method ClampStepShape(rows: seq<int>, labels: seq<string>) returns (outRows: seq<int>, outLabels: seq<string>)
    ensures outRows == ClampRows(rows) && outLabels == ClampLabels(labels)
    ensures forall i :: 0 <= i < |rows| ==> outRows[i] == if rows[i] < 1 then 1 else if rows[i] > 10 then 10 else rows[i]
    ensures forall i :: 0 <= i < |labels| ==> outLabels[i] == labels[i][..Min(|labels[i]|, 32)]
  {
    outRows, outLabels := [], [];
    for i := 0 to |rows|
      invariant |outRows| == i && forall q :: 0 <= q < i ==> outRows[q] == ClampRows(rows)[q]
    {
      outRows := outRows + [Min(Max(rows[i], MIN_STEP_ROWS), MAX_STEP_ROWS)];
    }
    for i := 0 to |labels|
      invariant |outLabels| == i && forall q :: 0 <= q < i ==> outLabels[q] == ClampLabels(labels)[q]
    {
      outLabels := outLabels + [TruncateHard(labels[i], MAX_STEP_LABEL_LEN)];
    }
  }
}
