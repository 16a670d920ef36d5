/** shared/ci/steps.go: the group a job name belongs to. */
module JobNames {
  import opened Prelude

  predicate OccursAt(s: string, pat: string, i: nat) {
    i + |pat| <= |s| && forall k :: 0 <= k < |pat| ==> s[i + k] == pat[k]
  }

  /** strings.Index, searching from i. */
  function IndexFrom(s: string, pat: string, i: nat): (r: Option<nat>)
    requires i <= |s|
    ensures r.None? ==> forall k: nat :: i <= k ==> !OccursAt(s, pat, k) || |pat| == 0
    ensures r.Some? ==> i <= r.value && OccursAt(s, pat, r.value) && forall k: nat :: i <= k < r.value ==> !OccursAt(s, pat, k)
    decreases |s| - i
  {
    if OccursAt(s, pat, i) then Some(i) else if i == |s| then None else IndexFrom(s, pat, i + 1)
  }

  /** strings.LastIndex, searching down from n. */
  function LastIndexUpTo(s: string, pat: string, n: nat): (r: Option<nat>)
    ensures r.None? ==> forall k: nat :: k <= n ==> !OccursAt(s, pat, k)
    ensures r.Some? ==> r.value <= n && OccursAt(s, pat, r.value) && forall k: nat :: r.value < k <= n ==> !OccursAt(s, pat, k)
  {
    if OccursAt(s, pat, n) then Some(n) else if n == 0 then None else LastIndexUpTo(s, pat, n - 1)
  }

  /** The group a job belongs to: its name without the caller's prefix and the shard's parameters. */
  function BaseJobName(name: string): string {
    var own := match IndexFrom(name, " / ", 0) case Some(i) => name[i + 3..] case None => name;
    match LastIndexUpTo(own, " (", |own|)
    case Some(i) => if own[|own| - 1] == ')' then own[..i] else own
    case None => own
  }

  lemma CallerPrefixStripped(caller: string, own: string)
    requires IndexFrom(caller + " / ", " / ", 0) == Some(|caller|)
    ensures IndexFrom(caller + " / " + own, " / ", 0) == Some(|caller|)
  {
    var head, name := caller + " / ", caller + " / " + own;
    assert OccursAt(name, " / ", |caller|);
    forall k: nat | k < |caller|
      ensures !OccursAt(name, " / ", k)
    {
      assert !OccursAt(head, " / ", k);
      assert name[k] == head[k] && name[k + 1] == head[k + 1] && name[k + 2] == head[k + 2];
      assert |" / "| == 3;
    }
  }

  lemma ParamsStripped(base: string, params: string)
    requires IndexFrom(params, " (", 0).None?
    ensures var own := base + " (" + params + ")"; LastIndexUpTo(own, " (", |own|) == Some(|base|)
  {
    var own := base + " (" + params + ")";
    assert OccursAt(own, " (", |base|);
    forall k: nat | |base| < k <= |own|
      ensures !OccursAt(own, " (", k)
    {
      var p := k - |base| - 2;
      assert own[|base| + 1] == '(' && own[|own| - 1] == ')' && " ("[0] == ' ' && " ("[1] == '(';
      if 0 <= p && k + 2 < |own| {
        assert !OccursAt(params, " (", p);
        assert own[k] == params[p] && own[k + 1] == params[p + 1];
      }
    }
  }

  /** Every shard of a matrix called through a reusable workflow folds into one group,
      whatever its parameters, and the group keeps its full name. */
  lemma MatrixShardsShareAGroup(caller: string, base: string, params: string)
    requires IndexFrom(caller + " / ", " / ", 0) == Some(|caller|)
    requires IndexFrom(params, " (", 0).None?
    ensures BaseJobName(caller + " / " + (base + " (" + params + ")")) == base
  {
    hide IndexFrom, LastIndexUpTo, OccursAt;
    var own := base + " (" + params + ")";
    var name := caller + " / " + own;
    CallerPrefixStripped(caller, own);
    ParamsStripped(base, params);
    assert name[|caller| + 3..] == own;
    assert own[..|base|] == base;
  }

  /** A name without a caller and without parameters is its own group; and a caller's name does
      not make it another. */
  lemma PlainNamesAreGroups(caller: string, name: string)
    requires IndexFrom(name, " / ", 0).None? && (LastIndexUpTo(name, " (", |name|).None? || name[|name| - 1] != ')')
    ensures BaseJobName(name) == name
    ensures IndexFrom(caller + " / ", " / ", 0) == Some(|caller|) ==> BaseJobName(caller + " / " + name) == name
  {
    hide IndexFrom, LastIndexUpTo, OccursAt;
    if IndexFrom(caller + " / ", " / ", 0) == Some(|caller|) {
      CallerPrefixStripped(caller, name);
      assert (caller + " / " + name)[|caller| + 3..] == name;
    }
  }
}
