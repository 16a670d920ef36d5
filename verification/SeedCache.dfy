/** shared/cipoll/cache.go: what finished runs leave behind for the next run of their
    workflow, bounded, the oldest accepted put going first. */
module SeedCache {
  import opened Prelude
  import opened Recency
  import opened Steps
  import opened Weights

  datatype Key = Key(repo: string, workflow: string, ref: string)

  /** weights is None where nothing was measurable. */
  datatype Seed = Seed(shape: StepInfo, weights: Option<ByName>, duration: int, runId: int, success: bool)

  datatype Match = Miss | SameRef | AnyRef

  /** order lists the keys, the oldest accepted put first. */
  datatype Cache = Cache(entries: map<Key, Seed>, order: seq<Key>)

  const EMPTY: Cache := Cache(map[], [])

  function CopyShape(s: StepInfo): StepInfo {
    StepInfo(s.totalSteps, 0, "", s.stepRows, s.stepLabels, s.stepColors, 0, false, false, 0.0)
  }

  /** The overlay: seen wins wherever it measured, prev supplies the rest. */
  function MergeWeights(seen: Option<ByName>, prev: Option<ByName>): (r: Option<ByName>)
    ensures r.None? <==> seen.None? && prev.None?
    ensures forall g :: Weight(r, g) == Weight(seen, g).Or(Weight(prev, g))
  {
    if prev.None? then seen else if seen.None? then prev else Some(prev.value + seen.value)
  }

  /** What was measured for a group, if anything. */
  function Weight(w: Option<ByName>, group: string): Option<real> {
    if w.Some? && group in w.value then Some(w.value[group]) else None
  }

  // ---------- put ----------

  predicate Accepts(c: Cache, key: Key, e: Seed) {
    && key.workflow != "" && e.shape.totalSteps > 0
    && !(key in c.entries && c.entries[key].success && !e.success)
  }

  function Stored(c: Cache, key: Key, e: Seed): Seed {
    var weights :=
      if key in c.entries && c.entries[key].shape.stepLabels == e.shape.stepLabels
      then MergeWeights(e.weights, c.entries[key].weights) else e.weights;
    e.(weights := weights, shape := CopyShape(e.shape))
  }

  /** Drops from the old end until the cache fits. */
  function Trimmed(c: Cache, capacity: nat): Cache
    decreases |c.order|
  {
    if |c.order| <= capacity then c
    else Trimmed(Cache(c.entries - {c.order[0]}, c.order[1..]), capacity)
  }

  function AfterPut(c: Cache, capacity: nat, key: Key, e: Seed): Cache {
    if !Accepts(c, key, e) then c
    else Trimmed(Cache(c.entries[key := Stored(c, key, e)], Without(c.order, key) + [key]), capacity)
  }

  /** order is a duplicate-free listing of the map's keys, within capacity. */
  ghost predicate Listing(c: Cache) {
    Distinct(c.order) && forall k :: k in c.entries <==> k in c.order
  }

  ghost predicate Inv(c: Cache, capacity: nat) {
    Listing(c) && |c.order| <= capacity
  }

  lemma ListingWithoutOldest(c: Cache)
    requires Listing(c) && c.order != []
    ensures Listing(Cache(c.entries - {c.order[0]}, c.order[1..]))
  {
    assert c.order == [c.order[0]] + c.order[1..];
    assert forall i :: 1 <= i < |c.order| ==> c.order[i] != c.order[0];
  }

  lemma {:induction false} TrimmedFacts(c: Cache, capacity: nat)
    requires Listing(c)
    ensures var t := Trimmed(c, capacity);
      && Inv(t, capacity) && t.order == LastN(c.order, capacity)
      && (forall k :: k in t.entries ==> k in c.entries && t.entries[k] == c.entries[k])
    decreases |c.order|
  {
    if |c.order| > capacity {
      ListingWithoutOldest(c);
      var next := Cache(c.entries - {c.order[0]}, c.order[1..]);
      hide Listing;
      TrimmedFacts(next, capacity);
      assert LastN(next.order, capacity) == LastN(c.order, capacity);
    }
  }

  lemma ListingWithNewest(c: Cache, key: Key, e: Seed)
    requires Listing(c)
    ensures Listing(Cache(c.entries[key := e], Without(c.order, key) + [key]))
  {
    WithoutFacts(c.order, key);
    WithoutDistinct(c.order, key);
  }

  /** What one put comes to: which keys are kept, in which order, and with what. */
  lemma PutFacts(c: Cache, capacity: nat, key: Key, e: Seed)
    requires Inv(c, capacity)
    ensures var p := AfterPut(c, capacity, key, e);
      && Inv(p, capacity)
      && (Accepts(c, key, e) ==> p.order == LastN(Without(c.order, key) + [key], capacity))
      && (forall k :: k in p.entries && k != key ==> k in c.entries && p.entries[k] == c.entries[k])
      && (Accepts(c, key, e) && key in p.entries ==> p.entries[key] == Stored(c, key, e))
  {
    if Accepts(c, key, e) {
      var wide := Cache(c.entries[key := Stored(c, key, e)], Without(c.order, key) + [key]);
      ListingWithNewest(c, key, Stored(c, key, e));
      TrimmedFacts(wide, capacity);
      hide Listing, Trimmed, Without, Stored, LastN;
    }
  }

  /** A finished run is stored, with what it brings of its own and, where the labels have not
      changed, what was measured before and is not now - unless it has no workflow or no
      groups, or it failed and its ref has a success; then nothing changes. */
  lemma WhenAPutIsStored(c: Cache, capacity: nat, key: Key, e: Seed)
    requires Inv(c, capacity) && capacity > 0
    ensures var p := AfterPut(c, capacity, key, e);
      if key.workflow != "" && e.shape.totalSteps > 0 && !(key in c.entries && c.entries[key].success && !e.success) then
        && key in p.entries && |p.order| > 0 && p.order[|p.order| - 1] == key
        && p.entries[key].runId == e.runId && p.entries[key].success == e.success && p.entries[key].duration == e.duration
        && p.entries[key].shape.stepLabels == e.shape.stepLabels && p.entries[key].shape.stepRows == e.shape.stepRows
        && p.entries[key].shape.totalSteps == e.shape.totalSteps && p.entries[key].shape.stepColors == e.shape.stepColors
        && forall g :: Weight(p.entries[key].weights, g) ==
             if Weight(e.weights, g).Some? then Weight(e.weights, g)
             else if key in c.entries && c.entries[key].shape.stepLabels == e.shape.stepLabels then Weight(c.entries[key].weights, g)
             else None
      else p == c
  {
    PutFacts(c, capacity, key, e);
    var p := AfterPut(c, capacity, key, e);
    if Accepts(c, key, e) {
      assert p.order[|p.order| - 1] == key;
    }
    hide Without, Trimmed, MergeWeights, Weight;
  }

  // ---------- get ----------

  predicate SameWorkflow(k: Key, repo: string, workflow: string) {
    k.repo == repo && k.workflow == workflow
  }

  /** Where the any-ref scan lands: the newest success, else the newest run. */
  ghost predicate NewestSuccess(c: Cache, repo: string, workflow: string, i: int) {
    && 0 <= i < |c.order| && c.order[i] in c.entries
    && SameWorkflow(c.order[i], repo, workflow) && c.entries[c.order[i]].success
    && NoSuccessAfter(c, repo, workflow, i)
  }

  ghost predicate NoSuccessAfter(c: Cache, repo: string, workflow: string, i: int) {
    forall j :: 0 <= j < |c.order| && i < j && SameWorkflow(c.order[j], repo, workflow) && c.order[j] in c.entries ==>
      !c.entries[c.order[j]].success
  }

  ghost predicate NewestRun(c: Cache, repo: string, workflow: string, i: int) {
    && 0 <= i < |c.order| && SameWorkflow(c.order[i], repo, workflow)
    && NoRunAfter(c, repo, workflow, i)
  }

  ghost predicate NoRunAfter(c: Cache, repo: string, workflow: string, i: int) {
    forall j :: 0 <= j < |c.order| && i < j ==> !SameWorkflow(c.order[j], repo, workflow)
  }

  /** The rule of a lookup: the key asked for if stored, failing that the most recent success
      of the same workflow, failing that its most recent run of any outcome. */
  ghost predicate Answer(c: Cache, key: Key, found: Option<Seed>, how: Match) {
    match how
    case SameRef => key in c.entries && found == Some(c.entries[key])
    case AnyRef =>
      && key !in c.entries
      && exists i :: 0 <= i < |c.order| && c.order[i] in c.entries && found == Some(c.entries[c.order[i]])
          && (NewestSuccess(c, key.repo, key.workflow, i)
              || (NewestRun(c, key.repo, key.workflow, i) && NoSuccessAfter(c, key.repo, key.workflow, -1)))
    case Miss => found == None && key !in c.entries && NoRunAfter(c, key.repo, key.workflow, -1)
  }

  class ShapeCache {
    var entries: map<Key, Seed>
    var order: seq<Key>
    const capacity: nat

    ghost function View(): Cache
      reads this
    {
      Cache(entries, order)
    }

    constructor (capacity: nat)
      ensures View() == EMPTY && this.capacity == capacity && Inv(View(), capacity)
    {
      entries, order, this.capacity := map[], [], capacity;
    }

    /** slices.DeleteFunc on the order. */
    method DeleteFromOrder(key: Key)
      modifies `order
      ensures order == Without(old(order), key)
    {
      var kept: seq<Key> := [];
      var i := 0;
      while i < |order|
        invariant i <= |order| && order == old(order)
        invariant kept == Without(order[..i], key)
      {
        assert order[..i + 1][..i] == order[..i];
        if order[i] != key {
          kept := kept + [order[i]];
        }
        i := i + 1;
      }
      assert order[..i] == order;
      order := kept;
    }

    method Put(key: Key, e: Seed)
      requires Inv(View(), capacity)
      modifies this
      ensures View() == AfterPut(old(View()), capacity, key, e) && Inv(View(), capacity)
    {
      ghost var was := View();
      PutFacts(was, capacity, key, e);
      WithoutFacts(order, key);
      assert key !in entries ==> key !in order;
      hide Listing, Without, MergeWeights;
      if key.workflow == "" || e.shape.totalSteps <= 0 {
        return;
      }
      var weights := e.weights;
      if key in entries {
        var prev := entries[key];
        if prev.success && !e.success {
          return;
        }
        if prev.shape.stepLabels == e.shape.stepLabels {
          weights := MergeWeights(e.weights, prev.weights);
        }
        DeleteFromOrder(key);
      }
      entries := entries[key := e.(weights := weights, shape := CopyShape(e.shape))];
      order := order + [key];
      while |order| > capacity
        invariant Trimmed(View(), capacity) == AfterPut(was, capacity, key, e)
        decreases |order|
      {
        entries := entries - {order[0]};
        order := order[1..];
      }
    }

    method Get(key: Key) returns (found: Option<Seed>, how: Match)
      requires Inv(View(), capacity)
      ensures Answer(View(), key, found, how)
    {
      if key in entries {
        return Some(entries[key]), SameRef;
      }
      found, how := None, Miss;
      ghost var at: int := -1;
      var i := |order|;
      while i > 0
        invariant i <= |order| && NoSuccessAfter(View(), key.repo, key.workflow, i - 1)
        invariant how == Miss ==> found == None && NoRunAfter(View(), key.repo, key.workflow, i - 1)
        invariant how != SameRef
        invariant how == AnyRef ==> i <= at < |order| && NewestRun(View(), key.repo, key.workflow, at)
        invariant how == AnyRef ==> order[at] in entries && found == Some(entries[order[at]])
      {
        i := i - 1;
        var k := order[i];
        if k.repo == key.repo && k.workflow == key.workflow {
          assert k in entries;
          var entry := entries[k];
          if entry.success {
            assert NewestSuccess(View(), key.repo, key.workflow, i);
            return Some(entry), AnyRef;
          }
          if how == Miss {
            found, how, at := Some(entry), AnyRef, i;
          }
        }
      }
    }
  }

  // ---------- Whole runs ----------

  datatype Put = Put(key: Key, seed: Seed)

  function From(puts: seq<Put>, capacity: nat): Cache {
    if puts == [] then EMPTY else
      var last := puts[|puts| - 1];
      AfterPut(From(puts[..|puts| - 1], capacity), capacity, last.key, last.seed)
  }

  /** The keys of the puts that were let in, in order. */
  function Accepted(puts: seq<Put>, capacity: nat): seq<Key> {
    if puts == [] then [] else
      var before, last := puts[..|puts| - 1], puts[|puts| - 1];
      if Accepts(From(before, capacity), last.key, last.seed) then Accepted(before, capacity) + [last.key]
      else Accepted(before, capacity)
  }

  function Reversed(s: seq<Key>): (r: seq<Key>)
    ensures |r| == |s| && forall i :: 0 <= i < |s| ==> r[i] == s[|s| - 1 - i]
  {
    seq(|s|, i requires 0 <= i < |s| => s[|s| - 1 - i])
  }

  lemma ReversedTail(s: seq<Key>, n: nat)
    requires n <= |s|
    ensures Reversed(s[|s| - n..]) == Reversed(s)[..n]
  {
    hide Reversed;
    var t := s[|s| - n..];
    assert forall i :: 0 <= i < n ==> Reversed(t)[i] == Reversed(s)[..n][i];
  }

  lemma ReversedWith(s: seq<Key>, k: Key)
    ensures Reversed(s + [k]) == [k] + Reversed(s)
  {
  }

  lemma {:induction false} ReversedWithout(s: seq<Key>, k: Key)
    ensures Reversed(Without(s, k)) == Without(Reversed(s), k)
  {
    hide Reversed;
    if s == [] {
      assert Without(s, k) == s && Reversed(s) == s;
    } else {
      var n := |s| - 1;
      assert s == s[..n] + [s[n]];
      ReversedWithout(s[..n], k);
      ReversedWith(s[..n], s[n]);
      ReversedWith(Without(s[..n], k), s[n]);
      WithoutSplit([s[n]], Reversed(s[..n]), k);
      WithoutOne(s[n], k);
    }
  }

  lemma WithoutOne(x: Key, k: Key)
    ensures Without([x], k) == if x == k then [] else [x]
  {
    assert [x][..0] == [];
  }

  /** One accepted put on the order, seen newest first, is one use of a recency list. */
  lemma PutIsAUse(order: seq<Key>, capacity: nat, key: Key)
    ensures Reversed(LastN(Without(order, key) + [key], capacity)) == AtMost(ToFront(Reversed(order), key), capacity)
  {
    var kept := Without(order, key);
    ReversedWithout(order, key);
    ReversedWith(kept, key);
    hide Reversed, Without;
    var wide := kept + [key];
    if |wide| > capacity {
      ReversedTail(wide, capacity);
    }
  }

  /** After any run of puts: the order is the accepted keys, most recently accepted last,
      cut to capacity - exactly a bounded recency list. */
  lemma {:induction false} OrderIsRecency(puts: seq<Put>, capacity: nat)
    ensures Inv(From(puts, capacity), capacity)
    ensures Reversed(From(puts, capacity).order) == AtMost(MostRecent(Accepted(puts, capacity)), capacity)
  {
    if puts != [] {
      var before, last := puts[..|puts| - 1], puts[|puts| - 1];
      OrderIsRecency(before, capacity);
      var c := From(before, capacity);
      PutFacts(c, capacity, last.key, last.seed);
      PutIsAUse(c.order, capacity, last.key);
      var history := Accepted(before, capacity);
      MostRecentDistinct(history);
      StackProperty(MostRecent(history), last.key, capacity);
      assert (history + [last.key])[..|history|] == history;
      hide AfterPut, Accepts, ToFront, AtMost, LastN, Without, Inv;
    }
  }

  /** From one state of a cache to a later one of the same run, a key staying in it. */
  ghost predicate StaysThrough(c: Cache, capacity: nat, puts: seq<Put>, key: Key)
    decreases |puts|
  {
    key in c.entries
    && (puts == [] || StaysThrough(AfterPut(c, capacity, puts[0].key, puts[0].seed), capacity, puts[1..], key))
  }

  function Onward(c: Cache, capacity: nat, puts: seq<Put>): Cache
    decreases |puts|
  {
    if puts == [] then c else Onward(AfterPut(c, capacity, puts[0].key, puts[0].seed), capacity, puts[1..])
  }

  /** A stored success is never replaced by a failure while its key stays in the cache. */
  lemma {:induction false} SuccessIsKept(c: Cache, capacity: nat, puts: seq<Put>, key: Key)
    requires Inv(c, capacity) && StaysThrough(c, capacity, puts, key) && c.entries[key].success
    ensures key in Onward(c, capacity, puts).entries && Onward(c, capacity, puts).entries[key].success
    decreases |puts|
  {
    if puts != [] {
      PutFacts(c, capacity, puts[0].key, puts[0].seed);
      var next := AfterPut(c, capacity, puts[0].key, puts[0].seed);
      assert next.entries[key].success by { SuccessStep(c, capacity, puts[0], key); }
      hide AfterPut;
      SuccessIsKept(next, capacity, puts[1..], key);
    }
  }

  lemma SuccessStep(c: Cache, capacity: nat, put: Put, key: Key)
    requires Inv(c, capacity) && key in c.entries && c.entries[key].success
    requires key in AfterPut(c, capacity, put.key, put.seed).entries
    ensures AfterPut(c, capacity, put.key, put.seed).entries[key].success
  {
    PutFacts(c, capacity, put.key, put.seed);
    hide Trimmed, Inv;
  }

  ghost predicate LabelsStay(c: Cache, capacity: nat, puts: seq<Put>, key: Key, labels: seq<string>)
    decreases |puts|
  {
    && key in c.entries && c.entries[key].shape.stepLabels == labels
    && (puts == [] || LabelsStay(AfterPut(c, capacity, puts[0].key, puts[0].seed), capacity, puts[1..], key, labels))
  }

  /** A group once measured stays measured while its key stays and its labels are equal. */
  lemma {:induction false} MeasurementIsKept(c: Cache, capacity: nat, puts: seq<Put>, key: Key, labels: seq<string>, group: string)
    requires Inv(c, capacity) && LabelsStay(c, capacity, puts, key, labels)
    requires Weight(c.entries[key].weights, group).Some?
    ensures key in Onward(c, capacity, puts).entries
    ensures Weight(Onward(c, capacity, puts).entries[key].weights, group).Some?
    decreases |puts|
  {
    if puts != [] {
      PutFacts(c, capacity, puts[0].key, puts[0].seed);
      var next := AfterPut(c, capacity, puts[0].key, puts[0].seed);
      MeasurementStep(c, capacity, puts[0], key, group);
      hide AfterPut;
      MeasurementIsKept(next, capacity, puts[1..], key, labels, group);
    }
  }

  lemma MeasurementStep(c: Cache, capacity: nat, put: Put, key: Key, group: string)
    requires Inv(c, capacity) && key in c.entries && Weight(c.entries[key].weights, group).Some?
    requires key in AfterPut(c, capacity, put.key, put.seed).entries
    requires AfterPut(c, capacity, put.key, put.seed).entries[key].shape.stepLabels == c.entries[key].shape.stepLabels
    ensures Weight(AfterPut(c, capacity, put.key, put.seed).entries[key].weights, group).Some?
  {
    PutFacts(c, capacity, put.key, put.seed);
    hide Trimmed, Inv;
  }

  /** A run just stored answers the next run of its workflow on its ref, with what it
      measured on top of what the same labels measured before. */
  lemma PutThenGet(c: Cache, capacity: nat, key: Key, e: Seed, found: Option<Seed>, how: Match)
    requires Inv(c, capacity) && capacity > 0 && Accepts(c, key, e)
    requires Answer(AfterPut(c, capacity, key, e), key, found, how)
    ensures how == SameRef && found == Some(Stored(c, key, e))
    ensures found.value.success == e.success && found.value.shape == CopyShape(e.shape)
    ensures forall g :: Weight(e.weights, g).Some? ==> Weight(found.value.weights, g) == Weight(e.weights, g)
  {
    PutFacts(c, capacity, key, e);
    var p := AfterPut(c, capacity, key, e);
    assert p.order[|p.order| - 1] == key;
    hide Trimmed;
  }

  /** A lookup has one answer, and it is never a failure while the ref has no run of its
      own and the workflow has a success in the cache. */
  lemma OneAnswer(c: Cache, key: Key, found: Option<Seed>, how: Match, found': Option<Seed>, how': Match)
    requires Listing(c) && Answer(c, key, found, how) && Answer(c, key, found', how')
    ensures found == found' && how == how'
  {
    assert forall i :: 0 <= i < |c.order| ==> c.order[i] in c.entries;
  }

  lemma SuccessWins(c: Cache, key: Key, other: Key, found: Option<Seed>, how: Match)
    requires Listing(c) && Answer(c, key, found, how)
    requires key !in c.entries && SameWorkflow(other, key.repo, key.workflow)
    requires other in c.entries && c.entries[other].success
    ensures how == AnyRef && found.value.success
  {
    var i :| 0 <= i < |c.order| && c.order[i] == other;
  }

  // ---------- The newest answers ----------

  /** key is the last of its workflow in the order. */
  ghost predicate LastOf(order: seq<Key>, key: Key) {
    order != [] &&
      (order[|order| - 1] == key
       || (!SameWorkflow(order[|order| - 1], key.repo, key.workflow) && LastOf(order[..|order| - 1], key)))
  }

  lemma JustStoredIsLast(c: Cache, capacity: nat, key: Key, e: Seed)
    requires Inv(c, capacity) && capacity > 0 && Accepts(c, key, e)
    ensures LastOf(AfterPut(c, capacity, key, e).order, key)
  {
    WhenAPutIsStored(c, capacity, key, e);
    hide AfterPut, Inv;
  }

  lemma {:induction false} LastWithout(order: seq<Key>, out: Key, key: Key)
    requires LastOf(order, key) && !SameWorkflow(out, key.repo, key.workflow)
    ensures LastOf(Without(order, out), key)
  {
    if order[|order| - 1] != key {
      LastWithout(order[..|order| - 1], out, key);
    }
  }

  lemma {:induction false} LastInTail(order: seq<Key>, d: nat, key: Key)
    requires LastOf(order, key) && d <= |order| && key in order[d..]
    ensures LastOf(order[d..], key)
  {
    var n := |order| - 1;
    var tail := order[d..];
    if order[n] != key {
      assert tail[..|tail| - 1] == order[..n][d..];
      LastInTail(order[..n], d, key);
    }
  }

  /** Puts of other workflows leave it the last of its own. */
  lemma OthersKeepItLast(c: Cache, capacity: nat, key: Key, put: Put)
    requires Inv(c, capacity) && LastOf(c.order, key) && !SameWorkflow(put.key, key.repo, key.workflow)
    requires key in AfterPut(c, capacity, put.key, put.seed).entries
    ensures LastOf(AfterPut(c, capacity, put.key, put.seed).order, key)
  {
    hide AfterPut, Accepts, Without, Stored, LastOf, LastN;
    PutFacts(c, capacity, put.key, put.seed);
    if Accepts(c, put.key, put.seed) {
      LastWithout(c.order, put.key, key);
      var kept := Without(c.order, put.key);
      OneMoreKeepsLast(kept, put.key, key);
      LastNIsATail(kept + [put.key], capacity);
      LastInTail(kept + [put.key], |kept| + 1 - |LastN(kept + [put.key], capacity)|, key);
    } else {
      RefusedChangesNothing(c, capacity, put.key, put.seed);
    }
  }

  lemma OneMoreKeepsLast(order: seq<Key>, more: Key, key: Key)
    requires LastOf(order, key) && !SameWorkflow(more, key.repo, key.workflow)
    ensures LastOf(order + [more], key)
  {
    assert (order + [more])[..|order|] == order;
  }

  lemma LastNIsATail(s: seq<Key>, n: nat)
    ensures LastN(s, n) == s[|s| - |LastN(s, n)|..]
  {
  }

  lemma RefusedChangesNothing(c: Cache, capacity: nat, key: Key, e: Seed)
    requires !Accepts(c, key, e)
    ensures AfterPut(c, capacity, key, e) == c
  {
  }

  lemma {:induction false} StillTheLast(c: Cache, capacity: nat, others: seq<Put>, key: Key)
    requires Inv(c, capacity) && LastOf(c.order, key) && StaysThrough(c, capacity, others, key)
    requires forall put :: put in others ==> !SameWorkflow(put.key, key.repo, key.workflow)
    ensures LastOf(Onward(c, capacity, others).order, key) && Inv(Onward(c, capacity, others), capacity)
    ensures key in Onward(c, capacity, others).entries && Onward(c, capacity, others).entries[key] == c.entries[key]
    decreases |others|
  {
    if others != [] {
      var put := others[0];
      assert put in others;
      PutFacts(c, capacity, put.key, put.seed);
      OthersKeepItLast(c, capacity, key, put);
      StillTheLast(AfterPut(c, capacity, put.key, put.seed), capacity, others[1..], key);
    }
  }

  /** On a ref without a run of its own, the workflow's run stored last answers, if it is a
      success or the workflow has none in the cache - whatever other workflows put meanwhile,
      while it stays in the cache. */
  lemma TheNewestRunAnswers(c: Cache, capacity: nat, key: Key, e: Seed, others: seq<Put>, asked: Key, found: Option<Seed>, how: Match)
    requires Inv(c, capacity) && capacity > 0 && Accepts(c, key, e)
    requires var p := AfterPut(c, capacity, key, e); StaysThrough(p, capacity, others, key)
    requires forall put :: put in others ==> !SameWorkflow(put.key, key.repo, key.workflow)
    requires var now := Onward(AfterPut(c, capacity, key, e), capacity, others);
      && SameWorkflow(asked, key.repo, key.workflow) && asked !in now.entries && Answer(now, asked, found, how)
      && (e.success || forall k :: k in now.entries && SameWorkflow(k, key.repo, key.workflow) ==> !now.entries[k].success)
    ensures how == AnyRef && found.Some? && found.value.runId == e.runId && found.value.success == e.success
  {
    JustStoredIsLast(c, capacity, key, e);
    PutFacts(c, capacity, key, e);
    WhenAPutIsStored(c, capacity, key, e);
    StillTheLast(AfterPut(c, capacity, key, e), capacity, others, key);
    var now := Onward(AfterPut(c, capacity, key, e), capacity, others);
    hide Onward, AfterPut, Accepts, StaysThrough;
    AnswersLast(now, key, asked, found, how);
  }

  lemma AnswersLast(now: Cache, key: Key, asked: Key, found: Option<Seed>, how: Match)
    requires Listing(now) && LastOf(now.order, key) && key in now.entries
    requires SameWorkflow(asked, key.repo, key.workflow) && asked !in now.entries && Answer(now, asked, found, how)
    requires now.entries[key].success ||
      forall k :: k in now.entries && SameWorkflow(k, key.repo, key.workflow) ==> !now.entries[k].success
    ensures how == AnyRef && found == Some(now.entries[key])
  {
    var i := LastAt(now.order, key);
    assert NoRunAfter(now, key.repo, key.workflow, i);
    assert SameWorkflow(key, key.repo, key.workflow);
  }

  lemma {:induction false} LastAt(order: seq<Key>, key: Key) returns (i: nat)
    requires LastOf(order, key)
    ensures i < |order| && order[i] == key
    ensures forall j :: i < j < |order| ==> !SameWorkflow(order[j], key.repo, key.workflow)
  {
    i := |order| - 1;
    if order[i] != key {
      i := LastAt(order[..i], key);
    }
  }

  /** What answers is always a run of the workflow asked for, in the repo asked for; a lookup
      misses exactly when the cache has none. */
  lemma AnswersAreOfTheWorkflow(c: Cache, key: Key, found: Option<Seed>, how: Match)
    requires Listing(c) && Answer(c, key, found, how)
    ensures how == Miss <==> found == None
    ensures how == Miss <==> forall k :: k in c.entries ==> k.repo != key.repo || k.workflow != key.workflow
    ensures found.Some? ==> exists k :: k in c.entries && k.repo == key.repo && k.workflow == key.workflow && c.entries[k] == found.value
  {
    if how == Miss {
      forall k | k in c.entries
        ensures k.repo != key.repo || k.workflow != key.workflow
      {
        var i :| 0 <= i < |c.order| && c.order[i] == k;
      }
    }
  }
}
