/** Recency lists: a bounded cache that moves what is used to one end and drops from the
    other holds the most recently used keys, whatever was evicted on the way. */
module Recency {
  import opened Prelude

  function Without<K(==)>(s: seq<K>, k: K): seq<K> {
    if s == [] then [] else
      var before := Without(s[..|s| - 1], k);
      if s[|s| - 1] == k then before else before + [s[|s| - 1]]
  }

  function ToFront<K(==)>(s: seq<K>, k: K): seq<K> { [k] + Without(s, k) }

  function AtMost<K>(s: seq<K>, n: nat): seq<K> {
    if |s| <= n then s else s[..n]
  }

  /** The bounded list after a history of uses. */
  function Lru<K(==)>(history: seq<K>, n: nat): seq<K> {
    if history == [] then [] else
      AtMost(ToFront(Lru(history[..|history| - 1], n), history[|history| - 1]), n)
  }

  /** Every key ever used, most recent first. */
  function MostRecent<K(==)>(history: seq<K>): seq<K> {
    if history == [] then [] else ToFront(MostRecent(history[..|history| - 1]), history[|history| - 1])
  }

  lemma {:induction false} WithoutFacts<K(!new)>(s: seq<K>, k: K)
    ensures k !in Without(s, k)
    ensures forall x :: x in Without(s, k) <==> x in s && x != k
    ensures |Without(s, k)| <= |s|
    ensures k !in s ==> Without(s, k) == s
  {
    if s != [] {
      var n := |s| - 1;
      assert s == s[..n] + [s[n]];
      WithoutFacts(s[..n], k);
    }
  }

  lemma {:induction false} WithoutDistinct<K(!new)>(s: seq<K>, k: K)
    requires Distinct(s)
    ensures Distinct(Without(s, k))
  {
    if s != [] {
      var n := |s| - 1;
      WithoutDistinct(s[..n], k);
      WithoutFacts(s[..n], k);
      assert forall i :: 0 <= i < n ==> s[i] != s[n];
      assert s[n] !in s[..n];
    }
  }

  lemma {:induction false} WithoutSplit<K(!new)>(a: seq<K>, b: seq<K>, k: K)
    ensures Without(a + b, k) == Without(a, k) + Without(b, k)
  {
    if b == [] {
      assert a + b == a;
    } else {
      var n := |b| - 1;
      assert (a + b)[..|a + b| - 1] == a + b[..n];
      WithoutSplit(a, b[..n], k);
    }
  }

  /** Taking one distinct element out of the list closes the gap. */
  lemma WithoutAt<K(!new)>(s: seq<K>, i: nat)
    requires i < |s| && Distinct(s)
    ensures Without(s, s[i]) == s[..i] + s[i + 1..]
    ensures |Without(s, s[i])| == |s| - 1
  {
    var k := s[i];
    assert s == s[..i] + [k] + s[i + 1..];
    WithoutSplit(s[..i] + [k], s[i + 1..], k);
    WithoutSplit(s[..i], [k], k);
    assert Without([k], k) == [] by { assert [k][..0] == []; }
    WithoutFacts(s[..i], k);
    WithoutFacts(s[i + 1..], k);
  }

  lemma StackPropertyHit<K(!new)>(t: seq<K>, rest: seq<K>, k: K)
    requires Distinct(t + rest) && k in t
    ensures ToFront(t + rest, k) == ToFront(t, k) + rest
    ensures |ToFront(t, k)| == |t|
  {
    var s := t + rest;
    assert forall i :: 0 <= i < |t| ==> s[i] == t[i];
    assert forall i :: 0 <= i < |rest| ==> s[|t| + i] == rest[i];
    var i :| 0 <= i < |t| && t[i] == k;
    assert forall j :: 0 <= j < |rest| ==> rest[j] == s[|t| + j] != s[i];
    assert k !in rest;
    hide Without;
    WithoutAt(t, i);
    WithoutFacts(rest, k);
    WithoutSplit(t, rest, k);
  }

  lemma StackPropertyMiss<K(!new)>(t: seq<K>, rest: seq<K>, k: K)
    requires k !in t
    ensures ToFront(t + rest, k) == ToFront(t, k) + Without(rest, k)
    ensures ToFront(t, k) == [k] + t
  {
    hide Without;
    WithoutFacts(t, k);
    WithoutSplit(t, rest, k);
  }

  /** The stack property: dropping the tail early loses nothing that would have stayed. */
  lemma StackProperty<K(!new)>(s: seq<K>, k: K, n: nat)
    requires Distinct(s)
    ensures AtMost(ToFront(AtMost(s, n), k), n) == AtMost(ToFront(s, k), n)
  {
    if |s| > n {
      var t, rest := s[..n], s[n..];
      assert s == t + rest;
      hide ToFront;
      if k in t {
        StackPropertyHit(t, rest, k);
      } else {
        StackPropertyMiss(t, rest, k);
      }
    }
  }

  lemma {:induction false} MostRecentDistinct<K(!new)>(history: seq<K>)
    ensures Distinct(MostRecent(history))
    ensures forall k :: k in MostRecent(history) <==> k in history
  {
    if history != [] {
      var n := |history| - 1;
      assert history == history[..n] + [history[n]];
      MostRecentDistinct(history[..n]);
      WithoutFacts(MostRecent(history[..n]), history[n]);
      WithoutDistinct(MostRecent(history[..n]), history[n]);
    }
  }

  /** The cache holds exactly the n most recently used keys, in order of use. */
  lemma {:induction false} LruHoldsTheMostRecent<K(!new)>(history: seq<K>, n: nat)
    ensures Lru(history, n) == AtMost(MostRecent(history), n)
  {
    if history != [] {
      var before := history[..|history| - 1];
      LruHoldsTheMostRecent(before, n);
      MostRecentDistinct(before);
      StackProperty(MostRecent(before), history[|history| - 1], n);
    }
  }

  /** Where a key was last used. */
  function LastUse<K(==)>(history: seq<K>, k: K): int {
    if history == [] then -1
    else if history[|history| - 1] == k then |history| - 1
    else LastUse(history[..|history| - 1], k)
  }

  lemma {:induction false} LastUseBounds<K(!new)>(history: seq<K>, k: K)
    ensures -1 <= LastUse(history, k) < |history|
    ensures LastUse(history, k) >= 0 <==> k in history
  {
    if history != [] {
      assert history == history[..|history| - 1] + [history[|history| - 1]];
      LastUseBounds(history[..|history| - 1], k);
    }
  }

  ghost predicate ByLastUse<K>(s: seq<K>, history: seq<K>) {
    forall i, j :: 0 <= i < j < |s| ==> LastUse(history, s[i]) > LastUse(history, s[j])
  }

  lemma {:induction false} WithoutKeepsOrder<K(!new)>(s: seq<K>, k: K, history: seq<K>)
    requires ByLastUse(s, history)
    ensures ByLastUse(Without(s, k), history)
  {
    if s != [] {
      var n := |s| - 1;
      var t := s[..n];
      WithoutKeepsOrder(t, k, history);
      WithoutFacts(t, k);
      var before := Without(t, k);
      hide LastUse;
      forall i | 0 <= i < |before|
        ensures LastUse(history, before[i]) > LastUse(history, s[n])
      {
        assert before[i] in before;
        EarlierInList(s, t, before[i], history);
      }
    }
  }

  lemma EarlierInList<K(!new)>(s: seq<K>, t: seq<K>, x: K, history: seq<K>)
    requires s != [] && t == s[..|s| - 1] && x in t && ByLastUse(s, history)
    ensures LastUse(history, x) > LastUse(history, s[|s| - 1])
  {
    hide LastUse;
    var p :| 0 <= p < |t| && t[p] == x;
    assert s[p] == x;
  }

  /** Most recent first: a key further back was last used earlier. */
  lemma {:induction false} MostRecentIsByLastUse<K(!new)>(history: seq<K>)
    ensures ByLastUse(MostRecent(history), history)
  {
    if history != [] {
      var n := |history| - 1;
      var before, k := history[..n], history[n];
      MostRecentIsByLastUse(before);
      WithoutKeepsOrder(MostRecent(before), k, before);
      var rest := Without(MostRecent(before), k);
      WithoutFacts(MostRecent(before), k);
      forall i | 0 <= i < |rest|
        ensures LastUse(history, rest[i]) == LastUse(before, rest[i]) < n
      {
        assert rest[i] in rest;
        LastUseBounds(before, rest[i]);
      }
      assert LastUse(history, k) == n;
      hide LastUse, Without;
    }
  }
}
