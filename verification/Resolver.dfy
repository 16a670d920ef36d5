/** shared/poster/poster.go: the artwork cache. An intrusive doubly linked list threaded
    through the entries of a map, and single-flight fills that outlive an eviction. */
module Resolver {
  import opened Prelude
  import opened Clock
  import opened Recency

  const CACHE_SIZE: nat := 512
  const NEGATIVE_TTL: nat := 15 * 60 * SECOND

  /** How a fill settled. Only Ok comes with a hash. */
  datatype Outcome = Ok | Refused | Timeout | Error

  /** One URL's slot. done names the channel of the fill it waits for. */
  class Entry {
    const key: string
    var done: nat
    var pending: bool
    var hash: string
    var expires: Time
    var prev: Entry?
    var next: Entry?
    /** How its last fill came out, and when. */
    ghost var outcome: Outcome
    ghost var settledAt: Time

    constructor (key: string, done: nat)
      ensures this.key == key && this.done == done && pending && hash == "" && expires == 0
      ensures prev == null && next == null
    {
      this.key, this.done, pending, hash, expires, prev, next := key, done, true, "", 0, null, null;
      outcome, settledAt := Error, 0;
    }
  }

  /** The neighbours of list[i]. */
  ghost function After(list: seq<Entry>, i: nat): Entry? {
    if i + 1 < |list| then list[i + 1] else null
  }

  ghost function Before(list: seq<Entry>, i: nat): Entry? {
    if 0 < i <= |list| then list[i - 1] else null
  }

  /** list is threaded from head to tail through next, and back through prev. */
  ghost predicate Linked(list: seq<Entry>, head: Entry?, tail: Entry?)
    reads list`prev, list`next
  {
    && Distinct(list)
    && head == (if |list| == 0 then null else list[0])
    && tail == Before(list, |list|)
    && (forall i :: 0 <= i < |list| ==> list[i].prev == Before(list, i))
    && (forall i :: 0 <= i < |list| ==> list[i].next == After(list, i))
  }

  lemma DistinctAt(s: seq<Entry>, i: nat)
    requires Distinct(s) && i < |s|
    ensures forall j :: 0 <= j < |s| && j != i ==> s[j] != s[i]
  {
  }

  lemma DistinctWithout(s: seq<Entry>, i: nat)
    requires Distinct(s) && i < |s|
    ensures Distinct(s[..i] + s[i + 1..])
  {
  }

  lemma DistinctWith(s: seq<Entry>, e: Entry)
    requires Distinct(s) && e !in s
    ensures Distinct([e] + s)
  {
  }

  /** The list after e is put in front, link by link. */
  lemma LinkedInFront(was: seq<Entry>, e: Entry, head: Entry?, tail: Entry?)
    requires Distinct(was) && e !in was
    requires head == (if |was| == 0 then null else was[0]) && tail == Before(was, |was|)
    requires e.prev == null && e.next == head
    requires forall i :: 0 <= i < |was| ==> was[i].prev == if i == 0 then e else Before(was, i)
    requires forall i :: 0 <= i < |was| ==> was[i].next == After(was, i)
    ensures Linked([e] + was, e, if tail == null then e else tail)
  {
    hide Distinct;
    DistinctWith(was, e);
    var list := [e] + was;
    forall i | 0 <= i < |list|
      ensures list[i].next == After(list, i)
    {
      if i > 0 { assert was[i - 1].next == After(was, i - 1); }
    }
    forall i | 0 <= i < |list|
      ensures list[i].prev == Before(list, i)
    {
      if i > 1 { assert was[i - 1].prev == Before(was, i - 1); }
    }
  }

  lemma NextWithout(was: seq<Entry>, i: nat)
    requires i < |was|
    requires forall j :: 0 <= j < |was| && j != i ==> was[j].next == if j + 1 == i then After(was, i) else After(was, j)
    ensures var list := was[..i] + was[i + 1..]; forall j :: 0 <= j < |list| ==> list[j].next == After(list, j)
  {
    var list := was[..i] + was[i + 1..];
    forall j | 0 <= j < |list|
      ensures list[j].next == After(list, j)
    {
      assert list[j] == was[if j < i then j else j + 1];
    }
  }

  lemma PrevWithout(was: seq<Entry>, i: nat)
    requires i < |was|
    requires forall j :: 0 <= j < |was| && j != i ==> was[j].prev == if j == i + 1 then Before(was, i) else Before(was, j)
    ensures var list := was[..i] + was[i + 1..]; forall j :: 0 <= j < |list| ==> list[j].prev == Before(list, j)
  {
    var list := was[..i] + was[i + 1..];
    forall j | 0 <= j < |list|
      ensures list[j].prev == Before(list, j)
    {
      assert list[j] == was[if j < i then j else j + 1];
    }
  }

  /** The list after was[i] is spliced out, link by link. */
  lemma LinkedWithout(was: seq<Entry>, i: nat, head: Entry?, tail: Entry?)
    requires Distinct(was) && i < |was|
    requires head == was[0] && tail == Before(was, |was|)
    requires forall j :: 0 <= j < |was| && j != i ==> was[j].next == if j + 1 == i then After(was, i) else After(was, j)
    requires forall j :: 0 <= j < |was| && j != i ==> was[j].prev == if j == i + 1 then Before(was, i) else Before(was, j)
    ensures Linked(was[..i] + was[i + 1..], if i == 0 then After(was, 0) else head, if i + 1 == |was| then Before(was, i) else tail)
  {
    hide Distinct;
    DistinctWithout(was, i);
    NextWithout(was, i);
    PrevWithout(was, i);
    var list := was[..i] + was[i + 1..];
    assert |list| > 0 ==> list[0] == was[if i == 0 then 1 else 0];
    assert |list| > 0 ==> list[|list| - 1] == was[if i + 1 == |was| then i - 1 else |was| - 1];
  }

  // ---------- The map beside the list ----------

  function KeysOf(list: seq<Entry>): (r: seq<string>)
    ensures |r| == |list| && forall i :: 0 <= i < |list| ==> r[i] == list[i].key
  {
    seq(|list|, i requires 0 <= i < |list| => list[i].key)
  }

  /** The map files exactly the list's entries, each under its own key. */
  ghost predicate Filed(entries: map<string, Entry>, list: seq<Entry>) {
    && |entries| == |list|
    && (forall e :: e in list ==> e.key in entries && entries[e.key] == e)
    && (forall k :: k in entries ==> entries[k] in list && entries[k].key == k)
  }

  lemma KeysDistinct(entries: map<string, Entry>, list: seq<Entry>)
    requires Filed(entries, list) && Distinct(list)
    ensures Distinct(KeysOf(list))
  {
    forall i, j | 0 <= i < j < |list|
      ensures KeysOf(list)[i] != KeysOf(list)[j]
    {
      assert list[i] in list && list[j] in list;
    }
  }

  /** Filing one more entry under a key not in use. */
  lemma FiledWith(entries: map<string, Entry>, list: seq<Entry>, e: Entry)
    requires Filed(entries, list) && e.key !in entries
    ensures Filed(entries[e.key := e], [e] + list) && e !in list
  {
  }

  lemma OthersKeepTheirPlace(entries: map<string, Entry>, list: seq<Entry>, k: string)
    requires Filed(entries, list) && |list| > 0 && k in entries && k != list[|list| - 1].key
    ensures entries[k] in list[..|list| - 1]
  {
    var n := |list| - 1;
    assert list == list[..n] + [list[n]];
  }

  /** Dropping the last entry from both. */
  lemma FiledWithoutLast(entries: map<string, Entry>, list: seq<Entry>)
    requires Filed(entries, list) && |list| > 0 && Distinct(list)
    ensures var n := |list| - 1; Filed(entries - {list[n].key}, list[..n])
  {
    var n := |list| - 1;
    var victim := list[n];
    assert victim in list;
    assert |entries - {victim.key}| == |entries| - 1;
    forall k | k in entries - {victim.key}
      ensures entries[k] in list[..n]
    {
      OthersKeepTheirPlace(entries, list, k);
    }
    forall e | e in list[..n]
      ensures e.key in entries && e.key != victim.key && entries[e.key] == e
    {
      assert e in list;
      assert forall i :: 0 <= i < n ==> list[i] != victim;
    }
  }

  /** Moving an entry within the list leaves the filing alone. */
  lemma FiledMoved(entries: map<string, Entry>, list: seq<Entry>, i: nat)
    requires Filed(entries, list) && i < |list|
    ensures Filed(entries, [list[i]] + (list[..i] + list[i + 1..]))
  {
    var moved := [list[i]] + (list[..i] + list[i + 1..]);
    assert list == list[..i] + [list[i]] + list[i + 1..];
    assert forall e :: e in moved <==> e in list;
  }

  lemma KeysMoved(entries: map<string, Entry>, list: seq<Entry>, i: nat)
    requires Filed(entries, list) && Distinct(list) && i < |list|
    ensures KeysOf([list[i]] + (list[..i] + list[i + 1..])) == ToFront(KeysOf(list), list[i].key)
  {
    KeysDistinct(entries, list);
    hide Filed, Distinct;
    var keys := KeysOf(list);
    WithoutAt(keys, i);
    hide Without;
    KeysOfMoved(list, i);
  }

  lemma KeysOfMoved(list: seq<Entry>, i: nat)
    requires i < |list|
    ensures var keys := KeysOf(list);
      KeysOf([list[i]] + (list[..i] + list[i + 1..])) == [keys[i]] + (keys[..i] + keys[i + 1..])
  {
    var moved, keys := [list[i]] + (list[..i] + list[i + 1..]), KeysOf(list);
    var want := [keys[i]] + (keys[..i] + keys[i + 1..]);
    forall k | 0 <= k < |moved|
      ensures KeysOf(moved)[k] == want[k]
    {
    }
    hide KeysOf;
    assert KeysOf(moved) == want;
  }

  lemma KeysAdded(entries: map<string, Entry>, list: seq<Entry>, e: Entry)
    requires Filed(entries, list) && e.key !in entries
    ensures KeysOf([e] + list) == ToFront(KeysOf(list), e.key)
  {
    assert forall i :: 0 <= i < |list| ==> list[i] in list;
    assert e.key !in KeysOf(list);
    WithoutFacts(KeysOf(list), e.key);
    assert KeysOf([e] + list) == [e.key] + KeysOf(list);
  }

  ghost predicate AllIn(es: seq<Entry>, all: set<Entry>) {
    forall e :: e in es ==> e in all
  }

  lemma AllInFront(es: seq<Entry>, all: set<Entry>, e: Entry)
    requires AllIn(es, all) && e in all
    ensures AllIn([e] + es, all)
  {
  }

  lemma AllInPrefix(es: seq<Entry>, all: set<Entry>, n: nat)
    requires AllIn(es, all) && n <= |es|
    ensures AllIn(es[..n], all)
  {
  }

  // ---------- Fills ----------

  /** What a settled entry holds, by how its fill came out, and when. */
  ghost predicate Settled(e: Entry, clock: Time)
    reads e`outcome, e`settledAt, e`hash, e`expires
  {
    && 0 < e.settledAt <= clock
    && match e.outcome
       case Ok => e.hash != "" && IsZero(e.expires)
       case Timeout => e.hash == "" && e.expires == e.settledAt
       case _ => e.hash == "" && e.expires == e.settledAt + NEGATIVE_TTL
  }

  lemma SettledNow(e: Entry, now: Time)
    requires 0 < now == e.settledAt && (e.hash != "" <==> e.outcome == Ok)
    requires e.expires == if e.outcome == Ok then 0 else if e.outcome == Timeout then now else now + NEGATIVE_TTL
    ensures Settled(e, now)
  {
  }

  /** What splicing out was[i] relies on. */
  lemma Neighbours(was: seq<Entry>, head: Entry?, tail: Entry?, i: nat)
    requires Linked(was, head, tail) && i < |was|
    ensures was[i].prev == Before(was, i) && was[i].next == After(was, i)
    ensures forall j :: 0 <= j < |was| && j != i ==> was[j] != was[i]
    ensures i > 0 ==> forall j :: 0 <= j < |was| && j != i - 1 ==> was[j] != was[i - 1]
    ensures i + 1 < |was| ==> forall j :: 0 <= j < |was| && j != i + 1 ==> was[j] != was[i + 1]
  {
  }

  class Resolver {
    var head: Entry?
    var tail: Entry?
    var entries: map<string, Entry>
    var nextDone: nat
    ghost var list: seq<Entry>
    /** Every entry ever made, evicted ones included. */
    ghost var all: set<Entry>
    /** The fill goroutines still to settle, by the channel they close. */
    ghost var running: map<nat, Entry>
    /** Channels whose fill has settled but not closed them yet, and channels closed. */
    ghost var closing: set<nat>
    ghost var closed: set<nat>
    ghost var clock: Time

    ghost predicate Listed()
      reads `head, `tail, `list, `entries, list`prev, list`next
    {
      Linked(list, head, tail) && Filed(entries, list)
    }

    /** An entry is pending exactly while one fill runs for it. */
    ghost predicate Owned()
      reads `running, `nextDone, `all, all`pending, all`done
    {
      && (forall c :: c in running ==> c < nextDone && running[c] in all && running[c].pending && running[c].done == c)
      && (forall e :: e in all && e.pending ==> e.done in running && running[e.done] == e)
    }

    ghost predicate AllSettled()
      reads `clock, `all, all`pending, all`hash, all`expires, all`outcome, all`settledAt
    {
      forall e :: e in all && !e.pending ==> Settled(e, clock)
    }

    /** Every channel is running, about to close, or closed - never two of these. */
    ghost predicate ChannelsApart()
      reads `running, `closing, `closed, `nextDone
    {
      && (forall c :: c in closing ==> c < nextDone && c !in running)
      && (forall c :: c in closed ==> c < nextDone && c !in running && c !in closing)
    }

    ghost predicate SingleFlight()
      reads `running, `closing, `closed, `nextDone, `clock, `all
      reads all`pending, all`done, all`hash, all`expires, all`outcome, all`settledAt
    {
      Owned() && AllSettled() && ChannelsApart()
    }

    ghost predicate Valid()
      reads this, list, all
    {
      && Listed() && SingleFlight()
      && AllIn(list, all)
      && |list| <= CACHE_SIZE
    }

    constructor ()
      ensures Valid() && list == [] && all == {} && running == map[] && closed == {} && closing == {} && clock == 0
    {
      head, tail, entries, nextDone := null, null, map[], 0;
      list, all, running, closing, closed, clock := [], {}, map[], {}, {}, 0;
    }

    method PushFront(e: Entry)
      requires Linked(list, head, tail) && AllIn(list, all) && e !in list && e in all
      modifies `head, `tail, `list, all`prev, all`next
      ensures Linked(list, head, tail) && list == [e] + old(list)
    {
      hide Distinct;
      ghost var was, h, t := list, head, tail;
      assert forall i :: 0 <= i < |was| ==> was[i] != e;
      if |was| > 0 { DistinctAt(was, 0); }
      e.prev := null;
      e.next := head;
      if head != null {
        head.prev := e;
      }
      head := e;
      if tail == null {
        tail := e;
      }
      list := [e] + list;
      LinkedInFront(was, e, h, t);
    }

    method Unlink(e: Entry, ghost i: nat)
      requires Linked(list, head, tail) && AllIn(list, all) && i < |list| && list[i] == e
      modifies `head, `tail, `list, all`prev, all`next
      ensures Linked(list, head, tail) && list == old(list)[..i] + old(list)[i + 1..]
      ensures e.prev == null && e.next == null
    {
      hide Distinct;
      ghost var was, h, t := list, head, tail;
      Neighbours(was, h, t, i);
      if e.prev != null {
        e.prev.next := e.next;
      } else if head == e {
        head := e.next;
      }
      if e.next != null {
        e.next.prev := e.prev;
      } else if tail == e {
        tail := e.prev;
      }
      e.prev, e.next := null, null;
      list := list[..i] + list[i + 1..];
      LinkedWithout(was, i, h, t);
    }

    method MoveToFront(e: Entry, ghost i: nat)
      requires Linked(list, head, tail) && AllIn(list, all) && i < |list| && list[i] == e
      modifies `head, `tail, `list, all`prev, all`next
      ensures Linked(list, head, tail) && list == [e] + (old(list)[..i] + old(list)[i + 1..])
    {
      LinkedDistinct(list, head, tail);
      SplicedOut(list, i);
      if head == e {
        HeadIsFirst(list, head, tail, i);
        return;
      }
      hide Linked, Filed, Distinct;
      Unlink(e, i);
      PushFront(e);
    }

    /** Drops the tail entry from the list and the map. */
    method EvictTail(victim: Entry)
      requires Listed() && AllIn(list, all) && |list| > 0 && victim == tail
      modifies `head, `tail, `list, `entries, all`prev, all`next
      ensures Listed() && AllIn(list, all) && list == old(list)[..|old(list)| - 1]
    {
      hide Linked, Filed, AllIn, Distinct;
      TailIsLast(entries, list, head, tail, all);
      Unlink(victim, |list| - 1);
      entries := entries - {victim.key};
    }

    method Evict()
      requires Listed() && AllIn(list, all)
      modifies `head, `tail, `list, `entries, all`prev, all`next
      ensures Listed() && AllIn(list, all) && list == AtMost(old(list), CACHE_SIZE) && |list| <= CACHE_SIZE
    {
      hide Linked, Filed, AllIn;
      ghost var was := list;
      while |entries| > CACHE_SIZE && tail != null
        invariant Listed() && AllIn(list, all)
        invariant |list| <= |was| && list == was[..|list|]
        invariant |list| >= CACHE_SIZE || list == was
        decreases |list|
      {
        ListSize(entries, list, head, tail);
        EvictTail(tail);
      }
      ListSize(entries, list, head, tail);
    }

    ghost function Keys(): seq<string>
      reads this
    {
      KeysOf(list)
    }

    /** Launches the fetch for e; the goroutine will close the channel e.done names. */
    ghost method StartFill(e: Entry)
      requires e.done !in running
      modifies `running
      ensures running == old(running)[e.done := e]
    {
      running := running[e.done := e];
    }

    /** An aged-out negative entry is filled again in place. */
    method Refill(e: Entry, now: Time)
      requires SingleFlight() && e in all && !e.pending && clock <= now
      modifies `nextDone, `running, `clock, e`pending, e`hash, e`done
      ensures SingleFlight() && clock == now
      ensures e.pending && e.hash == "" && e.done == old(nextDone)
      ensures running == old(running)[e.done := e]
    {
      clock := now;
      e.pending := true;
      e.hash := "";
      e.done := nextDone;
      nextDone := nextDone + 1;
      StartFill(e);
    }

    /** Files a fresh entry at the front, and drops from the back while over capacity. */
    method Insert(e: Entry)
      requires Listed() && AllIn(list, all) && e in all && e.key !in entries
      modifies `head, `tail, `list, `entries, all`prev, all`next
      ensures Listed() && AllIn(list, all) && list == AtMost([e] + old(list), CACHE_SIZE)
      ensures |list| <= CACHE_SIZE
    {
      hide Linked, Filed, Distinct, AllIn, AtMost, SingleFlight;
      FiledWith(entries, list, e);
      AllInFront(list, all, e);
      entries := entries[e.key := e];
      PushFront(e);
      Evict();
    }

    /** A new entry starts pending, with a fill of its own. */
    method NewEntry(key: string, now: Time) returns (e: Entry)
      requires SingleFlight() && clock <= now
      modifies `nextDone, `running, `all, `clock
      ensures SingleFlight() && clock == now
      ensures fresh(e) && e.pending && e.hash == "" && e.key == key && e.done == old(nextDone) && all == old(all) + {e}
      ensures running == old(running)[e.done := e]
    {
      clock := now;
      e := new Entry(key, nextDone);
      nextDone := nextDone + 1;
      all := all + {e};
      StartFill(e);
    }

    /** A key not in the cache gets a fresh entry at the front, and a fill. */
    method Miss(key: string, now: Time) returns (e: Entry)
      requires Valid() && key !in entries && clock <= now
      modifies this, all`prev, all`next
      ensures Valid() && clock == now
      ensures fresh(e) && e.pending && e.hash == "" && e.key == key && e.done == old(nextDone) && all == old(all) + {e}
      ensures running == old(running)[e.done := e] && closing == old(closing) && closed == old(closed)
      ensures list == AtMost([e] + old(list), CACHE_SIZE)
    {
      hide Linked, Filed, Distinct;
      e := NewEntry(key, now);
      Insert(e);
    }

    /** A key in the cache moves its entry to the front. */
    method Hit(key: string) returns (e: Entry)
      requires Valid() && key in entries
      modifies `head, `tail, `list, all`prev, all`next
      ensures Valid() && e == entries[key] && e in all && e.key == key
      ensures Keys() == ToFront(old(Keys()), key)
    {
      hide Linked, Filed, Distinct, AllIn, ToFront, KeysOf, SingleFlight;
      e := entries[key];
      ghost var i := HitFacts(entries, list, head, tail, all, key);
      MoveToFront(e, i);
    }

    ghost method Advance(now: Time)
      requires SingleFlight() && clock <= now
      modifies `clock
      ensures SingleFlight() && clock == now
    {
      clock := now;
    }

    /** An entry at hand: joined, returned, or filled again. */
    method Serve(e: Entry, now: Time) returns (done: nat, wait: bool)
      requires SingleFlight() && e in all && clock <= now
      modifies `nextDone, `running, `clock, e`pending, e`hash, e`done
      ensures SingleFlight() && clock == now && wait == e.pending
      ensures old(e.pending) ==> wait && done == old(e.done) && running == old(running)
      ensures !old(e.pending) ==>
        (!wait <==> e.outcome == Ok || ((e.outcome == Refused || e.outcome == Error) && now < e.settledAt + NEGATIVE_TTL))
      ensures !wait ==> running == old(running) && e.hash == old(e.hash) && (e.hash != "" <==> e.outcome == Ok)
      ensures !old(e.pending) && wait ==> e.hash == "" && done == old(nextDone) && running == old(running)[done := e]
      ensures wait ==> done in running && running[done] == e
    {
      if e.pending {
        Advance(now);
        return e.done, true;
      }
      WhenAnEntryExpires(e, clock, now);
      hide Settled, Owned, AllSettled, ChannelsApart;
      if IsZero(e.expires) || now < e.expires {
        Advance(now);
        return 0, false;
      }
      Refill(e, now);
      return e.done, true;
    }

    /** Looks key up: e is its entry after the call, done the channel a caller waits on
        when wait is set. A pending entry is shared. A settled one is returned as it is for
        good if its fill found a hash, and for NEGATIVE_TTL from when it settled if it was
        refused or failed; one that timed out, one past that time, and any key without an
        entry get a new fill. */
    method Lookup(key: string, now: Time) returns (e: Entry, done: nat, wait: bool)
      requires Valid() && clock <= now
      modifies this, all`prev, all`next, all`pending, all`hash, all`done
      ensures Valid() && clock == now
      ensures e.key == key && wait == e.pending
      // recency
      ensures Keys() == AtMost(ToFront(old(Keys()), key), CACHE_SIZE)
      // who gets a fill
      ensures key in old(entries) ==> e == old(entries)[key]
      ensures key in old(entries) && old(entries[key].pending) ==>
        wait && done == old(entries[key].done) && running == old(running)
      ensures key in old(entries) && !old(entries[key].pending) ==>
        var found, at := old(entries[key].outcome), old(entries[key].settledAt);
        !wait <==> found == Ok || ((found == Refused || found == Error) && now < at + NEGATIVE_TTL)
      ensures key in old(entries) && !wait ==>
        running == old(running) && e.hash == old(entries[key].hash) && (e.hash != "" <==> e.outcome == Ok)
      ensures key !in old(entries) || (!old(entries[key].pending) && wait) ==>
        wait && e.hash == "" && done == old(nextDone) && running == old(running)[done := e]
      ensures wait ==> done in running && running[done] == e
      ensures closing == old(closing) && closed == old(closed)
    {
      hide Linked, Filed, Distinct, AllIn, ToFront, KeysOf, Settled;
      ghost var files, order := entries, list;
      if key in entries {
        e := Hit(key);
        done, wait := Serve(e, now);
        return;
      }
      e := Miss(key, now);
      KeysOfMiss(files, order, e);
      return e, e.done, true;
    }

    method WriteOutcome(e: Entry, hash: string, outcome: Outcome, now: Time)
      requires 0 < now && (hash != "" <==> outcome == Ok)
      modifies e`hash, e`pending, e`expires, e`outcome, e`settledAt
      ensures !e.pending && e.hash == hash && e.outcome == outcome && e.settledAt == now
      ensures e.expires == if outcome == Ok then 0 else if outcome == Timeout then now else now + NEGATIVE_TTL
    {
      e.hash := hash;
      e.pending := false;
      e.outcome, e.settledAt := outcome, now;
      if hash != "" {
        e.expires := 0;
      } else if outcome == Timeout {
        e.expires := now;
      } else {
        e.expires := now + NEGATIVE_TTL;
      }
    }

    method WriteSettled(e: Entry, hash: string, outcome: Outcome, now: Time)
      requires AllSettled() && e in all && clock <= now && 0 < now
      requires hash != "" <==> outcome == Ok
      modifies `clock, e`hash, e`pending, e`expires, e`outcome, e`settledAt
      ensures AllSettled() && clock == now
      ensures !e.pending && e.hash == hash && e.outcome == outcome && e.settledAt == now
      ensures e.expires == if outcome == Ok then 0 else if outcome == Timeout then now else now + NEGATIVE_TTL
    {
      clock := now;
      WriteOutcome(e, hash, outcome, now);
      SettledNow(e, now);
    }

    method SettleFill(ghost done: nat, e: Entry, hash: string, outcome: Outcome, now: Time)
      requires SingleFlight() && clock <= now && 0 < now
      requires done in running && running[done] == e
      requires hash != "" <==> outcome == Ok
      modifies `clock, `running, `closing, e`hash, e`pending, e`expires, e`outcome, e`settledAt
      ensures SingleFlight() && clock == now
      ensures !e.pending && e.hash == hash && e.outcome == outcome && e.settledAt == now
      ensures e.expires == if outcome == Ok then 0 else if outcome == Timeout then now else now + NEGATIVE_TTL
      ensures running == old(running) - {done} && closing == old(closing) + {done}
    {
      hide AllSettled, Settled;
      assert e in all && forall c :: c in running && c != done ==> running[c] != e;
      WriteSettled(e, hash, outcome, now);
      running := running - {done};
      closing := closing + {done};
    }

    /** A fill settles its entry under the lock - whether or not the entry is still in
        the cache - and has yet to close its channel. */
    method Settle(ghost done: nat, e: Entry, hash: string, outcome: Outcome, now: Time)
      requires Valid() && clock <= now && 0 < now
      requires done in running && running[done] == e
      requires hash != "" <==> outcome == Ok
      modifies `clock, `running, `closing, e`hash, e`pending, e`expires, e`outcome, e`settledAt
      ensures Valid() && clock == now
      ensures !e.pending && e.hash == hash && e.outcome == outcome && e.settledAt == now
      ensures IsZero(e.expires) <==> outcome == Ok
      ensures outcome == Timeout ==> e.expires == now
      ensures outcome == Refused || outcome == Error ==> e.expires == now + NEGATIVE_TTL
      ensures running == old(running) - {done} && closing == old(closing) + {done}
    {
      hide Listed, AllIn, SingleFlight;
      SettleFill(done, e, hash, outcome, now);
    }

    /** The fill closes its channel. No channel is ever closed twice: Go would panic. */
    ghost method CloseDone(done: nat)
      requires Valid() && done in closing
      modifies `closing, `closed
      ensures Valid()
      ensures done !in old(closed) && closed == old(closed) + {done} && closing == old(closing) - {done}
    {
      hide Linked, Filed, AllIn;
      closing := closing - {done};
      closed := closed + {done};
    }
  }

  lemma KeysOfMiss(entries: map<string, Entry>, list: seq<Entry>, e: Entry)
    requires Filed(entries, list) && e.key !in entries
    ensures KeysOf(AtMost([e] + list, CACHE_SIZE)) == AtMost(ToFront(KeysOf(list), e.key), CACHE_SIZE)
  {
    KeysAdded(entries, list, e);
    hide Filed, ToFront;
    assert |list| + 1 > CACHE_SIZE ==> KeysOf(([e] + list)[..CACHE_SIZE]) == KeysOf([e] + list)[..CACHE_SIZE];
  }

  lemma PositionOf(entries: map<string, Entry>, list: seq<Entry>, key: string) returns (i: nat)
    requires Filed(entries, list) && key in entries
    ensures i < |list| && list[i] == entries[key] && list[i].key == key
  {
    i :| 0 <= i < |list| && list[i] == entries[key];
  }

  lemma HitFacts(entries: map<string, Entry>, list: seq<Entry>, head: Entry?, tail: Entry?, all: set<Entry>, key: string) returns (i: nat)
    requires Linked(list, head, tail) && Filed(entries, list) && AllIn(list, all) && key in entries
    ensures i < |list| && list[i] == entries[key] && list[i].key == key && list[i] in all
    ensures var moved := [list[i]] + (list[..i] + list[i + 1..]);
      && Filed(entries, moved) && AllIn(moved, all) && |moved| == |list|
      && KeysOf(moved) == ToFront(KeysOf(list), key)
  {
    i := PositionOf(entries, list, key);
    LinkedDistinct(list, head, tail);
    hide Linked, Filed, Distinct, AllIn, ToFront, KeysOf;
    KeysMoved(entries, list, i);
    FiledMoved(entries, list, i);
    MovedInAll(list, all, i);
  }

  lemma MovedInAll(list: seq<Entry>, all: set<Entry>, i: nat)
    requires AllIn(list, all) && i < |list|
    ensures AllIn([list[i]] + (list[..i] + list[i + 1..]), all) && list[i] in all
    ensures |[list[i]] + (list[..i] + list[i + 1..])| == |list|
  {
  }

  /** The test of a lookup on a settled entry, read as how its fill came out and when: a
      hash never expires, a timeout never answers, and a refusal or a failure answers for
      NEGATIVE_TTL and no longer. */
  lemma WhenAnEntryExpires(e: Entry, clock: Time, now: Time)
    requires Settled(e, clock) && clock <= now
    ensures IsZero(e.expires) || now < e.expires <==>
      e.outcome == Ok || ((e.outcome == Refused || e.outcome == Error) && now < e.settledAt + NEGATIVE_TTL)
    ensures e.hash != "" <==> e.outcome == Ok
  {
  }

  /** So it is for any entry, cached or evicted, in any valid state. */
  lemma WhatSettledEntriesAnswer(r: Resolver, e: Entry, now: Time)
    requires r.Valid() && e in r.all && !e.pending && r.clock <= now
    ensures IsZero(e.expires) || now < e.expires <==>
      e.outcome == Ok || ((e.outcome == Refused || e.outcome == Error) && now < e.settledAt + NEGATIVE_TTL)
    ensures (e.hash != "" <==> e.outcome == Ok) && 0 < e.settledAt <= r.clock
  {
    hide Linked, Filed;
    WhenAnEntryExpires(e, r.clock, now);
  }

  /** In any valid state an entry is pending exactly when one fill runs for it: its own
      channel's, and no other. */
  lemma OneFillPerPendingEntry(r: Resolver, e: Entry)
    requires r.Valid() && e in r.all
    ensures e.pending <==> exists c :: c in r.running && r.running[c] == e
    ensures forall c, d :: c in r.running && d in r.running && r.running[c] == e && r.running[d] == e ==> c == d
  {
  }

  lemma TailIsLast(entries: map<string, Entry>, list: seq<Entry>, head: Entry?, tail: Entry?, all: set<Entry>)
    requires Linked(list, head, tail) && Filed(entries, list) && AllIn(list, all) && |list| > 0
    ensures var n := |list| - 1;
      && tail == list[n]
      && list[..n] + list[n + 1..] == list[..n]
      && Filed(entries - {list[n].key}, list[..n])
      && AllIn(list[..n], all)
  {
    FiledWithoutLast(entries, list);
    AllInPrefix(list, all, |list| - 1);
  }

  lemma ListSize(entries: map<string, Entry>, list: seq<Entry>, head: Entry?, tail: Entry?)
    requires Linked(list, head, tail) && Filed(entries, list)
    ensures |entries| == |list|
    ensures tail == null <==> list == []
  {
  }

  lemma HeadIsFirst(list: seq<Entry>, head: Entry?, tail: Entry?, i: nat)
    requires Linked(list, head, tail) && i < |list| && head == list[i]
    ensures i == 0 && [list[i]] + (list[..i] + list[i + 1..]) == list
  {
  }

  lemma LinkedDistinct(list: seq<Entry>, head: Entry?, tail: Entry?)
    requires Linked(list, head, tail)
    ensures Distinct(list)
  {
  }

  lemma SplicedOut(s: seq<Entry>, i: nat)
    requires Distinct(s) && i < |s|
    ensures s[i] !in s[..i] + s[i + 1..]
    ensures forall x :: x in s[..i] + s[i + 1..] ==> x in s
  {
  }
}
