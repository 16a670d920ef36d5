/** shared/testutil/testutil.go: mergePatch, and RFC 7396 section 2 beside it. */
module Json {
  /** Decoded JSON. K is the type of the object keys; only their equality matters. */
  datatype Json<!K(==)> =
    | Null
    | Bool(b: bool)
    | Num(n: real)
    | Str(s: string)
    | Arr(a: seq<Json<K>>)
    | Obj(o: map<K, Json<K>>)

  /** MergePatch as section 2 of RFC 7396 writes it, an undefined member read as Null. */
  function Rfc7396<K(==)>(target: Json<K>, patch: Json<K>): Json<K>
    decreases patch
  {
    if !patch.Obj? then patch
    else
      var t := if target.Obj? then target.o else map[];
      Obj(map k | k in t.Keys + patch.o.Keys && !(k in patch.o && patch.o[k].Null?) ::
        if k in patch.o then Rfc7396(Member(t, k), patch.o[k]) else t[k])
  }

  function Member<K(==)>(o: map<K, Json<K>>, k: K): Json<K> {
    if k in o then o[k] else Null
  }

  ghost function Merged<K>(dst: map<K, Json<K>>, src: map<K, Json<K>>): map<K, Json<K>> {
    Rfc7396(Obj(dst), Obj(src)).o
  }

  /** The Go merge walks the patch's members in whatever order the map yields them. */
  method MergePatch<K(==)>(dst: map<K, Json<K>>, src: map<K, Json<K>>) returns (out: map<K, Json<K>>)
    ensures out == Merged(dst, src)
    decreases Obj(src)
  {
    out := dst;
    var rest := src.Keys;
    while rest != {}
      invariant rest <= src.Keys
      invariant forall k :: k !in src || k in rest ==> (k in out <==> k in dst) && (k in dst ==> out[k] == dst[k])
      invariant forall k :: k in src.Keys - rest ==> (k in out <==> !src[k].Null?)
      invariant forall k :: k in src.Keys - rest && !src[k].Null? ==> out[k] == Rfc7396(Member(dst, k), src[k])
    {
      var k :| k in rest;
      rest := rest - {k};
      match src[k] {
        case Null =>
          out := out - {k};
        case Obj(o) =>
          var sub := if k in out && out[k].Obj? then out[k].o else map[];
          var merged := MergePatch(sub, o);
          assert Obj(merged) == Rfc7396(Member(dst, k), src[k]);
          out := out[k := Obj(merged)];
        case _ =>
          out := out[k := src[k]];
      }
    }
    assert out == Merged(dst, src);
  }

  /** A patch that already landed changes nothing when it lands again. */
  lemma {:induction false} MergeIdempotent<K>(target: Json<K>, patch: Json<K>)
    ensures Rfc7396(Rfc7396(target, patch), patch) == Rfc7396(target, patch)
    decreases patch
  {
    if patch.Obj? {
      var once := Rfc7396(target, patch);
      var t := if target.Obj? then target.o else map[];
      forall k | k in patch.o && !patch.o[k].Null?
        ensures Rfc7396(Member(once.o, k), patch.o[k]) == once.o[k]
      {
        MergeIdempotent(Member(t, k), patch.o[k]);
      }
      assert Rfc7396(once, patch).o == once.o;
    }
  }

  /** No object holds a null member, however deep; arrays are opaque to a merge. */
  ghost predicate NullFree<K(!new)>(j: Json<K>)
    decreases j
  {
    j.Obj? ==> forall k :: k in j.o ==> !j.o[k].Null? && NullFree(j.o[k])
  }

  /** Null only ever deletes: what is stored stays free of nulls whatever is sent. */
  lemma {:induction false} MergeKeepsNullFree<K(!new)>(target: Json<K>, patch: Json<K>)
    requires NullFree(target)
    ensures NullFree(Rfc7396(target, patch))
    decreases patch
  {
    if patch.Obj? {
      var t := if target.Obj? then target.o else map[];
      var out := Rfc7396(target, patch).o;
      forall k | k in out
        ensures !out[k].Null? && NullFree(out[k])
      {
        if k in patch.o {
          MergeKeepsNullFree(Member(t, k), patch.o[k]);
        }
      }
    }
  }

  /** A patch of plain values overlays: it wins where it names a member, the rest stays. */
  lemma PlainPatchOverlays<K>(dst: map<K, Json<K>>, src: map<K, Json<K>>)
    requires forall k :: k in src ==> !src[k].Null? && !src[k].Obj?
    ensures Merged(dst, src) == dst + src
  {
    assert forall k :: k in src ==> Rfc7396(Member(dst, k), src[k]) == src[k];
    assert Merged(dst, src).Keys == dst.Keys + src.Keys;
  }
}
