/** What the simplifier keeps: every informative leaf in stripped mode, and in deep
    mode everything but integers that repeat the length of a surviving array. */
module SimplifierContent {
  import opened JsonValues
  import opened Simplifier
  import SimplifierAlgebra

  /** A leaf with the object keys above it. */
  datatype Leaf = Leaf(keys: seq<string>, val: Json)

  /** The scalar leaves other than null, "", "None" and "()", in document order. */
  function Leaves(v: Json, keys: seq<string>): seq<Leaf>
    decreases v, 1
  {
    match v
    case Arr(es) => ElemLeaves(es, keys)
    case Obj(fs) => FieldLeaves(fs, keys)
    case _ => if v in [Null, Str(""), Str("None"), Str("()")] then [] else [Leaf(keys, v)]
  }

  function ElemLeaves(es: seq<Json>, keys: seq<string>): seq<Leaf>
    decreases es, 0
  {
    if es == [] then [] else Leaves(es[0], keys) + ElemLeaves(es[1..], keys)
  }

  function FieldLeaves(fs: seq<Field>, keys: seq<string>): seq<Leaf>
    decreases fs, 0
  {
    if fs == [] then []
    else Leaves(fs[0].val, keys + [fs[0].key]) + FieldLeaves(fs[1..], keys)
  }

  /** Stripping loses no informative leaf, moves none and renames none. */
  lemma {:induction false} StrippedKeepsLeaves(v: Json, keys: seq<string>)
    ensures Leaves(Simplified(v, false), keys) == Leaves(v, keys)
    decreases v, 1
  {
    match v
    case Arr(es) => StrippedKeepsElemLeaves(es, keys);
    case Obj(fs) => StrippedKeepsFieldLeaves(fs, keys);
    case _ =>
  }

  lemma {:induction false} StrippedKeepsElemLeaves(es: seq<Json>, keys: seq<string>)
    ensures ElemLeaves(KeptElems(es, false), keys) == ElemLeaves(es, keys)
    decreases es, 0
  {
    if es != [] {
      StrippedKeepsLeaves(es[0], keys);
      StrippedKeepsElemLeaves(es[1..], keys);
      if IsDropped(Simplified(es[0], false)) {
        assert Leaves(es[0], keys) == [];
      } else {
        assert KeptElems(es, false)[1..] == KeptElems(es[1..], false);
      }
    }
  }

  lemma {:induction false} StrippedKeepsFieldLeaves(fs: seq<Field>, keys: seq<string>)
    ensures FieldLeaves(KeptFields(fs, false), keys) == FieldLeaves(fs, keys)
    decreases fs, 0
  {
    if fs != [] {
      StrippedKeepsLeaves(fs[0].val, keys + [fs[0].key]);
      StrippedKeepsFieldLeaves(fs[1..], keys);
      if IsDropped(Simplified(fs[0].val, false)) {
        assert Leaves(fs[0].val, keys + [fs[0].key]) == [];
      } else {
        assert KeptFields(fs, false)[1..] == KeptFields(fs[1..], false);
      }
    }
  }

  // ---- Deep mode against stripped mode ----

  /** Object `after` holds an array as long as the number `f` carries. */
  ghost predicate RepeatsALength(f: Field, after: seq<Field>)
  {
    f.val.Int? && exists g :: g in after && g.val.Arr? && |g.val.elems| == AsSize(f.val.i)
  }

  /** Every JSON integer fits in 64 bits and every array length in 63, so the wrapping
      read of a count agrees with a length only when the two numbers are equal. */
  lemma CountEqualsLength(i: int, length: nat)
    requires -0x8000_0000_0000_0000 <= i < 0x1_0000_0000_0000_0000
    requires length < 0x8000_0000_0000_0000
    ensures AsSize(i) == length <==> i == length
  {
    if i < 0 {
      assert AsSize(i) == i + 0x1_0000_0000_0000_0000;
    }
  }

  /** `after` is `before` with some integer members gone, at any depth, each of which
      repeats the length of an array that its own object in `after` still holds. */
  ghost predicate OnlyCountsGone(before: Json, after: Json)
    decreases before, 1
  {
    match before
    case Arr(es) =>
      && after.Arr? && |after.elems| == |es|
      && forall i | 0 <= i < |es| :: OnlyCountsGone(es[i], after.elems[i])
    case Obj(fs) =>
      after.Obj? && OnlyCountsGoneIn(fs, after.fields, after.fields)
    case _ => before == after
  }

  /** Members `fs` against the corresponding stretch `gs` of the object `whole`. */
  ghost predicate OnlyCountsGoneIn(fs: seq<Field>, gs: seq<Field>, whole: seq<Field>)
    decreases fs, 0
  {
    if fs == [] then gs == []
    else
      || (gs != [] && gs[0].key == fs[0].key
          && OnlyCountsGone(fs[0].val, gs[0].val) && OnlyCountsGoneIn(fs[1..], gs[1..], whole))
      || (RepeatsALength(fs[0], whole) && OnlyCountsGoneIn(fs[1..], gs, whole))
  }

  /** Deep mode removes from the stripped value nothing but repeated lengths. */
  lemma {:induction false} DeepOnlyRemovesCounts(v: Json)
    ensures OnlyCountsGone(Simplified(v, false), Simplified(v, true))
    decreases v, 1
  {
    match v
    case Arr(es) =>
      DeepOnElems(es);
    case Obj(fs) =>
      var kept := KeptFields(fs, true);
      var whole := DropCounts(kept, ArrayLens(kept));
      SimplifierAlgebra.DropCountsKeepsLens(kept, ArrayLens(kept));
      DeepOnFields(fs, ArrayLens(kept), whole);
    case _ =>
  }

  lemma {:induction false} DeepOnElems(es: seq<Json>)
    ensures |KeptElems(es, true)| == |KeptElems(es, false)|
    ensures forall i | 0 <= i < |KeptElems(es, false)| ::
              OnlyCountsGone(KeptElems(es, false)[i], KeptElems(es, true)[i])
    decreases es, 0
  {
    if es != [] {
      SimplifierAlgebra.ModesAgreeOnDropped(es[0]);
      DeepOnlyRemovesCounts(es[0]);
      DeepOnElems(es[1..]);
    }
  }

  lemma {:induction false} DeepOnFields(fs: seq<Field>, lens: map<string, nat>, whole: seq<Field>)
    requires lens == ArrayLens(whole)
    ensures OnlyCountsGoneIn(KeptFields(fs, false), DropCounts(KeptFields(fs, true), lens), whole)
    decreases fs, 0
  {
    if fs != [] {
      SimplifierAlgebra.ModesAgreeOnDropped(fs[0].val);
      DeepOnlyRemovesCounts(fs[0].val);
      DeepOnFields(fs[1..], lens, whole);
      var stripped, child := Simplified(fs[0].val, false), Simplified(fs[0].val, true);
      if !IsDropped(child) {
        var f := Field(fs[0].key, child);
        assert KeptFields(fs, false)[1..] == KeptFields(fs[1..], false);
        assert KeptFields(fs, true)[1..] == KeptFields(fs[1..], true);
        if IsRedundant(f, lens) {
          SimplifierAlgebra.RedundantNeedsArray(whole, f);
          assert stripped == child;
        } else {
          assert DropCounts(KeptFields(fs, true), lens)[1..] == DropCounts(KeptFields(fs[1..], true), lens);
        }
      }
    }
  }
}
