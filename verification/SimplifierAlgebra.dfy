/** The algebra of the simplifier: normal forms are exactly its fixed points,
    and the two modes absorb one another. */
module SimplifierAlgebra {
  import opened JsonValues
  import opened Results
  import opened Simplifier

  // ---- Normal forms ----

  /** Nothing below the root is droppable and, in deep mode, no object holds a
      count that repeats the length of one of its own arrays. */
  ghost predicate Normal(v: Json, deep: bool)
  {
    match v
    case Arr(es) => forall e | e in es :: !IsDropped(e) && Normal(e, deep)
    case Obj(fs) =>
      && (forall f | f in fs :: !IsDropped(f.val) && Normal(f.val, deep))
      && (deep ==> forall f | f in fs :: !IsRedundant(f, ArrayLens(fs)))
    case _ => true
  }

  // ---- Erasing counts ----

  lemma {:induction false} DropCountsMembers(fs: seq<Field>, lens: map<string, nat>)
    ensures forall f :: f in DropCounts(fs, lens) <==> f in fs && !IsRedundant(f, lens)
  {
    if fs != [] {
      DropCountsMembers(fs[1..], lens);
      assert forall f :: f in fs <==> f == fs[0] || f in fs[1..];
    }
  }

  /** Only integers are erased, so the arrays, and with them all lengths, stay. */
  lemma {:induction false} DropCountsKeepsLens(fs: seq<Field>, lens: map<string, nat>)
    ensures ArrayLens(DropCounts(fs, lens)) == ArrayLens(fs)
    decreases |fs|
  {
    if fs != [] {
      var init, last := fs[..|fs| - 1], fs[|fs| - 1];
      assert fs == init + [last];
      DropCountsKeepsLens(init, lens);
      DropCountsSnoc(init, last, lens);
      if IsRedundant(last, lens) {
        assert DropCounts(fs, lens) == DropCounts(init, lens);
      } else {
        ArrayLensSnoc(DropCounts(init, lens), last);
      }
    }
  }

  lemma {:induction false} DropNothing(fs: seq<Field>, lens: map<string, nat>)
    requires forall f | f in fs :: !IsRedundant(f, lens)
    ensures DropCounts(fs, lens) == fs
  {
    if fs != [] {
      DropNothing(fs[1..], lens);
    }
  }

  lemma {:induction false} LenComesFromArray(fs: seq<Field>, key: string)
    requires key in ArrayLens(fs)
    ensures exists f :: f in fs && f.key == key && f.val.Arr? && |f.val.elems| == ArrayLens(fs)[key]
    decreases |fs|
  {
    var init, last := fs[..|fs| - 1], fs[|fs| - 1];
    if last.val.Arr? && last.key == key {
      assert last in fs;
    } else {
      LenComesFromArray(init, key);
      assert forall f :: f in init ==> f in fs;
    }
  }

  /** What makes a count redundant is an array of that length among its siblings. */
  lemma RedundantNeedsArray(fs: seq<Field>, f: Field)
    requires IsRedundant(f, ArrayLens(fs))
    ensures exists g :: g in fs && g.val.Arr? && |g.val.elems| == AsSize(f.val.i)
  {
    var lens := ArrayLens(fs);
    var n := AsSize(f.val.i);
    var key :| key in lens && lens[key] == n;
    LenComesFromArray(fs, key);
  }

  /** Erasing counts never empties an object: the array it repeats stays behind. */
  lemma ErasureNeverEmpties(fs: seq<Field>)
    requires fs != []
    ensures DropCounts(fs, ArrayLens(fs)) != []
  {
    var lens := ArrayLens(fs);
    DropCountsMembers(fs, lens);
    if IsRedundant(fs[0], lens) {
      RedundantNeedsArray(fs, fs[0]);
      var g :| g in fs && g.val.Arr?;
      assert g in DropCounts(fs, lens);
    } else {
      assert fs[0] in DropCounts(fs, lens);
    }
  }

  // ---- Which counts are erased ----

  lemma {:induction false} LenOfArray(fs: seq<Field>, f: Field)
    requires UniqueKeys(fs) && f in fs && f.val.Arr?
    ensures f.key in ArrayLens(fs) && ArrayLens(fs)[f.key] == |f.val.elems|
    decreases |fs|
  {
    var init, last := fs[..|fs| - 1], fs[|fs| - 1];
    if f != last {
      var i :| 0 <= i < |fs| && fs[i] == f;
      assert init[i] == f;
      LenOfArray(init, f);
    }
  }

  /** The sibling arrays whose length is n. */
  ghost predicate ArrayOfLength(fs: seq<Field>, g: Field, n: nat)
  {
    g in fs && g.val.Arr? && |g.val.elems| == n
  }

  /** A count is redundant exactly when it is an integer that repeats the length of the
      only sibling array ("count"), of the sibling array it names with or without a plural
      "s" ("..._count"), or of any sibling array ("returned"). */
  ghost predicate RepeatsSibling(fs: seq<Field>, f: Field)
  {
    && f.val.Int?
    && exists g ::
         && ArrayOfLength(fs, g, AsSize(f.val.i))
         && (|| (f.key == "count" && forall h | h in fs && h.val.Arr? :: h == g)
             || (|g.key| > 0 && f.key == g.key + "_count")
             || (|g.key| > 1 && g.key[|g.key| - 1] == 's' && f.key == g.key[..|g.key| - 1] + "_count")
             || f.key == "returned")
  }

  lemma RedundantIffRepeatsSibling(fs: seq<Field>, f: Field)
    requires UniqueKeys(fs)
    ensures IsRedundant(f, ArrayLens(fs)) <==> RepeatsSibling(fs, f)
  {
    if IsRedundant(f, ArrayLens(fs)) {
      RedundantRepeats(fs, f);
    }
    if RepeatsSibling(fs, f) {
      RepeatsIsRedundant(fs, f);
    }
  }

  lemma RedundantRepeats(fs: seq<Field>, f: Field)
    requires UniqueKeys(fs)
    requires IsRedundant(f, ArrayLens(fs))
    ensures RepeatsSibling(fs, f)
  {
    var lens, n := ArrayLens(fs), AsSize(f.val.i);
    if f.key == "count" {
      assert !HasCountSuffix(f.key);
      var key :| key in lens && lens[key] == n;
      LenComesFromArray(fs, key);
      var g :| g in fs && g.key == key && g.val.Arr? && |g.val.elems| == n;
      assert ArrayOfLength(fs, g, n);
      forall h | h in fs && h.val.Arr? ensures h == g {
        LenOfArray(fs, h);
        OneKey(lens, key, h.key);
        SameKeySameField(fs, g, h);
      }
    } else if HasCountSuffix(f.key) {
      var base := CountBase(f.key);
      assert f.key == base + COUNT_SUFFIX;
      var key := if LenIs(lens, base, n) then base else base + "s";
      LenComesFromArray(fs, key);
      var g :| g in fs && g.key == key && g.val.Arr? && |g.val.elems| == n;
      assert ArrayOfLength(fs, g, n);
      assert key == base + "s" ==> g.key[..|g.key| - 1] == base;
    } else {
      var key :| key in lens && lens[key] == n;
      LenComesFromArray(fs, key);
      var g :| g in fs && g.key == key && g.val.Arr? && |g.val.elems| == n;
      assert ArrayOfLength(fs, g, n);
    }
  }

  lemma RepeatsIsRedundant(fs: seq<Field>, f: Field)
    requires UniqueKeys(fs)
    requires RepeatsSibling(fs, f)
    ensures IsRedundant(f, ArrayLens(fs))
  {
    var lens, n := ArrayLens(fs), AsSize(f.val.i);
    var g :|
      && ArrayOfLength(fs, g, n)
      && (|| (f.key == "count" && forall h | h in fs && h.val.Arr? :: h == g)
          || (|g.key| > 0 && f.key == g.key + "_count")
          || (|g.key| > 1 && g.key[|g.key| - 1] == 's' && f.key == g.key[..|g.key| - 1] + "_count")
          || f.key == "returned");
    LenOfArray(fs, g);
    assert lens[g.key] == n && n in lens.Values;
    if f.key == "count" {
      assert |f.key| == 5;
      forall key | key in lens ensures key == g.key {
        LenComesFromArray(fs, key);
      }
      assert lens.Keys == {g.key};
      assert |lens| == |lens.Keys|;
    } else if f.key == g.key + "_count" {
      SuffixFacts(g.key);
    } else if f.key != "returned" {
      var base := g.key[..|g.key| - 1];
      SuffixFacts(base);
      assert base + "s" == g.key;
    }
  }

  lemma SuffixFacts(base: string)
    requires |base| > 0
    ensures HasCountSuffix(base + COUNT_SUFFIX) && CountBase(base + COUNT_SUFFIX) == base
    ensures base + COUNT_SUFFIX != "count" && base + COUNT_SUFFIX != "returned"
  {
    var key := base + COUNT_SUFFIX;
    assert key[|key| - 1] == 't';
    assert |key| > 6;
  }

  lemma OneKey(m: map<string, nat>, a: string, b: string)
    requires |m| == 1 && a in m && b in m
    ensures a == b
  {
    var rest := m.Keys - {a};
    assert |rest| == 0;
    assert b != a ==> b in rest;
  }

  lemma SameKeySameField(fs: seq<Field>, f: Field, g: Field)
    requires UniqueKeys(fs) && f in fs && g in fs && f.key == g.key
    ensures f == g
  {
    var i :| 0 <= i < |fs| && fs[i] == f;
    var j :| 0 <= j < |fs| && fs[j] == g;
    if i < j || j < i {
      assert false;
    }
  }

  // ---- The output is normal ----

  lemma {:induction false} OutputIsNormal(v: Json, deep: bool)
    ensures Normal(Simplified(v, deep), deep)
    decreases v, 1
  {
    match v
    case Arr(es) => ElemsAreNormal(es, deep);
    case Obj(fs) =>
      FieldsAreNormal(fs, deep);
      if deep {
        var kept := KeptFields(fs, deep);
        DropCountsMembers(kept, ArrayLens(kept));
        DropCountsKeepsLens(kept, ArrayLens(kept));
      }
    case _ =>
  }

  lemma {:induction false} ElemsAreNormal(es: seq<Json>, deep: bool)
    ensures forall e | e in KeptElems(es, deep) :: !IsDropped(e) && Normal(e, deep)
    decreases es, 0
  {
    if es != [] {
      OutputIsNormal(es[0], deep);
      ElemsAreNormal(es[1..], deep);
    }
  }

  lemma {:induction false} FieldsAreNormal(fs: seq<Field>, deep: bool)
    ensures forall f | f in KeptFields(fs, deep) :: !IsDropped(f.val) && Normal(f.val, deep)
    decreases fs, 0
  {
    if fs != [] {
      OutputIsNormal(fs[0].val, deep);
      FieldsAreNormal(fs[1..], deep);
    }
  }

  // ---- Normal values are left alone ----

  lemma {:induction false} NormalIsFixed(v: Json, deep: bool)
    requires Normal(v, deep)
    ensures Simplified(v, deep) == v
    decreases v, 1
  {
    match v
    case Arr(es) => NormalElemsAreFixed(es, deep);
    case Obj(fs) =>
      NormalFieldsAreFixed(fs, deep);
      if deep {
        DropNothing(fs, ArrayLens(fs));
      }
    case _ =>
  }

  lemma {:induction false} NormalElemsAreFixed(es: seq<Json>, deep: bool)
    requires forall e | e in es :: !IsDropped(e) && Normal(e, deep)
    ensures KeptElems(es, deep) == es
    decreases es, 0
  {
    if es != [] {
      NormalIsFixed(es[0], deep);
      NormalElemsAreFixed(es[1..], deep);
    }
  }

  lemma {:induction false} NormalFieldsAreFixed(fs: seq<Field>, deep: bool)
    requires forall f | f in fs :: !IsDropped(f.val) && Normal(f.val, deep)
    ensures KeptFields(fs, deep) == fs
    decreases fs, 0
  {
    if fs != [] {
      assert fs[0] in fs;
      NormalIsFixed(fs[0].val, deep);
      NormalFieldsAreFixed(fs[1..], deep);
    }
  }

  /** The values the simplifier leaves unchanged are exactly the normal ones. */
  lemma FixedIffNormal(v: Json, deep: bool)
    ensures Simplified(v, deep) == v <==> Normal(v, deep)
  {
    OutputIsNormal(v, deep);
    if Normal(v, deep) {
      NormalIsFixed(v, deep);
    }
  }

  lemma {:induction false} DeepNormalIsNormal(v: Json)
    requires Normal(v, true)
    ensures Normal(v, false)
    decreases v
  {
    match v
    case Arr(es) =>
      forall e | e in es ensures Normal(e, false) { DeepNormalIsNormal(e); }
    case Obj(fs) =>
      forall f | f in fs ensures Normal(f.val, false) { DeepNormalIsNormal(f.val); }
    case _ =>
  }

  // ---- Stripping first changes nothing for deep mode ----

  /** Both modes agree on what is dropped and on the lengths of arrays. */
  lemma {:induction false} ModesAgreeOnDropped(v: Json)
    ensures IsDropped(Simplified(v, true)) == IsDropped(Simplified(v, false))
    ensures v.Arr? ==> |Simplified(v, true).elems| == |Simplified(v, false).elems|
    decreases v, 1
  {
    match v
    case Arr(es) => ModesAgreeOnElems(es);
    case Obj(fs) =>
      ModesAgreeOnFields(fs);
      if KeptFields(fs, true) != [] {
        ErasureNeverEmpties(KeptFields(fs, true));
      }
    case _ =>
  }

  lemma {:induction false} ModesAgreeOnElems(es: seq<Json>)
    ensures |KeptElems(es, true)| == |KeptElems(es, false)|
    decreases es, 0
  {
    if es != [] {
      ModesAgreeOnDropped(es[0]);
      ModesAgreeOnElems(es[1..]);
    }
  }

  lemma {:induction false} ModesAgreeOnFields(fs: seq<Field>)
    ensures |KeptFields(fs, true)| == |KeptFields(fs, false)|
    decreases fs, 0
  {
    if fs != [] {
      ModesAgreeOnDropped(fs[0].val);
      ModesAgreeOnFields(fs[1..]);
    }
  }

  lemma {:induction false} DeepAfterStripped(v: Json)
    ensures Simplified(Simplified(v, false), true) == Simplified(v, true)
    decreases v, 1
  {
    match v
    case Arr(es) => DeepAfterStrippedElems(es);
    case Obj(fs) => DeepAfterStrippedFields(fs);
    case _ =>
  }

  lemma {:induction false} DeepAfterStrippedElems(es: seq<Json>)
    ensures KeptElems(KeptElems(es, false), true) == KeptElems(es, true)
    decreases es, 0
  {
    if es != [] {
      ModesAgreeOnDropped(es[0]);
      DeepAfterStripped(es[0]);
      DeepAfterStrippedElems(es[1..]);
      var child := Simplified(es[0], false);
      if !IsDropped(child) {
        assert KeptElems(es, false)[1..] == KeptElems(es[1..], false);
      }
    }
  }

  lemma {:induction false} DeepAfterStrippedFields(fs: seq<Field>)
    ensures KeptFields(KeptFields(fs, false), true) == KeptFields(fs, true)
    decreases fs, 0
  {
    if fs != [] {
      ModesAgreeOnDropped(fs[0].val);
      DeepAfterStripped(fs[0].val);
      DeepAfterStrippedFields(fs[1..]);
      var child := Simplified(fs[0].val, false);
      if !IsDropped(child) {
        assert KeptFields(fs, false)[1..] == KeptFields(fs[1..], false);
      }
    }
  }

  /** Any two passes equal one pass in the stronger of the two modes: both modes are
      idempotent, and deep mode absorbs stripping on either side. */
  lemma PassesAbsorb(v: Json, first: bool, second: bool)
    ensures Simplified(Simplified(v, first), second) == Simplified(v, first || second)
  {
    OutputIsNormal(v, first);
    if first {
      DeepNormalIsNormal(Simplified(v, true));
      NormalIsFixed(Simplified(v, first), second);
    } else if second {
      DeepAfterStripped(v);
    } else {
      NormalIsFixed(Simplified(v, first), second);
    }
  }

  // ---- Descendants ----

  /** The value reached by following child positions from the root. */
  function At(v: Json, path: seq<nat>): Option<Json>
    decreases path
  {
    if path == [] then Some(v)
    else match v
      case Arr(es) => if path[0] < |es| then At(es[path[0]], path[1..]) else None
      case Obj(fs) => if path[0] < |fs| then At(fs[path[0]].val, path[1..]) else None
      case _ => None
  }

  lemma {:induction false} NormalHasNoDroppedDescendant(v: Json, deep: bool, path: seq<nat>)
    requires Normal(v, deep) && path != [] && At(v, path).Some?
    ensures !IsDropped(At(v, path).value)
    decreases path
  {
    var child := if v.Arr? then v.elems[path[0]] else v.fields[path[0]].val;
    assert v.Arr? ==> child in v.elems;
    assert v.Obj? ==> v.fields[path[0]] in v.fields;
    if path[1..] != [] {
      NormalHasNoDroppedDescendant(child, deep, path[1..]);
    }
  }

  /** Six values are dropped and no other. */
  lemma DroppedAreSix(v: Json)
    ensures IsDropped(v) <==> v in [Null, Str(""), Str("None"), Str("()"), Arr([]), Obj([])]
  {
  }

  /** No proper descendant of an output is null, "", "None", "()", [] or {}. */
  lemma OutputHasNoDroppedDescendant(v: Json, deep: bool, path: seq<nat>)
    requires path != [] && At(Simplified(v, deep), path).Some?
    ensures At(Simplified(v, deep), path).value !in [Null, Str(""), Str("None"), Str("()"), Arr([]), Obj([])]
  {
    DroppedAreSix(At(Simplified(v, deep), path).value);
    OutputIsNormal(v, deep);
    NormalHasNoDroppedDescendant(Simplified(v, deep), deep, path);
  }

  // ---- Keys stay unique ----

  lemma {:induction false} OutputIsWellFormed(v: Json, deep: bool)
    requires WellFormed(v)
    ensures WellFormed(Simplified(v, deep))
    decreases v, 1
  {
    match v
    case Arr(es) => ElemsStayWellFormed(es, deep);
    case Obj(fs) =>
      FieldsStayWellFormed(fs, deep);
      if deep {
        var kept := KeptFields(fs, deep);
        DropCountsMembers(kept, ArrayLens(kept));
        DropCountsKeepsUnique(kept, ArrayLens(kept));
      }
    case _ =>
  }

  lemma {:induction false} ElemsStayWellFormed(es: seq<Json>, deep: bool)
    requires forall e | e in es :: WellFormed(e)
    ensures forall e | e in KeptElems(es, deep) :: WellFormed(e)
    decreases es, 0
  {
    if es != [] {
      OutputIsWellFormed(es[0], deep);
      ElemsStayWellFormed(es[1..], deep);
    }
  }

  lemma {:induction false} FieldsStayWellFormed(fs: seq<Field>, deep: bool)
    requires UniqueKeys(fs) && forall f | f in fs :: WellFormed(f.val)
    ensures forall f | f in KeptFields(fs, deep) :: WellFormed(f.val)
    ensures forall f | f in KeptFields(fs, deep) :: exists g :: g in fs && g.key == f.key
    ensures UniqueKeys(KeptFields(fs, deep))
    decreases fs, 0
  {
    if fs != [] {
      assert fs[0] in fs;
      OutputIsWellFormed(fs[0].val, deep);
      FieldsStayWellFormed(fs[1..], deep);
      assert forall g :: g in fs[1..] ==> g in fs && g.key != fs[0].key;
    }
  }

  lemma {:induction false} DropCountsKeepsUnique(fs: seq<Field>, lens: map<string, nat>)
    requires UniqueKeys(fs)
    ensures UniqueKeys(DropCounts(fs, lens))
  {
    if fs != [] {
      var rest := DropCounts(fs[1..], lens);
      DropCountsKeepsUnique(fs[1..], lens);
      DropCountsMembers(fs[1..], lens);
      forall i | 0 <= i < |rest| ensures rest[i].key != fs[0].key {
        assert rest[i] in fs[1..];
      }
    }
  }

  lemma {:induction false} OutputIsEncodable(v: Json, deep: bool)
    requires Encodable(v)
    ensures Encodable(Simplified(v, deep))
    decreases v, 1
  {
    match v
    case Arr(es) => ElemsStayEncodable(es, deep);
    case Obj(fs) =>
      FieldsStayEncodable(fs, deep);
      if deep {
        var kept := KeptFields(fs, deep);
        DropCountsMembers(kept, ArrayLens(kept));
      }
    case _ =>
  }

  lemma {:induction false} ElemsStayEncodable(es: seq<Json>, deep: bool)
    requires forall e | e in es :: Encodable(e)
    ensures forall e | e in KeptElems(es, deep) :: Encodable(e)
    decreases es, 0
  {
    if es != [] {
      OutputIsEncodable(es[0], deep);
      ElemsStayEncodable(es[1..], deep);
    }
  }

  lemma {:induction false} FieldsStayEncodable(fs: seq<Field>, deep: bool)
    requires forall f | f in fs :: IsUtf8(f.key) && Encodable(f.val)
    ensures forall f | f in KeptFields(fs, deep) :: IsUtf8(f.key) && Encodable(f.val)
    decreases fs, 0
  {
    if fs != [] {
      assert fs[0] in fs;
      OutputIsEncodable(fs[0].val, deep);
      FieldsStayEncodable(fs[1..], deep);
    }
  }
}
