/** The response simplifier: drops empty values everywhere and, in deep mode, also
    count members that repeat the length of a sibling array. */
module Simplifier {
  import opened Encodings
  import opened JsonValues

  predicate IsDropped(v: Json)
  {
    match v
    case Null => true
    case Str(s) => s == "" || s == "None" || s == "()"
    case Arr(es) => es == []
    case Obj(fs) => fs == []
    case _ => false
  }

  // ---- Redundant counts ----

  /** A JSON integer read as an unsigned 64-bit size: negative values wrap. */
  function AsSize(i: int): nat
  {
    i % TWO_TO_64
  }

  const COUNT_SUFFIX := "_count"

  predicate HasCountSuffix(key: string)
  {
    |key| > |COUNT_SUFFIX| && key[|key| - |COUNT_SUFFIX|..] == COUNT_SUFFIX
  }

  function CountBase(key: string): string
    requires HasCountSuffix(key)
  {
    key[..|key| - |COUNT_SUFFIX|]
  }

  /** Lengths of the array members, by key. */
  function ArrayLens(fs: seq<Field>): map<string, nat>
  {
    if fs == [] then map[]
    else
      var last := fs[|fs| - 1];
      var lens := ArrayLens(fs[..|fs| - 1]);
      if last.val.Arr? then lens[last.key := |last.val.elems|] else lens
  }

  predicate LenIs(lens: map<string, nat>, key: string, n: nat)
  {
    key in lens && lens[key] == n
  }

  predicate RedundantCount(key: string, n: nat, lens: map<string, nat>)
  {
    if key == "count" && |lens| == 1 && n in lens.Values then true
    else if HasCountSuffix(key) then
      LenIs(lens, CountBase(key), n) || LenIs(lens, CountBase(key) + "s", n)
    else key == "returned" && n in lens.Values
  }

  predicate IsRedundant(f: Field, lens: map<string, nat>)
  {
    f.val.Int? && RedundantCount(f.key, AsSize(f.val.i), lens)
  }

  function DropCounts(fs: seq<Field>, lens: map<string, nat>): (r: seq<Field>)
    ensures |r| <= |fs|
  {
    if fs == [] then []
    else if IsRedundant(fs[0], lens) then DropCounts(fs[1..], lens)
    else [fs[0]] + DropCounts(fs[1..], lens)
  }

  // ---- The rewrite ----

  function Simplified(v: Json, deep: bool): Json
    decreases v, 1
  {
    match v
    case Obj(fs) =>
      var kept := KeptFields(fs, deep);
      Obj(if deep then DropCounts(kept, ArrayLens(kept)) else kept)
    case Arr(es) => Arr(KeptElems(es, deep))
    case _ => v
  }

  function KeptElems(es: seq<Json>, deep: bool): seq<Json>
    decreases es, 0
  {
    if es == [] then []
    else
      var child := Simplified(es[0], deep);
      if IsDropped(child) then KeptElems(es[1..], deep)
      else [child] + KeptElems(es[1..], deep)
  }

  function KeptFields(fs: seq<Field>, deep: bool): seq<Field>
    decreases fs, 0
  {
    if fs == [] then []
    else
      var child := Simplified(fs[0].val, deep);
      if IsDropped(child) then KeptFields(fs[1..], deep)
      else [Field(fs[0].key, child)] + KeptFields(fs[1..], deep)
  }

  // ---- The loops that compute it ----

  method SimplifyValue(v: Json, deep: bool) returns (r: Json)
    ensures r == Simplified(v, deep)
    decreases v, 1
  {
    match v
    case Obj(fields) =>
      var out, arrayLens := SimplifyMembers(fields, deep);
      if deep {
        out := EraseCounts(out, arrayLens);
      }
      r := Obj(out);
    case Arr(elems) =>
      var out := SimplifyElems(elems, deep);
      r := Arr(out);
    case _ =>
      r := v;
  }

  /** The member loop: keeps what is not dropped and records array lengths. */
  method SimplifyMembers(fields: seq<Field>, deep: bool)
    returns (out: seq<Field>, arrayLens: map<string, nat>)
    ensures out == KeptFields(fields, deep)
    ensures arrayLens == ArrayLens(out)
    decreases fields, 0
  {
    out, arrayLens := [], map[];
    for i := 0 to |fields|
      invariant out == KeptFields(fields[..i], deep)
      invariant arrayLens == ArrayLens(out)
    {
      var key := fields[i].key;
      var child := SimplifyValue(fields[i].val, deep);
      KeptFieldsSnoc(fields[..i], fields[i], deep);
      assert fields[..i + 1] == fields[..i] + [fields[i]];
      if !IsDropped(child) {
        if child.Arr? {
          arrayLens := arrayLens[key := |child.elems|];
        }
        ArrayLensSnoc(out, Field(key, child));
        out := out + [Field(key, child)];
      }
    }
    assert fields[..|fields|] == fields;
  }

  /** The element loop. */
  method SimplifyElems(elems: seq<Json>, deep: bool) returns (out: seq<Json>)
    ensures out == KeptElems(elems, deep)
    decreases elems, 0
  {
    out := [];
    for i := 0 to |elems|
      invariant out == KeptElems(elems[..i], deep)
    {
      var child := SimplifyValue(elems[i], deep);
      KeptElemsSnoc(elems[..i], elems[i], deep);
      assert elems[..i + 1] == elems[..i] + [elems[i]];
      if !IsDropped(child) {
        out := out + [child];
      }
    }
    assert elems[..|elems|] == elems;
  }

  lemma {:induction false} KeptElemsSnoc(es: seq<Json>, e: Json, deep: bool)
    ensures KeptElems(es + [e], deep) == KeptElems(es, deep)
         + (var c := Simplified(e, deep); if IsDropped(c) then [] else [c])
  {
    if es == [] {
      assert ([] + [e])[1..] == [];
    } else {
      assert (es + [e])[1..] == es[1..] + [e];
      KeptElemsSnoc(es[1..], e, deep);
    }
  }

  lemma {:induction false} KeptFieldsSnoc(fs: seq<Field>, f: Field, deep: bool)
    ensures KeptFields(fs + [f], deep) == KeptFields(fs, deep)
         + (var c := Simplified(f.val, deep); if IsDropped(c) then [] else [Field(f.key, c)])
  {
    if fs == [] {
      assert ([] + [f])[1..] == [];
    } else {
      assert (fs + [f])[1..] == fs[1..] + [f];
      KeptFieldsSnoc(fs[1..], f, deep);
    }
  }

  lemma ArrayLensSnoc(fs: seq<Field>, f: Field)
    ensures ArrayLens(fs + [f])
         == if f.val.Arr? then ArrayLens(fs)[f.key := |f.val.elems|] else ArrayLens(fs)
  {
    assert (fs + [f])[..|fs|] == fs;
  }

  /** One turn of the erasing loop: the member in the middle is taken out or passed over. */
  lemma PassOver(passed: seq<Field>, f: Field, rest: seq<Field>, lens: map<string, nat>)
    ensures var out, i := passed + ([f] + rest), |passed|;
            && out[i] == f
            && out[..i] + out[i + 1..] == passed + rest
            && out == (passed + [f]) + rest
    ensures passed + DropCounts([f] + rest, lens)
         == (if IsRedundant(f, lens) then passed else passed + [f]) + DropCounts(rest, lens)
  {
    assert ([f] + rest)[1..] == rest;
    assert passed + ([f] + DropCounts(rest, lens)) == (passed + [f]) + DropCounts(rest, lens);
  }

  /** The erase-while-iterating pass over the members already kept. */
  method EraseCounts(kept: seq<Field>, lens: map<string, nat>) returns (out: seq<Field>)
    ensures out == DropCounts(kept, lens)
  {
    out := kept;
    var i := 0;
    ghost var passed, ahead := [], kept;
    while i < |out|
      invariant i == |passed| && out == passed + ahead
      invariant DropCounts(kept, lens) == passed + DropCounts(ahead, lens)
      decreases |ahead|
    {
      ghost var f, rest := ahead[0], ahead[1..];
      PassOver(passed, f, rest, lens);
      assert ahead == [f] + rest && out[i] == f;
      if IsRedundant(out[i], lens) {
        out := out[..i] + out[i + 1..];
      } else {
        passed := passed + [f];
        i := i + 1;
      }
      ahead := rest;
    }
  }

  lemma {:induction false} DropCountsSnoc(fs: seq<Field>, f: Field, lens: map<string, nat>)
    ensures DropCounts(fs + [f], lens)
         == DropCounts(fs, lens) + (if IsRedundant(f, lens) then [] else [f])
  {
    if fs != [] {
      assert (fs + [f])[1..] == fs[1..] + [f];
      DropCountsSnoc(fs[1..], f, lens);
    }
  }
}
