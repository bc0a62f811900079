/** Simplifying never makes the compact printed form longer, and keeps its
    length only by changing nothing. */
module SimplifierSize {
  import opened JsonValues
  import opened Simplifier
  import SimplifierAlgebra

  /** Printed elements, each counted with one separator. */
  ghost function ElemsWeight(es: seq<Json>): nat
  {
    if es == [] then 0 else |Dump(es[0])| + 1 + ElemsWeight(es[1..])
  }

  ghost function FieldsWeight(fs: seq<Field>): nat
  {
    if fs == [] then 0 else |DumpField(fs[0])| + 1 + FieldsWeight(fs[1..])
  }

  lemma {:induction false} ElemsLength(es: seq<Json>)
    ensures |DumpElems(es)| == if es == [] then 0 else ElemsWeight(es) - 1
  {
    if |es| > 1 {
      ElemsLength(es[1..]);
    }
  }

  lemma {:induction false} FieldsLength(fs: seq<Field>)
    ensures |DumpFields(fs)| == if fs == [] then 0 else FieldsWeight(fs) - 1
  {
    if |fs| > 1 {
      FieldsLength(fs[1..]);
    }
  }

  lemma DroppedIsPrinted(v: Json)
    requires IsDropped(v)
    ensures |Dump(v)| >= 2
  {
  }

  /** The saving is never negative, and is zero exactly when nothing changed. */
  lemma {:induction false} NeverLonger(v: Json, deep: bool)
    ensures |Dump(Simplified(v, deep))| <= |Dump(v)|
    ensures |Dump(Simplified(v, deep))| == |Dump(v)| <==> Simplified(v, deep) == v
    decreases v, 1
  {
    match v
    case Arr(es) =>
      ElemsNeverLonger(es, deep);
      ElemsLength(es);
      ElemsLength(KeptElems(es, deep));
    case Obj(fs) =>
      var kept := KeptFields(fs, deep);
      FieldsNeverLonger(fs, deep);
      FieldsLength(fs);
      var out := Simplified(v, deep).fields;
      FieldsLength(out);
      if deep {
        ErasureNeverLonger(kept, ArrayLens(kept));
        if kept != [] {
          SimplifierAlgebra.ErasureNeverEmpties(kept);
        }
      }
    case _ =>
  }

  lemma {:induction false} ElemsNeverLonger(es: seq<Json>, deep: bool)
    ensures ElemsWeight(KeptElems(es, deep)) <= ElemsWeight(es)
    ensures ElemsWeight(KeptElems(es, deep)) == ElemsWeight(es) ==> KeptElems(es, deep) == es
    ensures es != [] && KeptElems(es, deep) == [] ==> ElemsWeight(es) > 1
    decreases es, 0
  {
    if es != [] {
      NeverLonger(es[0], deep);
      ElemsNeverLonger(es[1..], deep);
      var child := Simplified(es[0], deep);
      if IsDropped(child) {
        DroppedIsPrinted(child);
      } else {
        assert KeptElems(es, deep)[1..] == KeptElems(es[1..], deep);
      }
    }
  }

  lemma {:induction false} FieldsNeverLonger(fs: seq<Field>, deep: bool)
    ensures FieldsWeight(KeptFields(fs, deep)) <= FieldsWeight(fs)
    ensures FieldsWeight(KeptFields(fs, deep)) == FieldsWeight(fs) ==> KeptFields(fs, deep) == fs
    ensures fs != [] ==> FieldsWeight(fs) > 1
    decreases fs, 0
  {
    if fs != [] {
      NeverLonger(fs[0].val, deep);
      FieldsNeverLonger(fs[1..], deep);
      var child := Simplified(fs[0].val, deep);
      if !IsDropped(child) {
        assert KeptFields(fs, deep)[1..] == KeptFields(fs[1..], deep);
        assert Field(fs[0].key, fs[0].val) == fs[0];
      }
    }
  }

  lemma {:induction false} ErasureNeverLonger(fs: seq<Field>, lens: map<string, nat>)
    ensures FieldsWeight(DropCounts(fs, lens)) <= FieldsWeight(fs)
    ensures FieldsWeight(DropCounts(fs, lens)) == FieldsWeight(fs) ==> DropCounts(fs, lens) == fs
  {
    if fs != [] {
      ErasureNeverLonger(fs[1..], lens);
      if !IsRedundant(fs[0], lens) {
        assert DropCounts(fs, lens)[1..] == DropCounts(fs[1..], lens);
      }
    }
  }
}
