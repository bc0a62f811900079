/** JSON values as the server's JSON library holds them, and their compact printing. */
module JsonValues {
  import opened Encodings
  import opened Results

  /** The printer writes a number with visible ASCII characters only. */
  predicate IsNumberText(text: string)
  {
    forall i | 0 <= i < |text| :: 0x20 < text[i] as int < 0x7F
  }

  type NumberText = text: string | IsNumberText(text) witness "0"

  /** An object is the sequence of its members in iteration order.
      A float carries the text the printer gives it and the integer it truncates to. */
  datatype Json =
    | Null
    | Bool(b: bool)
    | Int(i: int)
    | Float(text: NumberText, whole: int)
    | Str(s: string)
    | Arr(elems: seq<Json>)
    | Obj(fields: seq<Field>)

  datatype Field = Field(key: string, val: Json)

  ghost predicate UniqueKeys(fs: seq<Field>)
  {
    forall i, j :: 0 <= i < j < |fs| ==> fs[i].key != fs[j].key
  }

  /** Object keys are unique, at every depth. */
  ghost predicate WellFormed(v: Json)
  {
    match v
    case Arr(es) => forall e | e in es :: WellFormed(e)
    case Obj(fs) => UniqueKeys(fs) && forall f | f in fs :: WellFormed(f.val)
    case _ => true
  }

  // ---- Text the printer accepts ----

  predicate ByteIn(s: string, i: nat, low: int, high: int)
  {
    i < |s| && low <= s[i] as int <= high
  }

  /** The length of the first character by the grammar of section 4 of RFC 3629, or 0. A `char`
      stands for one byte. */
  function CharLength(s: string): (n: nat)
    requires s != ""
    ensures n <= |s|
  {
    var b := s[0] as int;
    if b < 0x80 then 1
    else if 0xC2 <= b <= 0xDF then (if ByteIn(s, 1, 0x80, 0xBF) then 2 else 0)
    else if 0xE0 <= b <= 0xEF then
      var low, high := if b == 0xE0 then 0xA0 else 0x80, if b == 0xED then 0x9F else 0xBF;
      (if ByteIn(s, 1, low, high) && ByteIn(s, 2, 0x80, 0xBF) then 3 else 0)
    else if 0xF0 <= b <= 0xF4 then
      var low, high := if b == 0xF0 then 0x90 else 0x80, if b == 0xF4 then 0x8F else 0xBF;
      (if ByteIn(s, 1, low, high) && ByteIn(s, 2, 0x80, 0xBF) && ByteIn(s, 3, 0x80, 0xBF) then 4 else 0)
    else 0
  }

  predicate IsUtf8(s: string)
  {
    s == "" || (CharLength(s) > 0 && IsUtf8(s[CharLength(s)..]))
  }

  /** The printer accepts the value: it throws when a key or a string is not UTF-8. */
  predicate Encodable(v: Json)
  {
    match v
    case Str(s) => IsUtf8(s)
    case Arr(es) => forall e | e in es :: Encodable(e)
    case Obj(fs) => forall f | f in fs :: IsUtf8(f.key) && Encodable(f.val)
    case _ => true
  }

  predicate IsAscii(s: string)
  {
    forall i | 0 <= i < |s| :: s[i] as int < 0x80
  }

  /** A plain prefix neither breaks nor mends a text. */
  lemma {:induction false} AsciiPrefix(a: string, b: string)
    requires IsAscii(a)
    ensures IsUtf8(a + b) == IsUtf8(b)
  {
    if a == "" {
      assert a + b == b;
    } else {
      assert (a + b)[0] == a[0] && (a + b)[1..] == a[1..] + b;
      assert CharLength(a + b) == 1;
      AsciiPrefix(a[1..], b);
    }
  }

  lemma AsciiIsUtf8(s: string)
    requires IsAscii(s)
    ensures IsUtf8(s)
  {
    AsciiPrefix(s, "");
    assert s + "" == s;
  }

  // ---- Member access ----

  function Lookup(fs: seq<Field>, key: string): (r: Option<Json>)
    ensures r.Some? <==> exists f :: f in fs && f.key == key
    ensures r.Some? ==> Field(key, r.value) in fs
  {
    if fs == [] then None
    else if fs[0].key == key then Some(fs[0].val)
    else
      assert forall f :: f in fs ==> f == fs[0] || f in fs[1..];
      Lookup(fs[1..], key)
  }

  lemma LookupCons(key: string, val: Json, rest: seq<Field>, wanted: string)
    ensures Lookup([Field(key, val)] + rest, wanted)
         == if key == wanted then Some(val) else Lookup(rest, wanted)
  {
    assert ([Field(key, val)] + rest)[1..] == rest;
  }

  lemma LookupTwo(a: Field, b: Field, key: string)
    ensures Lookup([a, b], key)
         == if a.key == key then Some(a.val) else if b.key == key then Some(b.val) else None
  {
    assert [a, b][1..] == [b] && [b][1..] == [];
  }

  lemma LookupThree(a: Field, b: Field, c: Field, key: string)
    ensures Lookup([a, b, c], key)
         == if a.key == key then Some(a.val) else if b.key == key then Some(b.val)
            else if c.key == key then Some(c.val) else None
  {
    assert [a, b, c][1..] == [b, c] && [b, c][1..] == [c] && [c][1..] == [];
  }

  lemma LookupFour(a: Field, b: Field, c: Field, d: Field, key: string)
    ensures Lookup([a, b, c, d], key) == if a.key == key then Some(a.val) else Lookup([b, c, d], key)
  {
    assert [a, b, c, d][1..] == [b, c, d];
  }

  /** The member of an object; None when absent or when the value is no object. */
  function Member(v: Json, key: string): Option<Json>
  {
    if v.Obj? then Lookup(v.fields, key) else None
  }

  function OrElse(v: Option<Json>, default: Json): Json
  {
    if v.Some? then v.value else default
  }

  /** An object without the member of that name. */
  function Without(fs: seq<Field>, key: string): (r: seq<Field>)
    ensures forall f :: f in r <==> f in fs && f.key != key
  {
    if fs == [] then []
    else
      assert forall f :: f in fs <==> f == fs[0] || f in fs[1..];
      if fs[0].key == key then Without(fs[1..], key)
      else [fs[0]] + Without(fs[1..], key)
  }

  /** Erasing one member does not disturb another. */
  lemma {:induction false} LookupWithout(fs: seq<Field>, erased: string, wanted: string)
    requires erased != wanted
    ensures Lookup(Without(fs, erased), wanted) == Lookup(fs, wanted)
  {
    if fs != [] {
      LookupWithout(fs[1..], erased, wanted);
      if fs[0].key != erased {
        LookupCons(fs[0].key, fs[0].val, Without(fs[1..], erased), wanted);
        assert [Field(fs[0].key, fs[0].val)] == [fs[0]];
      }
    }
  }

  function Erase(v: Json, key: string): Json
  {
    if v.Obj? then Obj(Without(v.fields, key)) else v
  }

  // ---- Compact printing ----

  function EscapeChar(c: char): string
  {
    if c == '\"' then "\\\""
    else if c == '\\' then "\\\\"
    else if c == '\n' then "\\n"
    else if c == '\r' then "\\r"
    else if c == '\t' then "\\t"
    else if c as int == 8 then "\\b"
    else if c as int == 12 then "\\f"
    else if c as int < 32 then "\\u" + Hex(c as int, 4)
    else [c]
  }

  function Escape(s: string): string
  {
    if s == "" then "" else EscapeChar(s[0]) + Escape(s[1..])
  }

  function Quote(s: string): string
  {
    "\"" + Escape(s) + "\""
  }

  function IntText(i: int): string
  {
    if i < 0 then "-" + Decimal(-i) else Decimal(i)
  }

  function Dump(v: Json): string
    decreases v, 1
  {
    match v
    case Null => "null"
    case Bool(b) => if b then "true" else "false"
    case Int(i) => IntText(i)
    case Float(text, _) => text
    case Str(s) => Quote(s)
    case Arr(es) => "[" + DumpElems(es) + "]"
    case Obj(fs) => "{" + DumpFields(fs) + "}"
  }

  function DumpElems(es: seq<Json>): string
    decreases es, 0
  {
    if es == [] then ""
    else if |es| == 1 then Dump(es[0])
    else Dump(es[0]) + "," + DumpElems(es[1..])
  }

  function DumpField(f: Field): string
    decreases f, 2
  {
    Quote(f.key) + ":" + Dump(f.val)
  }

  function DumpFields(fs: seq<Field>): string
    decreases fs, 0
  {
    if fs == [] then ""
    else if |fs| == 1 then DumpField(fs[0])
    else DumpField(fs[0]) + "," + DumpFields(fs[1..])
  }

  // ---- The printed form is one line ----

  lemma {:induction false} EscapeHasNoNewline(s: string)
    ensures '\n' !in Escape(s)
  {
    if s != "" {
      EscapeHasNoNewline(s[1..]);
      EscapeCharHasNoNewline(s[0]);
    }
  }

  lemma EscapeCharHasNoNewline(c: char)
    ensures '\n' !in EscapeChar(c)
  {
    if c as int < 32 {
      HexHasNoNewline(c as int, 4);
    }
  }

  lemma {:induction false} HexHasNoNewline(n: nat, width: nat)
    ensures '\n' !in Hex(n, width)
  {
    if width > 0 {
      HexHasNoNewline(n / 16, width - 1);
    }
  }

  lemma PlainValueIsOneLine(v: Json)
    requires v.Null? || v.Bool? || v.Int? || v.Float?
    ensures '\n' !in Dump(v)
  {
    if v.Int? {
      DecimalHasNoNewline(if v.i < 0 then -v.i else v.i);
    }
  }

  lemma EnclosedIsOneLine(before: string, text: string, after: string)
    requires '\n' !in before && '\n' !in text && '\n' !in after
    ensures '\n' !in before + text + after
  {
  }

  /** Section 7 of RFC 8259 asks control characters to be escaped inside strings;
      the compact printer adds no white space, so its output is a single line. */
  lemma {:induction false} DumpIsOneLine(v: Json)
    ensures '\n' !in Dump(v)
    decreases v, 1
  {
    match v
    case Str(s) =>
      EscapeHasNoNewline(s);
      EnclosedIsOneLine("\"", Escape(s), "\"");
    case Arr(es) =>
      DumpElemsIsOneLine(es);
      EnclosedIsOneLine("[", DumpElems(es), "]");
    case Obj(fs) =>
      DumpFieldsIsOneLine(fs);
      EnclosedIsOneLine("{", DumpFields(fs), "}");
    case _ => PlainValueIsOneLine(v);
  }

  lemma {:induction false} DumpElemsIsOneLine(es: seq<Json>)
    ensures '\n' !in DumpElems(es)
    decreases es, 0
  {
    if es != [] {
      DumpIsOneLine(es[0]);
      DumpElemsIsOneLine(es[1..]);
    }
  }

  lemma {:induction false} DumpFieldsIsOneLine(fs: seq<Field>)
    ensures '\n' !in DumpFields(fs)
    decreases fs, 0
  {
    if fs != [] {
      EscapeHasNoNewline(fs[0].key);
      DumpIsOneLine(fs[0].val);
      DumpFieldsIsOneLine(fs[1..]);
    }
  }
}
