/** What the printer accepts, it prints as UTF-8. */
module PrintedText {
  import opened Encodings
  import opened JsonValues

  lemma {:induction false} JoinIsUtf8(a: string, b: string)
    requires IsUtf8(a) && IsUtf8(b)
    ensures IsUtf8(a + b)
  {
    if a == "" {
      assert a + b == b;
    } else {
      var n := CharLength(a);
      SameFirstChar(a, b);
      JoinIsUtf8(a[n..], b);
      assert (a + b)[n..] == a[n..] + b;
    }
  }

  /** What follows a complete character does not change it. */
  lemma SameFirstChar(a: string, b: string)
    requires a != "" && CharLength(a) > 0
    ensures CharLength(a + b) == CharLength(a)
  {
    assert forall i | 0 <= i < |a| :: (a + b)[i] == a[i];
  }

  // ---- Escaping ----

  lemma EscapeCharIsAscii(c: char)
    requires c as int < 0x80
    ensures IsAscii(EscapeChar(c))
  {
    if c as int < 32 {
      HexIsAscii(c as int, 4);
    }
  }

  lemma {:induction false} HexIsAscii(n: nat, width: nat)
    ensures IsAscii(Hex(n, width))
  {
    if width > 0 {
      HexIsAscii(n / 16, width - 1);
    }
  }

  lemma {:induction false} DecimalIsAscii(n: nat)
    ensures IsAscii(Decimal(n))
  {
    if n >= 10 {
      DecimalIsAscii(n / 10);
    }
  }

  lemma HighIsCopied(c: char)
    requires c as int >= 0x80
    ensures EscapeChar(c) == [c]
  {
  }

  /** Escaping copies bytes outside ASCII. */
  lemma {:induction false} EscapeCopies(s: string, n: nat)
    requires n <= |s| && forall i | 0 <= i < n :: s[i] as int >= 0x80
    ensures Escape(s) == s[..n] + Escape(s[n..])
  {
    if n == 0 {
      assert s[..0] == "" && s[0..] == s;
    } else {
      var rest := s[1..];
      HighIsCopied(s[0]);
      EscapeCopies(rest, n - 1);
      CopiedNext(s[0], rest, n - 1, Escape(rest[n - 1..]));
      assert s == [s[0]] + rest;
    }
  }

  lemma CopiedNext(c: char, rest: string, n: nat, tail: string)
    requires n <= |rest|
    ensures [c] + (rest[..n] + tail) == ([c] + rest)[..n + 1] + tail
    ensures ([c] + rest)[n + 1..] == rest[n..]
  {
  }

  lemma FirstCharIsHigh(s: string)
    requires s != "" && CharLength(s) > 1
    ensures forall i | 0 <= i < CharLength(s) :: s[i] as int >= 0x80
    ensures CharLength(s[..CharLength(s)]) == CharLength(s)
  {
  }

  lemma {:induction false} EscapeIsUtf8(s: string)
    requires IsUtf8(s)
    ensures IsUtf8(Escape(s))
    decreases |s|
  {
    if s != "" {
      var n := CharLength(s);
      EscapeIsUtf8(s[n..]);
      if n == 1 {
        EscapeCharIsAscii(s[0]);
        AsciiPrefix(EscapeChar(s[0]), Escape(s[1..]));
      } else {
        FirstCharIsHigh(s);
        EscapeCopies(s, n);
        assert IsUtf8(s[..n]) by { assert s[..n][n..] == ""; }
        JoinIsUtf8(s[..n], Escape(s[n..]));
      }
    }
  }

  /** A text between two plain ones. */
  lemma EnclosedIsUtf8(before: string, text: string, after: string)
    requires IsAscii(before) && IsUtf8(text) && IsAscii(after)
    ensures IsUtf8(before + text + after)
  {
    AsciiPrefix(before, text);
    AsciiIsUtf8(after);
    JoinIsUtf8(before + text, after);
  }

  lemma QuoteIsUtf8(s: string)
    requires IsUtf8(s)
    ensures IsUtf8(Quote(s))
  {
    EscapeIsUtf8(s);
    EnclosedIsUtf8("\"", Escape(s), "\"");
  }

  // ---- Printing ----

  lemma PlainValueIsUtf8(v: Json)
    requires v.Null? || v.Bool? || v.Int? || v.Float?
    ensures IsUtf8(Dump(v))
  {
    if v.Int? {
      DecimalIsAscii(if v.i < 0 then -v.i else v.i);
    }
    AsciiIsUtf8(Dump(v));
  }

  /** An encodable value prints as UTF-8. */
  lemma {:induction false} DumpIsUtf8(v: Json)
    requires Encodable(v)
    ensures IsUtf8(Dump(v))
    decreases v, 1
  {
    match v
    case Str(s) => QuoteIsUtf8(s);
    case Arr(es) =>
      DumpElemsIsUtf8(es);
      EnclosedIsUtf8("[", DumpElems(es), "]");
    case Obj(fs) =>
      DumpFieldsIsUtf8(fs);
      EnclosedIsUtf8("{", DumpFields(fs), "}");
    case _ => PlainValueIsUtf8(v);
  }

  /** Two texts with a plain separator between them. */
  lemma SeparatedIsUtf8(a: string, separator: string, b: string)
    requires IsUtf8(a) && IsAscii(separator) && IsUtf8(b)
    ensures IsUtf8(a + separator + b)
  {
    AsciiIsUtf8(separator);
    JoinIsUtf8(a, separator);
    JoinIsUtf8(a + separator, b);
  }

  lemma {:induction false} DumpElemsIsUtf8(es: seq<Json>)
    requires forall e | e in es :: Encodable(e)
    ensures IsUtf8(DumpElems(es))
    decreases es, 0
  {
    if es != [] {
      DumpIsUtf8(es[0]);
      DumpElemsIsUtf8(es[1..]);
      SeparatedIsUtf8(Dump(es[0]), ",", DumpElems(es[1..]));
    }
  }

  lemma {:induction false} DumpFieldsIsUtf8(fs: seq<Field>)
    requires forall f | f in fs :: IsUtf8(f.key) && Encodable(f.val)
    ensures IsUtf8(DumpFields(fs))
    decreases fs, 0
  {
    if fs != [] {
      QuoteIsUtf8(fs[0].key);
      DumpIsUtf8(fs[0].val);
      SeparatedIsUtf8(Quote(fs[0].key), ":", Dump(fs[0].val));
      DumpFieldsIsUtf8(fs[1..]);
      SeparatedIsUtf8(DumpField(fs[0]), ",", DumpFields(fs[1..]));
    }
  }
}
