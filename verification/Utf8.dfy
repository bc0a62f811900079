/** The texts the JSON printer accepts are exactly the UTF-8 forms of Unicode texts. */
module Utf8 {
  import opened JsonValues

  /** A Unicode scalar value: a code point that is no surrogate. */
  predicate IsScalar(n: nat)
  {
    n < 0xD800 || 0xE000 <= n < 0x11_0000
  }

  /** The octets of section 3 of RFC 3629. */
  function Encoded(n: nat): (s: string)
    requires IsScalar(n)
    ensures 1 <= |s| <= 4
  {
    if n < 0x80 then [n as char]
    else if n < 0x800 then [(0xC0 + n / 64) as char, (0x80 + n % 64) as char]
    else if n < 0x1_0000 then
      [(0xE0 + n / 64 / 64) as char, (0x80 + n / 64 % 64) as char, (0x80 + n % 64) as char]
    else
      [(0xF0 + n / 64 / 64 / 64) as char, (0x80 + n / 64 / 64 % 64) as char,
       (0x80 + n / 64 % 64) as char, (0x80 + n % 64) as char]
  }

  ghost predicate AreScalars(text: seq<nat>)
  {
    forall n | n in text :: IsScalar(n)
  }

  ghost function EncodedText(text: seq<nat>): string
    requires AreScalars(text)
  {
    if text == [] then "" else Encoded(text[0]) + EncodedText(text[1..])
  }

  /** An encoded scalar is read back as one character, whatever follows. */
  lemma EncodedIsOneCharacter(n: nat, rest: string)
    requires IsScalar(n)
    ensures CharLength(Encoded(n) + rest) == |Encoded(n)|
  {
    var s := Encoded(n) + rest;
    assert forall i | 0 <= i < |Encoded(n)| :: s[i] == Encoded(n)[i];
  }

  lemma {:induction false} EncodedTextIsUtf8(text: seq<nat>)
    requires AreScalars(text)
    ensures IsUtf8(EncodedText(text))
  {
    if text != [] {
      EncodedTextIsUtf8(text[1..]);
      EncodedIsOneCharacter(text[0], EncodedText(text[1..]));
      var s := EncodedText(text);
      assert s[|Encoded(text[0])|..] == EncodedText(text[1..]);
    }
  }

  /** One more six-bit digit. */
  function Shifted(n: nat, c: char): nat
    requires 0x80 <= c as int <= 0xBF
  {
    n * 64 + (c as int - 0x80)
  }

  lemma ShiftedDigits(n: nat, c: char)
    requires 0x80 <= c as int <= 0xBF
    ensures Shifted(n, c) / 64 == n && Shifted(n, c) % 64 == c as int - 0x80
  {
  }

  lemma TwoOctets(a: char, b: char)
    requires 0xC2 <= a as int <= 0xDF && 0x80 <= b as int <= 0xBF
    ensures var n := Shifted(a as int - 0xC0, b);
            IsScalar(n) && Encoded(n) == [a, b]
  {
    ShiftedDigits(a as int - 0xC0, b);
  }

  lemma ThreeOctets(a: char, b: char, c: char)
    requires 0xE0 <= a as int <= 0xEF && 0x80 <= b as int <= 0xBF && 0x80 <= c as int <= 0xBF
    requires a as int == 0xE0 ==> 0xA0 <= b as int
    requires a as int == 0xED ==> b as int <= 0x9F
    ensures var n := Shifted(Shifted(a as int - 0xE0, b), c);
            IsScalar(n) && Encoded(n) == [a, b, c]
  {
    ShiftedDigits(a as int - 0xE0, b);
    ShiftedDigits(Shifted(a as int - 0xE0, b), c);
  }

  lemma FourOctets(a: char, b: char, c: char, d: char)
    requires 0xF0 <= a as int <= 0xF4 && 0x80 <= b as int <= 0xBF
    requires 0x80 <= c as int <= 0xBF && 0x80 <= d as int <= 0xBF
    requires a as int == 0xF0 ==> 0x90 <= b as int
    requires a as int == 0xF4 ==> b as int <= 0x8F
    ensures var n := Shifted(Shifted(Shifted(a as int - 0xF0, b), c), d);
            IsScalar(n) && Encoded(n) == [a, b, c, d]
  {
    ShiftedDigits(a as int - 0xF0, b);
    ShiftedDigits(Shifted(a as int - 0xF0, b), c);
    ShiftedDigits(Shifted(Shifted(a as int - 0xF0, b), c), d);
  }

  lemma CharacterIsEncoded(s: string) returns (n: nat)
    requires s != "" && CharLength(s) > 0
    ensures IsScalar(n) && Encoded(n) == s[..CharLength(s)]
  {
    var length := CharLength(s);
    if length == 1 {
      n := s[0] as int;
    } else if length == 2 {
      n := Shifted(s[0] as int - 0xC0, s[1]);
      TwoOctets(s[0], s[1]);
    } else if length == 3 {
      n := Shifted(Shifted(s[0] as int - 0xE0, s[1]), s[2]);
      ThreeOctets(s[0], s[1], s[2]);
    } else {
      n := Shifted(Shifted(Shifted(s[0] as int - 0xF0, s[1]), s[2]), s[3]);
      FourOctets(s[0], s[1], s[2], s[3]);
    }
  }

  lemma {:induction false} Utf8IsEncodedText(s: string) returns (text: seq<nat>)
    requires IsUtf8(s)
    ensures AreScalars(text) && EncodedText(text) == s
  {
    if s == "" {
      text := [];
    } else {
      var n := CharLength(s);
      var rest := Utf8IsEncodedText(s[n..]);
      var first := CharacterIsEncoded(s);
      text := [first] + rest;
      assert text[1..] == rest;
      assert s == s[..n] + s[n..];
    }
  }

  /** A text passes the printer's check exactly when it is the UTF-8 form of a sequence of Unicode
      scalar values. */
  lemma Utf8IffEncodes(s: string)
    ensures IsUtf8(s) <==> exists text :: AreScalars(text) && EncodedText(text) == s
  {
    if IsUtf8(s) {
      var text := Utf8IsEncodedText(s);
    }
    forall text | AreScalars(text) && EncodedText(text) == s ensures IsUtf8(s) {
      EncodedTextIsUtf8(text);
    }
  }
}
