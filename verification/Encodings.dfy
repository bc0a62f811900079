/** Positional text encodings of counters, as the id generators print them,
    with a decoder that inverts them. */
module Encodings {

  const DIGITS := "0123456789abcdef"

  const TWO_TO_64: nat := 0x1_0000_0000_0000_0000

  function DigitValue(c: char): (d: nat)
    ensures d < 16
  {
    if '0' <= c <= '9' then c as int - '0' as int
    else if 'a' <= c <= 'f' then c as int - 'a' as int + 10
    else 0
  }

  lemma DigitValueOfDigit(d: nat)
    requires d < 16
    ensures DigitValue(DIGITS[d]) == d
    ensures DIGITS[d] != '\n'
  {
  }

  /** The number a digit string denotes in the given base. */
  function Value(s: string, base: nat): nat
  {
    if s == "" then 0
    else Value(s[..|s| - 1], base) * base + DigitValue(s[|s| - 1])
  }

  /** Zero-padded hexadecimal digits, as "%016llx" prints them. */
  function Hex(n: nat, width: nat): (s: string)
    ensures |s| == width
  {
    if width == 0 then ""
    else Hex(n / 16, width - 1) + [DIGITS[n % 16]]
  }

  /** Digits without padding, as an output stream prints an unsigned integer. */
  function Decimal(n: nat): (s: string)
    ensures |s| > 0
  {
    if n < 10 then [DIGITS[n]] else Decimal(n / 10) + [DIGITS[n % 10]]
  }

  /** How many numbers a hexadecimal text of the given width can hold. */
  function HexCapacity(width: nat): (p: nat)
  {
    if width == 0 then 1 else 16 * HexCapacity(width - 1)
  }

  /** One step of decoding: the last digit and the rest. */
  lemma ValueSnoc(s: string, base: nat, d: nat)
    requires d < 16
    ensures Value(s + [DIGITS[d]], base) == Value(s, base) * base + d
  {
    DigitValueOfDigit(d);
    var t := s + [DIGITS[d]];
    assert t[..|t| - 1] == s;
  }

  lemma {:induction false} HexIsDigits(n: nat, width: nat)
    ensures forall c | c in Hex(n, width) :: '0' <= c <= '9' || 'a' <= c <= 'f'
  {
    if width > 0 {
      HexIsDigits(n / 16, width - 1);
    }
  }

  lemma {:induction false} DecimalIsDigits(n: nat)
    ensures forall c | c in Decimal(n) :: '0' <= c <= '9'
    ensures Decimal(n)[0] == '0' ==> n == 0
  {
    if n >= 10 {
      DecimalIsDigits(n / 10);
    }
  }

  lemma {:induction false} HexRoundTrip(n: nat, width: nat)
    requires n < HexCapacity(width)
    ensures Value(Hex(n, width), 16) == n
  {
    if width > 0 {
      HexRoundTrip(n / 16, width - 1);
      ValueSnoc(Hex(n / 16, width - 1), 16, n % 16);
    }
  }

  lemma {:induction false} DecimalRoundTrip(n: nat)
    ensures Value(Decimal(n), 10) == n
  {
    if n < 10 {
      ValueSnoc("", 10, n);
      assert "" + [DIGITS[n]] == Decimal(n);
    } else {
      DecimalRoundTrip(n / 10);
      ValueSnoc(Decimal(n / 10), 10, n % 10);
    }
  }

  lemma {:induction false} DecimalHasNoNewline(n: nat)
    ensures '\n' !in Decimal(n)
  {
    if n >= 10 {
      DecimalHasNoNewline(n / 10);
    }
  }

  lemma SixteenHexDigitsHold64Bits()
    ensures HexCapacity(16) == TWO_TO_64
  {
    assert HexCapacity(4) == 0x1_0000;
    assert HexCapacity(8) == 0x1_0000_0000;
    assert HexCapacity(12) == 0x1_0000_0000_0000;
  }
}
