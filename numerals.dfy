/**
 * Python's integer-to-text conversions as the client uses them: `hex(n)` for model
 * handles, attribute ids and landscape bounds, and `str(n)` for integer values put
 * into a filter or an update. Both write the magnitude in a base without leading
 * zeros, in lower case, after an optional "-" and a prefix ("0x" for hex, none for
 * str). Each comes with a reader that recovers the integer, as its inverse.
 */
module Numerals {
  import opened Wrappers

  type Base = b: nat | 2 <= b <= 16 witness 10

  /** The digit character for `d`: '0'..'9', then 'a'..'f'. */
  function DigitChar(d: nat): (c: char)
    requires d < 16
    ensures d < 10 ==> '0' <= c <= '9'
    ensures 10 <= d ==> 'a' <= c <= 'f'
  {
    if d < 10 then ('0' as int + d) as char else ('a' as int + d - 10) as char
  }

  /** Whether `c` is a digit of `base` as DigitChar writes it. */
  predicate IsDigit(c: char, base: Base) {
    ('0' <= c <= '9' && (c as int - '0' as int) < base)
    || ('a' <= c <= 'f' && (c as int - 'a' as int) + 10 < base)
  }

  /** The value of a digit character. */
  function DigitValue(c: char, base: Base): (d: nat)
    requires IsDigit(c, base)
    ensures d < base
  {
    if '0' <= c <= '9' then c as int - '0' as int else c as int - 'a' as int + 10
  }

  lemma DigitRoundTrip(d: nat, base: Base)
    requires d < base
    ensures IsDigit(DigitChar(d), base) && DigitValue(DigitChar(d), base) == d
  {
  }

  predicate AllDigits(s: string, base: Base) {
    forall i :: 0 <= i < |s| ==> IsDigit(s[i], base)
  }

  /** Peeling off the last digit of a number with more than one digit leaves a smaller, non-zero number. */
  lemma DivStep(n: nat, base: Base)
    requires n >= base
    ensures 1 <= n / base < n && 0 <= n % base < base
    ensures n == n / base * base + n % base
  {
    var q, r := n / base, n % base;
    assert n == base * q + r && 0 <= r < base;
    assert (base - 1) * q >= 0;
    assert base * q == q * base;
  }

  /** The digits of `n` in `base`, most significant first: never empty and without a leading zero. */
  function Digits(n: nat, base: Base): (r: string)
    ensures |r| >= 1
    ensures AllDigits(r, base)
    ensures r[0] == '0' <==> n == 0
    decreases n
  {
    if n < base then
      DigitRoundTrip(n, base);
      [DigitChar(n)]
    else
      DivStep(n, base);
      DigitRoundTrip(n % base, base);
      Digits(n / base, base) + [DigitChar(n % base)]
  }

  /** The number a string of digits stands for, read most significant digit first. */
  function ValueOf(s: string, base: Base): nat
    requires AllDigits(s, base)
  {
    if s == [] then 0 else ValueOf(s[..|s| - 1], base) * base + DigitValue(s[|s| - 1], base)
  }

  lemma {:induction false} ValueOfDigits(n: nat, base: Base)
    ensures ValueOf(Digits(n, base), base) == n
    decreases n
  {
    var s := Digits(n, base);
    if n < base {
      DigitRoundTrip(n, base);
      assert s == [DigitChar(n)];
      assert s[..0] == [];
    } else {
      DivStep(n, base);
      var q, d := n / base, n % base;
      DigitRoundTrip(d, base);
      ValueOfDigits(q, base);
      assert s == Digits(q, base) + [DigitChar(d)];
      assert s[..|s| - 1] == Digits(q, base) && s[|s| - 1] == DigitChar(d);
      assert ValueOf(s, base) == ValueOf(Digits(q, base), base) * base + DigitValue(DigitChar(d), base);
    }
  }

  /** An integer written as Python writes it: "-" for a negative number, then the prefix, then the digits. */
  function Signed(n: int, base: Base, prefix: string): string {
    if n < 0 then "-" + prefix + Digits(-n, base) else prefix + Digits(n, base)
  }

  /** Python's `hex(n)`: "0x1006e", "-0x5", "0x0". */
  function Hex(n: int): (r: string)
    ensures |r| >= 3
    ensures n >= 0 ==> r[..2] == "0x" && AllDigits(r[2..], 16) && (r[2] == '0' <==> n == 0)
    ensures n < 0 ==> |r| >= 4 && r[..3] == "-0x" && AllDigits(r[3..], 16) && r[3] != '0'
    ensures n == 0 ==> r == "0x0"
  {
    var r := Signed(n, 16, "0x");
    assert n >= 0 ==> r[2..] == Digits(n, 16);
    assert n < 0 ==> r[3..] == Digits(-n, 16);
    r
  }

  /** Python's `str(n)` for an integer: "65611", "-3". */
  function Decimal(n: int): (r: string)
    ensures |r| >= 1
    ensures n >= 0 ==> AllDigits(r, 10) && (r[0] == '0' <==> n == 0)
    ensures n < 0 ==> |r| >= 2 && r[0] == '-' && AllDigits(r[1..], 10) && r[1] != '0'
    ensures n == 0 ==> r == "0"
  {
    var r := Signed(n, 10, "");
    assert n >= 0 ==> r == Digits(n, 10);
    assert n < 0 ==> r[1..] == Digits(-n, 10);
    r
  }

  /** Reads an unsigned numeral: the prefix followed by at least one digit. */
  function ParseUnsigned(s: string, base: Base, prefix: string): Option<nat> {
    if |s| > |prefix| && s[..|prefix|] == prefix && AllDigits(s[|prefix|..], base)
    then Some(ValueOf(s[|prefix|..], base))
    else None
  }

  /** Reads a numeral as Signed writes it. */
  function ParseSigned(s: string, base: Base, prefix: string): Option<int> {
    if |s| > 0 && s[0] == '-' then
      match ParseUnsigned(s[1..], base, prefix)
      case Some(v) => Some(-(v as int))
      case None => None
    else
      match ParseUnsigned(s, base, prefix)
      case Some(v) => Some(v as int)
      case None => None
  }

  /** Reading back what Signed writes gives the integer again, for any base and any prefix without a "-". */
  lemma SignedRoundTrip(n: int, base: Base, prefix: string)
    requires forall i :: 0 <= i < |prefix| ==> prefix[i] != '-'
    ensures ParseSigned(Signed(n, base, prefix), base, prefix) == Some(n)
  {
    var m: nat := if n < 0 then -n else n;
    var d := Digits(m, base);
    ValueOfDigits(m, base);
    var u := prefix + d;
    assert u[..|prefix|] == prefix && u[|prefix|..] == d;
    assert ParseUnsigned(u, base, prefix) == Some(m);
    if n < 0 {
      assert Signed(n, base, prefix) == "-" + u;
      assert ("-" + u)[1..] == u;
    } else {
      assert Signed(n, base, prefix) == u;
      assert u[0] != '-' by {
        if |prefix| == 0 { assert u[0] == d[0] && IsDigit(d[0], base); }
      }
    }
  }

  function ParseHex(s: string): Option<int> { ParseSigned(s, 16, "0x") }

  function ParseDecimal(s: string): Option<int> { ParseSigned(s, 10, "") }

  /** `hex` loses nothing: its text reads back as the same integer. */
  lemma HexRoundTrip(n: int)
    ensures ParseHex(Hex(n)) == Some(n)
  {
    SignedRoundTrip(n, 16, "0x");
  }

  lemma DecimalRoundTrip(n: int)
    ensures ParseDecimal(Decimal(n)) == Some(n)
  {
    SignedRoundTrip(n, 10, "");
  }

  /** The characters numerals are made of: digits, the 'x' of the prefix and the sign. */
  predicate NumeralChar(c: char) {
    c == '-' || c == 'x' || '0' <= c <= '9' || 'a' <= c <= 'f'
  }

  lemma SignedChars(n: int, base: Base, prefix: string)
    requires forall i :: 0 <= i < |prefix| ==> NumeralChar(prefix[i])
    ensures forall i :: 0 <= i < |Signed(n, base, prefix)| ==> NumeralChar(Signed(n, base, prefix)[i])
  {
    var d := Digits(if n < 0 then -n else n, base);
    assert forall i :: 0 <= i < |d| ==> NumeralChar(d[i]) by {
      forall i | 0 <= i < |d| ensures NumeralChar(d[i]) { assert IsDigit(d[i], base); }
    }
  }

  lemma HexChars(n: int)
    ensures forall i :: 0 <= i < |Hex(n)| ==> NumeralChar(Hex(n)[i])
  {
    SignedChars(n, 16, "0x");
  }

  lemma DecimalChars(n: int)
    ensures forall i :: 0 <= i < |Decimal(n)| ==> NumeralChar(Decimal(n)[i])
  {
    SignedChars(n, 10, "");
  }

  /** Two integers with the same `hex` text are equal. */
  lemma HexInjective(a: int, b: int)
    ensures Hex(a) == Hex(b) <==> a == b
  {
    HexRoundTrip(a);
    HexRoundTrip(b);
  }
}
