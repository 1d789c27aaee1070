/**
 * Java's fixed-width integers as the forwarding code uses them: the `int` and
 * `long` ranges, `long` arithmetic that wraps modulo 2^64, and the decimal
 * conversions `Long.parseLong` and `Long.toString`.
 */
module JavaLong {
  import opened Wrappers

  const TWO_63: int := 0x8000_0000_0000_0000

  /** A Java `int`. */
  type Int32 = x: int | -0x8000_0000 <= x < 0x8000_0000

  /** A Java `long`. */
  type Int64 = x: int | -0x8000_0000_0000_0000 <= x < 0x8000_0000_0000_0000

  /** The `long` that Java's arithmetic yields for the mathematical value `x`. */
  function Wrap64(x: int): (r: Int64)
    ensures -TWO_63 <= x < TWO_63 ==> r == x
    ensures (x - r) % (2 * TWO_63) == 0
  {
    var m := (x + TWO_63) % (2 * TWO_63);
    assert x + TWO_63 == (2 * TWO_63) * ((x + TWO_63) / (2 * TWO_63)) + m;
    m - TWO_63
  }

  predicate IsDigit(c: char) {
    '0' <= c <= '9'
  }

  predicate AllDigits(s: string) {
    forall i :: 0 <= i < |s| ==> IsDigit(s[i])
  }

  function DigitValue(c: char): nat
    requires IsDigit(c)
  {
    c as int - '0' as int
  }

  function DigitChar(d: nat): (c: char)
    requires d < 10
    ensures IsDigit(c) && DigitValue(c) == d
  {
    ('0' as int + d) as char
  }

  /** The number written by a run of decimal digits, most significant first. */
  function DigitsValue(s: string): nat
    requires AllDigits(s)
  {
    if s == [] then 0 else DigitsValue(s[..|s| - 1]) * 10 + DigitValue(s[|s| - 1])
  }

  /** The shortest decimal numeral of `n`: digits only, no leading zero. */
  function Digits(n: nat): (s: string)
    ensures |s| >= 1 && AllDigits(s)
    ensures s[0] == '0' ==> n == 0
  {
    if n < 10 then [DigitChar(n)] else Digits(n / 10) + [DigitChar(n % 10)]
  }

  lemma {:induction false} DigitsValueOfDigits(n: nat)
    ensures DigitsValue(Digits(n)) == n
  {
    if n >= 10 {
      var s := Digits(n);
      assert s[..|s| - 1] == Digits(n / 10);
      DigitsValueOfDigits(n / 10);
    }
  }

  /** `Long.toString(n)`: an optional minus sign followed by the digits of |n|. */
  function LongToString(n: Int64): (s: string)
    ensures |s| >= 1
    ensures s[0] == '-' <==> n < 0
    ensures AllDigits(if n < 0 then s[1..] else s)
    ensures var m := if n < 0 then s[1..] else s; |m| >= 1 && (m[0] == '0' ==> n == 0)
  {
    if n < 0 then "-" + Digits(-(n as int)) else Digits(n)
  }

  /** The part of a numeral after its optional leading `+` or `-`. */
  function Magnitude(s: string): string
    requires |s| >= 1
  {
    if s[0] == '-' || s[0] == '+' then s[1..] else s
  }

  /** An optional sign followed by at least one decimal digit. */
  predicate IsNumeral(s: string) {
    |s| >= 1 && |Magnitude(s)| >= 1 && AllDigits(Magnitude(s))
  }

  /** The integer a numeral denotes, whatever its range. */
  function NumeralValue(s: string): int
    requires IsNumeral(s)
  {
    if s[0] == '-' then -(DigitsValue(Magnitude(s)) as int) else DigitsValue(Magnitude(s))
  }

  /**
   * `Long.parseLong(s)`: an optional `+` or `-` followed by at least one
   * digit, denoting a value inside the `long` range; `None` is the
   * NumberFormatException the source catches.
   */
  function ParseLong(s: string): (r: Option<Int64>)
    ensures r.Some? <==> IsNumeral(s) && -TWO_63 <= NumeralValue(s) < TWO_63
    ensures r.Some? ==> r.value == NumeralValue(s)
  {
    if |s| == 0 then None
    else
      var start := if s[0] == '-' || s[0] == '+' then 1 else 0;
      var digits := s[start..];
      if |digits| == 0 || !AllDigits(digits) then None
      else
        var v: int := if s[0] == '-' then -(DigitsValue(digits) as int) else DigitsValue(digits);
        if -TWO_63 <= v < TWO_63 then Some(v) else None
  }

  /** What `Long.toString` writes, `Long.parseLong` reads back. */
  lemma ParseLongOfLongToString(n: Int64)
    ensures ParseLong(LongToString(n)) == Some(n)
  {
    var s := LongToString(n);
    if n < 0 {
      var m: nat := -(n as int);
      assert s == "-" + Digits(m);
      assert s[1..] == Digits(m);
      DigitsValueOfDigits(m);
      assert DigitsValue(s[1..]) == m;
    } else {
      DigitsValueOfDigits(n);
      assert s[0] != '-' && s[0] != '+';
      assert s[0..] == s;
    }
  }

  lemma {:induction false} LeadingZeroValue(d: string)
    requires AllDigits(d)
    ensures AllDigits("0" + d) && DigitsValue("0" + d) == DigitsValue(d)
  {
    if d != [] {
      var z := "0" + d;
      assert z[..|z| - 1] == "0" + d[..|d| - 1];
      LeadingZeroValue(d[..|d| - 1]);
    }
  }

  /**
   * Non-canonical numerals read as the canonical ones: a leading zero, after
   * the sign if there is one, and a leading `+` change nothing.
   */
  lemma LeadingZeroAndPlusIgnored(d: string)
    requires |d| >= 1 && AllDigits(d)
    ensures ParseLong("0" + d) == ParseLong(d)
    ensures ParseLong("-0" + d) == ParseLong("-" + d)
    ensures ParseLong("+" + d) == ParseLong(d)
  {
    LeadingZeroValue(d);
    assert Magnitude("0" + d) == "0" + d;
    assert Magnitude("-0" + d) == "0" + d;
    assert Magnitude("-" + d) == d;
    assert Magnitude("+" + d) == d;
    assert Magnitude(d) == d;
  }
}
