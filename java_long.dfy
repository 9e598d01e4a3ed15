/** The 64-bit `long` of Java: its range, wrap-around addition and `Long.parseLong`. */
module JavaLong {
  import opened Wrappers
  import opened JavaText

  const TwoTo64: int := 0x1_0000_0000_0000_0000
  const MinLong: int := -0x8000_0000_0000_0000
  const MaxLong: int := 0x7FFF_FFFF_FFFF_FFFF

  predicate InRange(x: int) { MinLong <= x <= MaxLong }

  /** Two's-complement wrap-around of an exact integer into the `long` range. */
  function Wrap(x: int): (r: int)
    ensures InRange(r)
    ensures (x - r) % TwoTo64 == 0
    ensures InRange(x) ==> r == x
  {
    (x - MinLong) % TwoTo64 + MinLong
  }

  /** `a + b` on `long` operands. */
  function Add(a: int, b: int): (r: int)
    ensures InRange(r)
    ensures InRange(a + b) ==> r == a + b
    ensures InRange(a) && InRange(b) && a + b > MaxLong ==> r == a + b - TwoTo64
    ensures InRange(a) && InRange(b) && a + b < MinLong ==> r == a + b + TwoTo64
  {
    Wrap(a + b)
  }

  predicate AllDigits(s: string) { forall i :: 0 <= i < |s| ==> IsAsciiDigit(s[i]) }

  /**
   * `Long.parseLong`: an optional `+` or `-`, then one or more decimal
   * digits, with a value inside the `long` range; anything else is the
   * `NumberFormatException` case, here `None`.
   */
  function ParseLong(s: string): (r: Option<int>)
    ensures r.Some? ==> InRange(r.value)
  {
    if s == [] then None
    else
      var neg := s[0] == '-';
      var digits := if s[0] == '-' || s[0] == '+' then s[1..] else s;
      if digits == [] || !AllDigits(digits) then None
      else
        var v: int := if neg then 0 - DigitsValue(digits) else DigitsValue(digits);
        if InRange(v) then Some(v) else None
  }

  /** `Long.toString`. */
  function LongToString(n: int): (s: string)
    ensures |s| >= 1
  {
    if n < 0 then "-" + Decimal(-n) else Decimal(n)
  }

  /** Reading back a printed `long` gives the number. */
  lemma ParseLongToString(n: int)
    requires InRange(n)
    ensures ParseLong(LongToString(n)) == Some(n)
  {
    if n < 0 {
      var d := Decimal(-n);
      DecimalValue(-n);
      var s := LongToString(n);
      assert s == "-" + d;
      assert s[0] == '-' && s[1..] == d;
      assert AllDigits(d);
    } else {
      DecimalValue(n);
      assert AllDigits(Decimal(n));
    }
  }

  /** A text with a char that is neither a sign nor a digit is rejected. */
  lemma ParseLongRejectsNonDigit(s: string, i: nat)
    requires 0 < i < |s| && !IsAsciiDigit(s[i])
    ensures ParseLong(s) == None
  {
    if s[0] == '-' || s[0] == '+' {
      assert s[1..][i - 1] == s[i];
    }
  }
}
