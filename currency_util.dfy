/**
 * `CurrencyUtil.formatRupiah`: `DecimalFormat("Rp#,##0")` with '.' as the
 * grouping separator, so whole rupiah grouped in threes and no fraction;
 * a missing amount prints as "Rp0".
 */
module CurrencyUtil {
  import opened Wrappers
  import opened JavaText

  /** Digits with a '.' before every group of three, counted from the right. */
  function Group(d: string): string
  {
    if |d| <= 3 then d else Group(d[..|d| - 3]) + "." + d[|d| - 3..]
  }

  /** The text with every '.' deleted. */
  function Ungroup(g: string): string
  {
    if g == [] then [] else (if g[|g| - 1] == '.' then [] else [g[|g| - 1]]) + Ungroup(g[..|g| - 1])
  }

  /** `formatRupiah`; a negative amount takes the minus sign in front of the prefix. */
  function FormatRupiah(amount: Option<int>): string
  {
    match amount
    case None => "Rp0"
    case Some(n) => if n < 0 then "-Rp" + Group(Decimal(-n)) else "Rp" + Group(Decimal(n))
  }

  /** A leading group of one to three digits, then groups of exactly three, each after a '.'. */
  predicate WellGrouped(g: string)
  {
    if |g| <= 3 then 1 <= |g| && forall i :: 0 <= i < |g| ==> IsAsciiDigit(g[i])
    else |g| >= 5 && g[|g| - 4] == '.' && (forall i :: |g| - 3 <= i < |g| ==> IsAsciiDigit(g[i]))
         && WellGrouped(g[..|g| - 4])
  }

  lemma {:induction false} GroupShape(d: string)
    requires |d| >= 1 && forall i :: 0 <= i < |d| ==> IsAsciiDigit(d[i])
    ensures WellGrouped(Group(d))
    decreases |d|
  {
    if |d| > 3 {
      var h := d[..|d| - 3];
      GroupShape(h);
      var g := Group(d);
      assert g == Group(h) + "." + d[|d| - 3..];
      assert g[..|g| - 4] == Group(h);
    }
  }

  lemma {:induction false} UngroupAppend(a: string, b: string)
    ensures Ungroup(a + b) == Ungroup(b) + Ungroup(a)
    decreases |b|
  {
    if b == [] {
      assert a + b == a;
    } else {
      assert (a + b)[..|a + b| - 1] == a + b[..|b| - 1];
      UngroupAppend(a, b[..|b| - 1]);
    }
  }

  lemma {:induction false} UngroupDigits(d: string)
    requires forall i :: 0 <= i < |d| ==> d[i] != '.'
    ensures Ungroup(d) == Reverse(d)
    decreases |d|
  {
    if d != [] { UngroupDigits(d[..|d| - 1]); }
  }

  function Reverse(s: string): (r: string)
    ensures |r| == |s|
  {
    if s == [] then [] else [s[|s| - 1]] + Reverse(s[..|s| - 1])
  }

  lemma {:induction false} ReverseAppend(a: string, b: string)
    ensures Reverse(a + b) == Reverse(b) + Reverse(a)
    decreases |b|
  {
    if b == [] {
      assert a + b == a;
    } else {
      assert (a + b)[..|a + b| - 1] == a + b[..|b| - 1];
      ReverseAppend(a, b[..|b| - 1]);
    }
  }

  lemma {:induction false} ReverseReverse(s: string)
    ensures Reverse(Reverse(s)) == s
    decreases |s|
  {
    if s != [] {
      ReverseAppend([s[|s| - 1]], Reverse(s[..|s| - 1]));
      ReverseReverse(s[..|s| - 1]);
      assert Reverse([s[|s| - 1]]) == [s[|s| - 1]];
    }
  }

  /** Deleting the group separators gives back the digits, reversed by `Ungroup`'s order. */
  lemma {:induction false} UngroupGroup(d: string)
    requires forall i :: 0 <= i < |d| ==> IsAsciiDigit(d[i])
    ensures Ungroup(Group(d)) == Reverse(d)
    decreases |d|
  {
    if |d| <= 3 {
      UngroupDigits(d);
    } else {
      var h, t := d[..|d| - 3], d[|d| - 3..];
      UngroupGroup(h);
      UngroupAppend(Group(h) + ".", t);
      UngroupAppend(Group(h), ".");
      UngroupDigits(t);
      ReverseAppend(h, t);
      assert h + t == d;
    }
  }

  /** Reading the digits of a formatted amount back, ignoring the group separators. */
  function ParseRupiah(r: string): Option<int>
  {
    if |r| >= 3 && r[..3] == "-Rp" then
      var ds := Reverse(Ungroup(r[3..]));
      if ds != [] && forall i :: 0 <= i < |ds| ==> IsAsciiDigit(ds[i]) then Some(0 - DigitsValue(ds)) else None
    else if |r| >= 2 && r[..2] == "Rp" then
      var ds := Reverse(Ungroup(r[2..]));
      if ds != [] && forall i :: 0 <= i < |ds| ==> IsAsciiDigit(ds[i]) then Some(DigitsValue(ds)) else None
    else None
  }

  /** Separator-free digits recovered from the grouped text of `Decimal(m)`. */
  lemma DigitsRecovered(m: nat)
    ensures WellGrouped(Group(Decimal(m)))
    ensures Reverse(Ungroup(Group(Decimal(m)))) == Decimal(m)
    ensures DigitsValue(Decimal(m)) == m
  {
    var d := Decimal(m);
    GroupShape(d);
    UngroupGroup(d);
    ReverseReverse(d);
    DecimalValue(m);
  }

  /**
   * A non-negative amount prints as "Rp" and well-formed groups of digits,
   * with no fractional part, and reads back to the amount.
   */
  lemma FormatRupiahRoundTrip(n: nat)
    ensures var r := FormatRupiah(Some(n)); r[..2] == "Rp" && WellGrouped(r[2..])
    ensures ParseRupiah(FormatRupiah(Some(n))) == Some(n)
  {
    DigitsRecovered(n);
    var r := FormatRupiah(Some(n));
    assert r == "Rp" + Group(Decimal(n));
    assert r[2..] == Group(Decimal(n));
    assert r[0] == 'R';
    assert !(|r| >= 3 && r[..3] == "-Rp") by { if |r| >= 3 { assert r[..3][0] == 'R'; } }
  }

  /** A negative amount prints as "-Rp" and the groups of its magnitude, and reads back. */
  lemma FormatRupiahNegativeRoundTrip(n: int)
    requires n < 0
    ensures var r := FormatRupiah(Some(n)); r[..3] == "-Rp" && WellGrouped(r[3..])
    ensures ParseRupiah(FormatRupiah(Some(n))) == Some(n)
  {
    DigitsRecovered(-n);
    var r := FormatRupiah(Some(n));
    assert r == "-Rp" + Group(Decimal(-n));
    assert r[3..] == Group(Decimal(-n));
    assert r[..3] == "-Rp";
    var ds := Reverse(Ungroup(r[3..]));
    assert ds == Decimal(-n);
    assert DigitsValue(ds) == -n;
  }

  /** Sample renderings: 0, 999 and 1000, and a missing amount. */
  lemma FormatRupiahExamples()
    ensures FormatRupiah(None) == "Rp0"
    ensures FormatRupiah(Some(0)) == "Rp0"
    ensures FormatRupiah(Some(999)) == "Rp999"
    ensures FormatRupiah(Some(1000)) == "Rp1.000"
  {
    assert Decimal(999) == "999" by {
      assert Decimal(9) == "9";
      assert Decimal(99) == "99";
    }
    assert Decimal(1000) == "1000" by {
      assert Decimal(1) == "1";
      assert Decimal(10) == "10";
      assert Decimal(100) == "100";
    }
    assert Group("1000") == "1.000" by { assert "1000"[..1] == "1"; assert "1000"[1..] == "000"; }
  }
}
