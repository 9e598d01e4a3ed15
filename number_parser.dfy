/**
 * `NumberParser`: amounts written the Indonesian way ("5,7jt", "150 rb",
 * "2 juta") found left to right with the pattern
 * `(\d+(?:[.,]\d+)*)\s*(rb|ribu|jt|juta|million|m|k)?`.  Each match loses
 * its commas, goes through `Double.parseDouble`, is multiplied by its unit
 * and cast to `long`; a match with two or more dots makes the parse fail,
 * and then the whole result is empty.
 */
module NumberParser {
  import opened Wrappers
  import opened JavaText
  import JavaLong

  datatype Unit = Thousand | Million

  function Multiplier(u: Option<Unit>): nat
  {
    match u
    case None => 1
    case Some(Thousand) => 1000
    case Some(Million) => 1_000_000
  }

  /** One past the run of digits starting at `i`. */
  function DigitRunEnd(s: string, i: nat): (k: nat)
    requires i <= |s|
    ensures i <= k <= |s|
    ensures forall j :: i <= j < k ==> IsAsciiDigit(s[j])
    ensures k < |s| ==> !IsAsciiDigit(s[k])
    decreases |s| - i
  {
    if i == |s| || !IsAsciiDigit(s[i]) then i else DigitRunEnd(s, i + 1)
  }

  /** Greedy end of `\d+(?:[.,]\d+)*` for a match starting at digit `i`. */
  function NumberEnd(s: string, i: nat): (k: nat)
    requires i < |s| && IsAsciiDigit(s[i])
    ensures i < k <= |s|
    ensures forall j :: i <= j < k ==> IsAsciiDigit(s[j]) || s[j] == '.' || s[j] == ','
    ensures IsAsciiDigit(s[k - 1])
    decreases |s| - i
  {
    var e := DigitRunEnd(s, i);
    if e + 1 < |s| && (s[e] == '.' || s[e] == ',') && IsAsciiDigit(s[e + 1]) then NumberEnd(s, e + 1) else e
  }

  /** The unit alternative the pattern takes at `k`, tried in the order written, with its length. */
  function UnitAt(s: string, k: nat): (r: Option<(Unit, nat)>)
    requires k <= |s|
    ensures r.Some? ==> 1 <= r.value.1 && k + r.value.1 <= |s|
  {
    UnitOf(s[k..])
  }

  function UnitOf(t: string): (r: Option<(Unit, nat)>)
    ensures r.Some? ==> 1 <= r.value.1 <= |t|
  {
    if StartsWith(t, "rb") then Some((Thousand, 2))
    else if StartsWith(t, "ribu") then Some((Thousand, 4))
    else if StartsWith(t, "jt") then Some((Million, 2))
    else if StartsWith(t, "juta") then Some((Million, 4))
    else if StartsWith(t, "million") then Some((Million, 7))
    else if StartsWith(t, "m") then Some((Million, 1))
    else if StartsWith(t, "k") then Some((Thousand, 1))
    else None
  }

  /** One match: group 1, group 2 and where the next search starts. */
  datatype Match = Match(number: string, unit: Option<Unit>, end: nat)

  predicate IsNumberPart(t: string)
  {
    t != [] && IsAsciiDigit(t[0]) && forall j :: 0 <= j < |t| ==> IsAsciiDigit(t[j]) || t[j] == '.' || t[j] == ','
  }

  function MatchAt(s: string, i: nat): (m: Match)
    requires i < |s| && IsAsciiDigit(s[i])
    ensures i < m.end <= |s|
    ensures IsNumberPart(m.number)
  {
    var e := NumberEnd(s, i);
    var w := SpaceRunEnd(s, e);
    match UnitAt(s, w)
    case None => Match(s[i..e], None, w)
    case Some((u, len)) => Match(s[i..e], Some(u), w + len)
  }

  /** Where `Matcher.find` next finds a match: the first digit at or after `p`. */
  function NextDigit(s: string, p: nat): (q: nat)
    requires p <= |s|
    ensures p <= q <= |s|
    ensures q < |s| ==> IsAsciiDigit(s[q])
    ensures forall j :: p <= j < q ==> !IsAsciiDigit(s[j])
    decreases |s| - p
  {
    if p == |s| || IsAsciiDigit(s[p]) then p else NextDigit(s, p + 1)
  }

  function CountChar(s: string, c: char): nat
  {
    if s == [] then 0 else (if s[0] == c then 1 else 0) + CountChar(s[1..], c)
  }

  /** `(long) x` of a non-negative double: saturates at `Long.MAX_VALUE`. */
  function ToLong(x: nat): (r: nat)
    ensures r <= JavaLong.MaxLong
    ensures x <= JavaLong.MaxLong ==> r == x
  {
    if x > JavaLong.MaxLong then JavaLong.MaxLong else x
  }

  /**
   * `parseNumberString`: commas removed; two or more dots are a
   * `NumberFormatException` (`None`); otherwise the decimal value times the
   * unit, truncated toward zero.
   */
  function Value(part: string, unit: Option<Unit>): (r: Option<nat>)
    requires IsNumberPart(part)
    ensures r.Some? ==> r.value <= JavaLong.MaxLong
    ensures r.None? <==> CountChar(RemoveAll(part, ","), '.') >= 2
  {
    var cleaned := RemoveAll(part, ",");
    FieldsCount(cleaned, '.');
    var fs := Fields(cleaned, '.');
    if |fs| > 2 then None
    else
      RemoveCommasKeepsDigits(part);
      FieldDigits(cleaned, fs);
      if |fs| == 1 then Some(ToLong(Scaled(DigitsValue(fs[0]), 0, 1, Multiplier(unit))))
      else Some(ToLong(Scaled(DigitsValue(fs[0]), DigitsValue(fs[1]), Pow10(|fs[1]|), Multiplier(unit))))
  }

  /** `(whole + frac / scale) * mult`, truncated toward zero. */
  function Scaled(whole: nat, frac: nat, scale: nat, mult: nat): nat
    requires scale >= 1
  {
    ((whole * scale + frac) * mult) / scale
  }

  predicate DigitsOrDots(t: string)
  {
    forall j :: 0 <= j < |t| ==> IsAsciiDigit(t[j]) || t[j] == '.'
  }

  lemma {:induction false} RemoveCommasKeepsDigits(t: string)
    requires forall j :: 0 <= j < |t| ==> IsAsciiDigit(t[j]) || t[j] == '.' || t[j] == ','
    ensures DigitsOrDots(RemoveAll(t, ","))
    decreases |t|
  {
    if |t| >= 1 {
      if t[..1] == "," { RemoveCommasKeepsDigits(t[1..]); }
      else { RemoveCommasKeepsDigits(t[1..]); }
    }
  }

  lemma {:induction false} FieldsCount(t: string, c: char)
    ensures |Fields(t, c)| == CountChar(t, c) + 1
    decreases |t|
  {
    if c in t {
      var i := IndexOf(t, c);
      FieldsCount(t[i + 1..], c);
      CountSplit(t, i, c);
    } else {
      CountAbsent(t, c);
    }
  }

  lemma {:induction false} CountAbsent(t: string, c: char)
    requires c !in t
    ensures CountChar(t, c) == 0
    decreases |t|
  {
    if t != [] { assert c !in t[1..]; CountAbsent(t[1..], c); }
  }

  lemma {:induction false} CountSplit(t: string, i: nat, c: char)
    requires i < |t| && t[i] == c && c !in t[..i]
    ensures CountChar(t, c) == 1 + CountChar(t[i + 1..], c)
    decreases i
  {
    if i > 0 {
      assert c !in t[1..][..i - 1] by { assert t[1..][..i - 1] == t[1..i]; }
      CountSplit(t[1..], i - 1, c);
      assert t[1..][i..] == t[i + 1..];
    }
  }

  lemma {:induction false} FieldDigits(t: string, fs: seq<string>)
    requires DigitsOrDots(t) && fs == Fields(t, '.')
    ensures forall k, j :: 0 <= k < |fs| && 0 <= j < |fs[k]| ==> IsAsciiDigit(fs[k][j])
    decreases |t|
  {
    if '.' in t {
      var i := IndexOf(t, '.');
      FieldDigits(t[i + 1..], Fields(t[i + 1..], '.'));
    }
  }

  /** `Some(numbers)` for the matches from `p` on, `None` when one of them fails to parse. */
  function Scan(s: string, p: nat): (r: Option<seq<nat>>)
    requires p <= |s|
    ensures r.Some? ==> forall k :: 0 <= k < |r.value| ==> r.value[k] <= JavaLong.MaxLong
    decreases |s| - p
  {
    var q := NextDigit(s, p);
    if q == |s| then Some([])
    else
      var m := MatchAt(s, q);
      match Value(m.number, m.unit)
      case None => None
      case Some(v) =>
        match Scan(s, m.end)
        case None => None
        case Some(rest) => Some([v] + rest)
  }

  /** What `parseNumber` returns: every amount in order, or nothing at all when one fails. */
  function Numbers(s: string): (r: seq<nat>)
    ensures forall k :: 0 <= k < |r| ==> r[k] <= JavaLong.MaxLong
  {
    match Scan(s, 0)
    case None => []
    case Some(ns) => ns
  }

  function Prepend(xs: seq<nat>, o: Option<seq<nat>>): Option<seq<nat>>
  {
    match o
    case None => None
    case Some(ys) => Some(xs + ys)
  }

  lemma PrependAppend(xs: seq<nat>, ys: seq<nat>, o: Option<seq<nat>>)
    ensures Prepend(xs, Prepend(ys, o)) == Prepend(xs + ys, o)
  {
    if o.Some? { assert xs + (ys + o.value) == (xs + ys) + o.value; }
  }

  /** One step of `Scan` at a position where another match is found. */
  lemma ScanStep(s: string, p: nat, m: Match)
    requires p <= |s| && NextDigit(s, p) < |s| && m == MatchAt(s, NextDigit(s, p))
    ensures Value(m.number, m.unit).None? ==> Scan(s, p) == None
    ensures Value(m.number, m.unit).Some? ==> Scan(s, p) == Prepend([Value(m.number, m.unit).value], Scan(s, m.end))
  {
  }

  /** `parseNumber`: the `Matcher.find` loop. */
  method ParseNumber(s: string) returns (numbers: seq<nat>)
    ensures numbers == Numbers(s)
  {
    numbers := [];
    var p := 0;
    assert Prepend(numbers, Scan(s, 0)) == Scan(s, 0) by {
      if Scan(s, 0).Some? { assert [] + Scan(s, 0).value == Scan(s, 0).value; }
    }
    while p < |s|
      invariant p <= |s|
      invariant Prepend(numbers, Scan(s, p)) == Scan(s, 0)
      decreases |s| - p
    {
      var q := NextDigit(s, p);
      if q == |s| {
        break;
      }
      var m := MatchAt(s, q);
      var v := Value(m.number, m.unit);
      ScanStep(s, p, m);
      if v.None? {
        return [];
      }
      PrependAppend(numbers, [v.value], Scan(s, m.end));
      numbers := numbers + [v.value];
      p := m.end;
    }
    assert Scan(s, p) == Some([]);
    assert numbers + [] == numbers;
  }

  /** `parseFirstNumber`: `None` for a missing or empty text and for a text with no amount. */
  function ParseFirstNumber(text: Option<string>): (r: Option<nat>)
    ensures (text.None? || text.value == []) ==> r.None?
    ensures text.Some? && text.value != [] ==> (r.Some? <==> Numbers(text.value) != [])
    ensures r.Some? ==> r.value == Numbers(text.value)[0] && r.value <= JavaLong.MaxLong
  {
    if text.None? || text.value == [] then None
    else
      var ns := Numbers(text.value);
      if ns == [] then None else Some(ns[0])
  }

  /** A number as the pattern reads it: digit groups joined by single `.` or `,`. */
  predicate WellFormedNumber(t: string)
  {
    IsNumberPart(t) && IsAsciiDigit(t[|t| - 1])
    && forall j :: 0 <= j < |t| && !IsAsciiDigit(t[j]) ==> j + 1 < |t| && IsAsciiDigit(t[j + 1])
  }

  predicate NoDigits(w: string) { forall j :: 0 <= j < |w| ==> !IsAsciiDigit(w[j]) }

  predicate StopsNumber(w: string) { w == [] || (w[0] != '.' && w[0] != ',' && !IsAsciiDigit(w[0])) }

  lemma {:induction false} NumberEndWhole(t: string, rest: string, i: nat)
    requires WellFormedNumber(t) && StopsNumber(rest) && i < |t| && IsAsciiDigit(t[i])
    ensures NumberEnd(t + rest, i) == |t|
    decreases |t| - i
  {
    var s := t + rest;
    var e := DigitRunEnd(s, i);
    assert e <= |t| by {
      if |t| < |s| { assert s[|t|] == rest[0]; }
    }
    if e < |t| {
      assert s[e] == t[e] && !IsAsciiDigit(t[e]);
      assert s[e + 1] == t[e + 1];
      NumberEndWhole(t, rest, e + 1);
    } else if e < |s| {
      assert s[e] == rest[0];
    }
  }

  /** A text holding one well-formed number and no other digit yields that one amount. */
  lemma OneAmount(t: string, rest: string)
    requires WellFormedNumber(t) && StopsNumber(rest) && NoDigits(rest)
    ensures MatchAt(t + rest, 0).number == t
    ensures Numbers(t + rest) == (match Value(t, MatchAt(t + rest, 0).unit) case None => [] case Some(v) => [v])
  {
    var s := t + rest;
    NumberEndWhole(t, rest, 0);
    assert s[0..|t|] == t;
    var m := MatchAt(s, 0);
    var q := NextDigit(s, m.end);
    ScanStep(s, 0, m);
  }

  function UnitWord(u: Unit, word: string): bool
  {
    match u
    case Thousand => word == "rb" || word == "ribu" || word == "k"
    case Million => word == "jt" || word == "juta" || word == "million" || word == "m"
  }

  /** Which unit the pattern's alternation picks for a text starting with a unit word. */
  lemma UnitOfWord(x: string, u: Unit, word: string)
    requires UnitWord(u, word) && StartsWith(x, word)
    ensures UnitOf(x).Some? && UnitOf(x).value.0 == u
  {
    assert x[0] == word[0];
    if word == "ribu" || word == "juta" { assert x[1] == word[1]; }
  }

  /**
   * A number directly followed by a unit word is multiplied by that unit:
   * rb, ribu and k by 1000; jt, juta, million and m by 1,000,000.
   */
  lemma UnitMultiplies(t: string, u: Unit, word: string, tail: string)
    requires WellFormedNumber(t) && UnitWord(u, word) && NoDigits(tail)
    ensures Numbers(t + word + tail) == (match Value(t, Some(u)) case None => [] case Some(v) => [v])
  {
    var w := word + tail;
    assert t + word + tail == t + w;
    WordTail(word, tail);
    OneAmount(t, w);
    MatchUnit(t, w, u, word);
  }

  lemma WordTail(word: string, tail: string)
    requires word != [] && !IsAsciiDigit(word[0]) && word[0] != '.' && word[0] != ','
    requires NoDigits(word) && NoDigits(tail)
    ensures StopsNumber(word + tail) && NoDigits(word + tail) && StartsWith(word + tail, word)
  {
    var w := word + tail;
    assert w[0] == word[0];
    assert forall j :: 0 <= j < |w| ==> w[j] == (if j < |word| then word[j] else tail[j - |word|]);
    assert w[..|word|] == word;
  }

  lemma MatchUnit(t: string, w: string, u: Unit, word: string)
    requires WellFormedNumber(t) && StopsNumber(w) && UnitWord(u, word) && StartsWith(w, word)
    ensures MatchAt(t + w, 0).unit == Some(u)
  {
    var s := t + w;
    NumberEndWhole(t, w, 0);
    assert s[|t|] == w[0];
    assert SpaceRunEnd(s, |t|) == |t|;
    assert s[|t|..] == w;
    UnitOfWord(w, u, word);
  }

  /** Without a unit word the amount is taken as it is. */
  lemma NoUnit(t: string, rest: string)
    requires WellFormedNumber(t) && StopsNumber(rest) && NoDigits(rest)
    requires forall j :: 0 <= j < |rest| ==> rest[j] !in "rbjmk"
    ensures Numbers(t + rest) == (match Value(t, None) case None => [] case Some(v) => [v])
  {
    var s := t + rest;
    OneAmount(t, rest);
    NumberEndWhole(t, rest, 0);
    var w := SpaceRunEnd(s, |t|);
    if w < |s| {
      assert s[w] == rest[w - |t|];
      assert s[w..][0] == s[w];
    }
  }

  /** A number of plain digits is its decimal value times the unit (clamped to the `long` range). */
  lemma IntegerValue(t: string, unit: Option<Unit>)
    requires t != [] && forall j :: 0 <= j < |t| ==> IsAsciiDigit(t[j])
    ensures Value(t, unit) == Some(ToLong(DigitsValue(t) * Multiplier(unit)))
  {
    RemoveAbsent(t, ",");
    assert '.' !in t;
  }

  lemma {:induction false} RemoveAbsent(t: string, c: string)
    requires |c| == 1 && c[0] !in t
    ensures RemoveAll(t, c) == t
    decreases |t|
  {
    if |t| >= 1 {
      assert t[..1] != c;
      assert c[0] !in t[1..];
      RemoveAbsent(t[1..], c);
      assert [t[0]] + t[1..] == t;
    }
  }

  /** Commas are not decimal marks: they are deleted before conversion. */
  lemma CommasDeleted(t: string, unit: Option<Unit>)
    requires IsNumberPart(t)
    ensures IsNumberPart(RemoveAll(t, ",")) && Value(t, unit) == Value(RemoveAll(t, ","), unit)
  {
    RemoveCommasKeepsDigits(t);
    var r := RemoveAll(t, ",");
    assert r[0] == t[0] by { assert t[..1] != ","; }
    RemoveCommasKeepsDigits(r);
    RemoveAbsent(r, ",") by { NoCommaLeft(t); }
  }

  lemma {:induction false} NoCommaLeft(t: string)
    ensures ',' !in RemoveAll(t, ",")
    decreases |t|
  {
    if |t| >= 1 {
      NoCommaLeft(t[1..]);
      if t[..1] != "," {
        assert t[0] != ',' by { assert t[..1] == [t[0]]; }
      }
    }
  }

  lemma Digits1500() ensures DigitsValue("1500") == 1500
  {
    assert "1500"[..3] == "150";
    assert "150"[..2] == "15";
    assert "15"[..1] == "1";
  }

  lemma Remove1500() ensures RemoveAll("1,500", ",") == "1500"
  {
    assert "1,500"[..1] == "1" && "1,500"[1..] == ",500";
    assert ",500"[..1] == "," && ",500"[1..] == "500";
    RemoveAbsent("500", ",");
  }

  lemma Remove57() ensures RemoveAll("5,7", ",") == "57"
  {
    assert "5,7"[..1] == "5" && "5,7"[1..] == ",7";
    assert ",7"[..1] == "," && ",7"[1..] == "7";
    RemoveAbsent("7", ",");
  }

  lemma TwoDotsCounted() ensures CountChar("1.000.000", '.') == 2
  {
    assert "1.000.000" == "1" + ".000" + ".000";
    CountCharAppend("1" + ".000", ".000", '.');
    CountCharAppend("1", ".000", '.');
    assert ".000"[1..] == "000";
  }

  /** The count of a concatenation is the sum of the counts. */
  lemma {:induction false} CountCharAppend(a: string, b: string, c: char)
    ensures CountChar(a + b, c) == CountChar(a, c) + CountChar(b, c)
    decreases |a|
  {
    if a == [] {
      assert a + b == b;
    } else {
      CountCharAppend(a[1..], b, c);
      assert (a + b)[1..] == a[1..] + b;
    }
  }

  lemma Value1500Plain() ensures Value("1500", None) == Some(1500)
  {
    IntegerValue("1500", None);
    Digits1500();
  }

  lemma Value1500() ensures Value("1,500", None) == Some(1500)
  {
    CommasDeleted("1,500", None);
    Remove1500();
    Value1500Plain();
  }

  /** "1,500" is fifteen hundred: the comma is deleted, not read as a decimal mark. */
  lemma ExampleCommaThousands() ensures Numbers("1,500") == [1500]
  {
    assert WellFormedNumber("1,500");
    NoUnit("1,500", "");
    assert "1,500" + "" == "1,500";
    Value1500();
  }

  lemma Value57() ensures Value("57", Some(Million)) == Some(57_000_000)
  {
    IntegerValue("57", Some(Million));
    assert DigitsValue("57") == 57 by { assert "57"[..1] == "5"; }
  }

  lemma Value57Million() ensures Value("5,7", Some(Million)) == Some(57_000_000)
  {
    CommasDeleted("5,7", Some(Million));
    Remove57();
    Value57();
  }

  /** "5,7jt" is 57 million, not 5.7 million. */
  lemma ExampleCommaMillions() ensures Numbers("5,7jt") == [57_000_000]
  {
    assert WellFormedNumber("5,7");
    UnitMultiplies("5,7", Million, "jt", "");
    assert "5,7" + "jt" + "" == "5,7jt";
    Value57Million();
  }

  lemma MenitMatch() ensures MatchAt("5 menit", 0).unit == Some(Million)
  {
    assert WellFormedNumber("5");
    NumberEndWhole("5", " menit", 0);
    assert "5" + " menit" == "5 menit";
    assert SpaceRunEnd("5 menit", 1) == 2;
    assert "5 menit"[2..] == "menit";
  }

  /** The unit is not word-bounded: the "m" of "menit" (minutes) multiplies by a million. */
  lemma ExampleUnitPrefix() ensures Numbers("5 menit") == [5_000_000]
  {
    assert WellFormedNumber("5");
    OneAmount("5", " menit");
    assert "5" + " menit" == "5 menit";
    MenitMatch();
    FiveTimes(Some(Million));
  }

  lemma FiveTimes(unit: Option<Unit>) ensures Value("5", unit) == Some(5 * Multiplier(unit))
  {
    IntegerValue("5", unit);
    assert DigitsValue("5") == 5;
  }

  /** Units are case-sensitive: "5JT" is just 5. */
  lemma ExampleUpperCaseUnit() ensures Numbers("5JT") == [5]
  {
    assert WellFormedNumber("5");
    NoUnit("5", "JT");
    assert "5" + "JT" == "5JT";
    FiveTimes(None);
  }

  /** A second dot makes `Double.parseDouble` fail, which empties the whole result. */
  lemma ExampleTwoDots() ensures Numbers("1.000.000") == []
  {
    TwoDotsWellFormed();
    NoUnit("1.000.000", "");
    assert "1.000.000" + "" == "1.000.000";
    TwoDotsFail();
  }

  lemma TwoDotsWellFormed() ensures WellFormedNumber("1.000.000")
  {
    var t := "1.000.000";
    assert forall j :: 0 <= j < |t| ==> (IsAsciiDigit(t[j]) <==> j != 1 && j != 5);
  }

  lemma TwoDotsFail() ensures IsNumberPart("1.000.000") && Value("1.000.000", None).None?
  {
    TwoDotsWellFormed();
    RemoveAbsent("1.000.000", ",");
    TwoDotsCounted();
  }
}
