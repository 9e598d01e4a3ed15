/**
 * The few `java.lang.String` operations the bot relies on, stated over
 * `seq<char>`: `trim`, `isBlank`, `startsWith`, `contains`, `replace`,
 * `split` on a one-character separator (trailing empty fields dropped),
 * `split("\\s+", 2)` and `toUpperCase` / `equalsIgnoreCase` on ASCII letters.
 */
module JavaText {
  import opened Wrappers

  /** `String.trim` removes every leading and trailing char at or below U+0020. */
  predicate IsTrimmed(c: char) { c <= ' ' }

  /** The regular-expression class `\s`: space, tab, LF, VT, FF and CR. */
  predicate IsRegexSpace(c: char)
  {
    c == ' ' || c == '\t' || c == '\n' || c == '\U{B}' || c == '\U{C}' || c == '\r'
  }

  /** `Character.isWhitespace`, the test behind `String.isBlank` (no-break spaces excluded). */
  predicate IsJavaWhitespace(c: char)
  {
    ('\t' <= c <= '\r') || ('\U{1C}' <= c <= ' ')
    || c == '\U{1680}' || ('\U{2000}' <= c <= '\U{2006}') || ('\U{2008}' <= c <= '\U{200A}')
    || c == '\U{2028}' || c == '\U{2029}' || c == '\U{205F}' || c == '\U{3000}'
  }

  predicate IsBlank(s: string) { forall i :: 0 <= i < |s| ==> IsJavaWhitespace(s[i]) }

  /** Index of the first char `trim` keeps. */
  function LeadEnd(s: string, i: nat): (k: nat)
    requires i <= |s|
    ensures i <= k <= |s|
    ensures forall j :: i <= j < k ==> IsTrimmed(s[j])
    ensures k < |s| ==> !IsTrimmed(s[k])
    decreases |s| - i
  {
    if i == |s| || !IsTrimmed(s[i]) then i else LeadEnd(s, i + 1)
  }

  /** One past the last char `trim` keeps, searching down to `lo`. */
  function TailStart(s: string, lo: nat, k: nat): (e: nat)
    requires lo <= k <= |s|
    ensures lo <= e <= k
    ensures forall j :: e <= j < k ==> IsTrimmed(s[j])
    ensures e > lo ==> !IsTrimmed(s[e - 1])
    decreases k
  {
    if k == lo || !IsTrimmed(s[k - 1]) then k else TailStart(s, lo, k - 1)
  }

  /** `String.trim`: the text between the runs of chars at or below U+0020 at both ends. */
  function Trim(s: string): (r: string)
    ensures |r| <= |s|
    ensures r == [] || (!IsTrimmed(r[0]) && !IsTrimmed(r[|r| - 1]))
    ensures r == [] <==> forall j :: 0 <= j < |s| ==> IsTrimmed(s[j])
  {
    var a := LeadEnd(s, 0);
    var b := TailStart(s, a, |s|);
    assert r: forall j :: 0 <= j < |s| && (j < a || j >= b) ==> IsTrimmed(s[j]);
    s[a..b]
  }

  /** A text that starts and ends with a char above U+0020 is its own trim. */
  lemma TrimKeeps(s: string)
    requires s != [] && !IsTrimmed(s[0]) && !IsTrimmed(s[|s| - 1])
    ensures Trim(s) == s
  {
    assert LeadEnd(s, 0) == 0;
    assert TailStart(s, 0, |s|) == |s|;
    assert s[0..|s|] == s;
  }

  /** Trimming a trimmed text changes nothing. */
  lemma TrimIdempotent(s: string)
    ensures Trim(Trim(s)) == Trim(s)
  {
    if Trim(s) != [] {
      TrimKeeps(Trim(s));
    }
  }

  predicate StartsWith(s: string, p: string) { |p| <= |s| && s[..|p|] == p }

  predicate ContainsAt(s: string, p: string, i: nat) { i + |p| <= |s| && s[i..i + |p|] == p }

  /** `String.contains`. */
  predicate Contains(s: string, p: string) { exists i: nat | i <= |s| :: ContainsAt(s, p, i) }

  /**
   * `String.replace(target, "")` for a non-empty target: every occurrence,
   * found left to right without overlap, is deleted.
   */
  function RemoveAll(s: string, target: string): (r: string)
    requires target != []
    ensures |r| <= |s|
    decreases |s|
  {
    if |s| < |target| then s
    else if s[..|target|] == target then RemoveAll(s[|target|..], target)
    else [s[0]] + RemoveAll(s[1..], target)
  }

  /** All fields of `s` between occurrences of `sep`, empty ones included. */
  function Fields(s: string, sep: char): (fs: seq<string>)
    ensures |fs| >= 1
    ensures forall k :: 0 <= k < |fs| ==> sep !in fs[k]
    decreases |s|
  {
    if sep !in s then [s]
    else
      var i := IndexOf(s, sep);
      [s[..i]] + Fields(s[i + 1..], sep)
  }

  /** Index of the first `c` in `s`. */
  function IndexOf(s: string, c: char): (i: nat)
    requires c in s
    ensures i < |s| && s[i] == c && c !in s[..i]
  {
    if s[0] == c then 0 else
      assert c in s[1..] by { var k :| 0 <= k < |s| && s[k] == c; assert s[1..][k - 1] == c; }
      var j := IndexOf(s[1..], c);
      assert s[..j + 1] == [s[0]] + s[1..][..j];
      1 + j
  }

  /** The fields joined back with the separator. */
  function Join(fs: seq<string>, sep: char): string
  {
    if fs == [] then [] else if |fs| == 1 then fs[0] else fs[0] + [sep] + Join(fs[1..], sep)
  }

  function DropTrailingEmpty(fs: seq<string>): (r: seq<string>)
    ensures |r| <= |fs| && r == fs[..|r|]
    ensures r == [] || r[|r| - 1] != []
    ensures forall k :: |r| <= k < |fs| ==> fs[k] == []
  {
    if fs == [] then []
    else if fs[|fs| - 1] == [] then DropTrailingEmpty(fs[..|fs| - 1])
    else fs
  }

  /**
   * `String.split` on a one-character separator with no limit: when the
   * separator does not occur the result is the whole text (also for ""),
   * otherwise all fields with the trailing empty ones removed.
   */
  function Split(s: string, sep: char): (parts: seq<string>)
    ensures sep !in s ==> parts == [s]
    ensures sep in s ==> parts == DropTrailingEmpty(Fields(s, sep))
  {
    if sep !in s then [s] else DropTrailingEmpty(Fields(s, sep))
  }

  /** Joining the fields with the separator gives the text back. */
  lemma {:induction false} JoinFields(s: string, sep: char)
    ensures Join(Fields(s, sep), sep) == s
    decreases |s|
  {
    if sep in s {
      var i := IndexOf(s, sep);
      var rest := Fields(s[i + 1..], sep);
      JoinFields(s[i + 1..], sep);
      var fs := [s[..i]] + rest;
      assert Fields(s, sep) == fs;
      assert fs[1..] == rest;
      assert Join(fs, sep) == s[..i] + [sep] + Join(rest, sep);
      assert s == s[..i] + [sep] + s[i + 1..];
    }
  }

  /** `split(" ", 2)[0]`: the text before the first occurrence of `sep`. */
  function FirstField(s: string, sep: char): (f: string)
    ensures sep !in f && StartsWith(s, f)
    ensures |f| < |s| ==> s[|f|] == sep
  {
    if sep in s then s[..IndexOf(s, sep)] else s
  }

  /** First index at or after `i` holding a `\s` char, or `|s|`. */
  function NextSpace(s: string, i: nat): (k: nat)
    requires i <= |s|
    ensures i <= k <= |s|
    ensures forall j :: i <= j < k ==> !IsRegexSpace(s[j])
    ensures k < |s| ==> IsRegexSpace(s[k])
    decreases |s| - i
  {
    if i == |s| || IsRegexSpace(s[i]) then i else NextSpace(s, i + 1)
  }

  /** End of the run of `\s` chars that starts at `i`. */
  function SpaceRunEnd(s: string, i: nat): (k: nat)
    requires i <= |s|
    ensures i <= k <= |s|
    ensures forall j :: i <= j < k ==> IsRegexSpace(s[j])
    ensures k < |s| ==> !IsRegexSpace(s[k])
    decreases |s| - i
  {
    if i == |s| || !IsRegexSpace(s[i]) then i else SpaceRunEnd(s, i + 1)
  }

  /**
   * `split("\\s+", 2)`: the text up to the first run of `\s`, and, when
   * there is such a run, everything after it.
   */
  function SplitWhitespaceOnce(s: string): (r: (string, Option<string>))
    ensures forall j :: 0 <= j < |r.0| ==> !IsRegexSpace(r.0[j])
    ensures r.1.None? <==> forall j :: 0 <= j < |s| ==> !IsRegexSpace(s[j])
    ensures r.1.None? ==> r.0 == s
    ensures r.1.Some? ==> |r.0| + |r.1.value| < |s| && StartsWith(s, r.0)
  {
    var i := NextSpace(s, 0);
    if i == |s| then (s, None)
    else (s[..i], Some(s[SpaceRunEnd(s, i)..]))
  }

  /** `Character.toUpperCase` restricted to ASCII letters. */
  function UpperChar(c: char): char
  {
    if 'a' <= c <= 'z' then (c as int - 32) as char else c
  }

  function LowerChar(c: char): char
  {
    if 'A' <= c <= 'Z' then (c as int + 32) as char else c
  }

  /** `String.toUpperCase` restricted to ASCII letters. */
  function ToUpper(s: string): (r: string)
    ensures |r| == |s|
    ensures forall i :: 0 <= i < |s| ==> r[i] == UpperChar(s[i])
  {
    if s == [] then [] else [UpperChar(s[0])] + ToUpper(s[1..])
  }

  /** `String.equalsIgnoreCase` restricted to ASCII letters. */
  predicate EqualsIgnoreCase(s: string, t: string)
  {
    |s| == |t| && forall i :: 0 <= i < |s| ==> UpperChar(s[i]) == UpperChar(t[i])
  }

  predicate IsAsciiDigit(c: char) { '0' <= c <= '9' }

  function DigitValue(c: char): nat requires IsAsciiDigit(c) { c as int - '0' as int }

  function DigitChar(d: nat): (c: char)
    requires d < 10
    ensures IsAsciiDigit(c) && DigitValue(c) == d
  {
    ('0' as int + d) as char
  }

  /** Value of a string of ASCII digits. */
  function DigitsValue(s: string): nat
    requires forall i :: 0 <= i < |s| ==> IsAsciiDigit(s[i])
  {
    if s == [] then 0 else DigitsValue(s[..|s| - 1]) * 10 + DigitValue(s[|s| - 1])
  }

  /** Decimal digits of `n`, no leading zero (`Long.toString` for n >= 0). */
  function Decimal(n: nat): (s: string)
    ensures |s| >= 1
    ensures forall i :: 0 <= i < |s| ==> IsAsciiDigit(s[i])
    ensures |s| > 1 ==> s[0] != '0'
  {
    if n < 10 then [DigitChar(n)] else Decimal(n / 10) + [DigitChar(n % 10)]
  }

  lemma {:induction false} DecimalValue(n: nat)
    ensures DigitsValue(Decimal(n)) == n
  {
    if n >= 10 {
      DecimalValue(n / 10);
      var s := Decimal(n);
      assert s[..|s| - 1] == Decimal(n / 10);
    }
  }

  function Pow10(k: nat): (p: nat)
    ensures p >= 1
  {
    if k == 0 then 1 else 10 * Pow10(k - 1)
  }

  /** A string of `k` digits has a value below `10^k`. */
  lemma {:induction false} DigitsValueBound(s: string)
    requires forall i :: 0 <= i < |s| ==> IsAsciiDigit(s[i])
    ensures DigitsValue(s) < Pow10(|s|)
  {
    if s != [] { DigitsValueBound(s[..|s| - 1]); }
  }

  /** A number below `10^k` has at most `k` decimal digits. */
  lemma {:induction false} DecimalLength(n: nat, k: nat)
    requires 1 <= k && n < Pow10(k)
    ensures |Decimal(n)| <= k
  {
    if n >= 10 { DecimalLength(n / 10, k - 1); }
  }

  /** Decimal digits of `n`, left-padded with zeros to `width` chars. */
  function PadDecimal(n: nat, width: nat): (s: string)
    ensures |s| >= width && |s| >= 1
    ensures forall i :: 0 <= i < |s| ==> IsAsciiDigit(s[i])
  {
    var d := Decimal(n);
    if |d| >= width then d else Zeros(width - |d|) + d
  }

  function Zeros(k: nat): (s: string)
    ensures |s| == k && forall i :: 0 <= i < k ==> s[i] == '0'
  {
    if k == 0 then [] else ['0'] + Zeros(k - 1)
  }
}
