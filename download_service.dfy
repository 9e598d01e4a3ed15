/**
 * The line pipeline of `DownloadService.downloadAndParseCsv`: the bill
 * export is read line by line, the header and blank lines are skipped,
 * every line is split on commas, rows of fewer than 30 columns are
 * dropped, every column is unquoted, and each row becomes one `Bills`.
 */
module DownloadService {
  import opened Wrappers
  import opened JavaText
  import opened JavaLong
  import opened Domain

  /** Rows with fewer columns than this are dropped. */
  const MinColumns := 30

  const Quote: char := '"'

  /** `removeQuotes`: trim, then drop one enclosing pair of double quotes. */
  function RemoveQuotes(value: string): (r: string)
    ensures var t := Trim(value);
            if |t| > 1 && t[0] == Quote && t[|t| - 1] == Quote then r == t[1..|t| - 1] else r == t
  {
    var t := Trim(value);
    if |t| > 1 && t[0] == Quote && t[|t| - 1] == Quote then t[1..|t| - 1] else t
  }

  /**
   * Unquoting reverses quoting, and only one pair is removed: a value
   * quoted twice comes back quoted once.
   */
  lemma RemoveQuotesOfQuoted(x: string)
    ensures RemoveQuotes([Quote] + x + [Quote]) == x
    ensures RemoveQuotes([Quote] + [Quote] + x + [Quote] + [Quote]) == [Quote] + x + [Quote]
  {
    var q := [Quote] + x + [Quote];
    TrimKeeps(q);
    assert q[1..|q| - 1] == x;
    var qq := [Quote] + [Quote] + x + [Quote] + [Quote];
    TrimKeeps(qq);
    assert qq[1..|qq| - 1] == q;
  }

  /** A single `"` is not a quoted value and stays. */
  lemma LoneQuoteKept()
    ensures RemoveQuotes([Quote]) == [Quote]
  {
    TrimKeeps([Quote]);
  }

  /** `parseLong`: the trimmed decimal value, 0 for anything `Long.parseLong` rejects. */
  function ParseLongOrZero(value: string): (r: int)
    ensures InRange(r)
    ensures ParseLong(Trim(value)).Some? ==> r == ParseLong(Trim(value)).value
    ensures ParseLong(Trim(value)).None? ==> r == 0
  {
    ParseLong(Trim(value)).GetOr(0)
  }

  /** A printed `long` reads back, surrounding blanks or not. */
  lemma ParseLongOrZeroOfPrinted(n: int)
    requires InRange(n)
    ensures ParseLongOrZero(LongToString(n)) == n
    ensures ParseLongOrZero(" " + LongToString(n) + " ") == n
  {
    var s := LongToString(n);
    PrintedLongIsTrimmed(n);
    TrimKeeps(s);
    ParseLongToString(n);
    var p := " " + s + " ";
    assert LeadEnd(p, 1) == 1;
    assert TailStart(p, 1, |p| - 1) == |p| - 1;
    assert TailStart(p, 1, |p|) == |p| - 1;
    assert p[1..|p| - 1] == s;
  }

  /** `Long.toString` starts with `-` or a digit and ends with a digit. */
  lemma PrintedLongIsTrimmed(n: int)
    ensures var s := LongToString(n); !IsTrimmed(s[0]) && !IsTrimmed(s[|s| - 1])
  {
    var d := if n < 0 then Decimal(-n) else Decimal(n);
    assert IsAsciiDigit(d[0]) && IsAsciiDigit(d[|d| - 1]);
  }

  /** The placeholders of the export (`INVALID`, `N/A`, `NULL`, blank) all read as 0. */
  lemma PlaceholdersReadAsZero()
    ensures ParseLongOrZero("INVALID") == 0 && ParseLongOrZero("invalid") == 0
    ensures ParseLongOrZero("N/A") == 0 && ParseLongOrZero("NULL") == 0 && ParseLongOrZero("  ") == 0
  {
    TrimKeeps("INVALID");
    ParseLongRejectsNonDigit("INVALID", 1);
    TrimKeeps("invalid");
    ParseLongRejectsNonDigit("invalid", 1);
    TrimKeeps("N/A");
    ParseLongRejectsNonDigit("N/A", 1);
    TrimKeeps("NULL");
    ParseLongRejectsNonDigit("NULL", 1);
  }

  /** `parseLong` of each column, in column order. */
  function Amounts(columns: seq<string>): (r: seq<int>)
    ensures |r| == |columns|
  {
    if columns == [] then [] else [ParseLongOrZero(columns[0])] + Amounts(columns[1..])
  }

  /** The `k`-th amount is the `k`-th column read as a number. */
  lemma {:induction false} AmountAt(columns: seq<string>, k: nat)
    requires k < |columns|
    ensures Amounts(columns)[k] == ParseLongOrZero(columns[k])
    decreases k
  {
    if k > 0 {
      AmountAt(columns[1..], k - 1);
    }
  }

  /**
   * `mapToBill`: columns 0-12 are texts, 13-25 numbers, 26 the account
   * officer, 27 is skipped, 28 the kiosk and 29 the deposit when present,
   * 30 the fixed interest, 0 when the row has only 30 columns.
   */
  function MapToBill(line: seq<string>): (b: Bills)
    requires |line| >= 27
    ensures |line| <= 28 ==> b.kios == []
    ensures |line| <= 29 ==> b.titipan == 0
    ensures |line| <= 30 ==> b.fixedInterest == 0
  {
    var n := Amounts(line[13..26]);
    var extra := if |line| > 29 then Amounts(line[29..]) else [];
    Bills(line[0], line[1], line[2], line[3], line[4], line[5], line[6], line[7],
          line[8], line[9], line[10], line[11], line[12],
          n[0], n[1], n[2], n[3], n[4], n[5], n[6], n[7], n[8], n[9], n[10], n[11], n[12],
          line[26],
          if |line| > 28 then line[28] else "",
          if |line| > 29 then extra[0] else 0,
          if |line| > 30 then extra[1] else 0)
  }

  /** Every number of a bill fits in a `long`, as every bill read from a row does. */
  predicate LongFields(b: Bills)
  {
    InRange(b.plafond) && InRange(b.debitTray) && InRange(b.interest) && InRange(b.principal)
    && InRange(b.installment) && InRange(b.lastInterest) && InRange(b.lastPrincipal)
    && InRange(b.lastInstallment) && InRange(b.fullPayment) && InRange(b.minInterest)
    && InRange(b.minPrincipal) && InRange(b.penaltyInterest) && InRange(b.penaltyPrincipal)
    && InRange(b.titipan) && InRange(b.fixedInterest)
  }

  /** Every amount is a `long`. */
  lemma AmountsInRange(columns: seq<string>)
    ensures forall k :: 0 <= k < |columns| ==> InRange(Amounts(columns)[k])
  {
    forall k | 0 <= k < |columns|
      ensures InRange(Amounts(columns)[k])
    {
      AmountAt(columns, k);
    }
  }

  lemma MappedBillFitsLong(line: seq<string>)
    requires |line| >= 27
    ensures LongFields(MapToBill(line))
  {
    AmountsInRange(line[13..26]);
    if |line| > 29 {
      AmountsInRange(line[29..]);
    }
  }

  /** Numeric columns 13, 19 and 25 (the first, a middle and the last of the amounts) and the deposit are read from their own column. */
  lemma MappedAmountsFromColumns(line: seq<string>)
    requires |line| >= 27
    ensures MapToBill(line).plafond == ParseLongOrZero(line[13])
    ensures MapToBill(line).lastPrincipal == ParseLongOrZero(line[19])
    ensures MapToBill(line).penaltyPrincipal == ParseLongOrZero(line[25])
    ensures |line| > 29 ==> MapToBill(line).titipan == ParseLongOrZero(line[29])
    ensures |line| > 30 ==> MapToBill(line).fixedInterest == ParseLongOrZero(line[30])
  {
    AmountAt(line[13..26], 0);
    AmountAt(line[13..26], 6);
    AmountAt(line[13..26], 12);
    if |line| > 29 {
      AmountAt(line[29..], 0);
    }
    if |line| > 30 {
      AmountAt(line[29..], 1);
    }
  }

  /** The columns after the unquoting loop. */
  function Cleaned(cs: seq<string>): (r: seq<string>)
    ensures |r| == |cs|
  {
    seq(|cs|, i requires 0 <= i < |cs| => RemoveQuotes(cs[i]))
  }

  /** The `for` loop of the pipeline: each column is replaced by its unquoted value, in place. */
  method CleanColumns(columns: array<string>)
    modifies columns
    ensures columns[..] == Cleaned(old(columns[..]))
  {
    var i := 0;
    while i < columns.Length
      invariant 0 <= i <= columns.Length
      invariant forall k :: 0 <= k < i ==> columns[k] == RemoveQuotes(old(columns[k]))
      invariant forall k :: i <= k < columns.Length ==> columns[k] == old(columns[k])
    {
      columns[i] := RemoveQuotes(columns[i]);
      i := i + 1;
    }
  }

  /** The cleaned columns of a line, or `None` when the line is blank or too short. */
  function Row(line: string): (r: Option<seq<string>>)
    ensures r.Some? <==> !IsBlank(line) && |Split(line, ',')| >= MinColumns
    ensures r.Some? ==> r.value == Cleaned(Split(line, ','))
  {
    if IsBlank(line) then None
    else
      var columns := Split(line, ',');
      if |columns| < MinColumns then None else Some(Cleaned(columns))
  }

  /**
   * One line through the stages of the pipeline: blank filter, split,
   * column-count filter, the in-place unquoting loop, `mapToBill`.
   */
  method ParseLine(line: string) returns (b: Option<Bills>)
    ensures b.Some? <==> Row(line).Some?
    ensures b.Some? ==> b.value == MapToBill(Row(line).value)
  {
    if IsBlank(line) {
      return None;
    }
    var parts := Split(line, ',');
    if |parts| < MinColumns {
      return None;
    }
    var columns := new string[|parts|](i requires 0 <= i < |parts| => parts[i]);
    assert columns[..] == parts;
    CleanColumns(columns);
    b := Some(MapToBill(columns[..]));
  }

  /**
   * The bills of the lines after the header: a blank line or one of fewer
   * than 30 columns gives none, any other line one bill.
   */
  function ParsedLines(lines: seq<string>): (bills: seq<Bills>)
    ensures |bills| <= |lines|
  {
    if lines == [] then [] else LineBills(lines[0]) + ParsedLines(lines[1..])
  }

  /** The bill of one line after the header, if any. */
  function LineBills(line: string): (bills: seq<Bills>)
    ensures Row(line).None? ==> bills == []
    ensures Row(line).Some? ==> bills == [MapToBill(Row(line).value)]
  {
    match Row(line)
    case None => []
    case Some(cs) => [MapToBill(cs)]
  }

  /** Lines are read one at a time, so the bills of two parts are the bills of the whole, in order. */
  lemma {:induction false} ParsedLinesAppend(a: seq<string>, b: seq<string>)
    ensures ParsedLines(a + b) == ParsedLines(a) + ParsedLines(b)
    decreases |a|
  {
    if a != [] {
      assert (a + b)[0] == a[0];
      assert (a + b)[1..] == a[1..] + b;
      ParsedLinesAppend(a[1..], b);
    } else {
      assert a + b == b;
    }
  }

  /**
   * A blank or short line gives no bill; any other line gives exactly the
   * bill of its cleaned columns, between the bills of the lines around it.
   */
  lemma LineContribution(a: seq<string>, line: string, b: seq<string>)
    ensures ParsedLines(a + [line] + b) == ParsedLines(a) + ParsedLines([line]) + ParsedLines(b)
    ensures Row(line).None? ==> ParsedLines([line]) == []
    ensures Row(line).Some? ==> ParsedLines([line]) == [MapToBill(Row(line).value)]
  {
    ParsedLinesAppend(a + [line], b);
    ParsedLinesAppend(a, [line]);
    assert [line][1..] == [];
  }

  /** `downloadAndParseCsv` over the lines of the export: the first line is the header. */
  function ParseCsv(lines: seq<string>): (bills: seq<Bills>)
    ensures lines == [] ==> bills == []
    ensures lines != [] ==> bills == ParsedLines(lines[1..])
  {
    if lines == [] then [] else ParsedLines(lines[1..])
  }

  /** Whatever the header says, it never becomes a bill. */
  lemma HeaderIgnored(h: string, lines: seq<string>)
    ensures ParseCsv([h] + lines) == ParsedLines(lines)
  {
    assert ([h] + lines)[1..] == lines;
  }

  /**
   * What `downloadAndParseCsv(url)` produces before any line is parsed.
   * `BadUri`: `URI.create(url)` rejects the text, which throws while the
   * caller is still assembling its pipeline. `Streamed`: the lines of the
   * body that arrive, and whether the stream then ends normally (`complete`)
   * or with an error: a failed request, a broken stream, or the caller's
   * time-out cutting it off after those lines. How much of an incomplete
   * stream is then saved depends on the caller, which stops at the error.
   */
  datatype Fetched = BadUri | Streamed(lines: seq<string>, complete: bool)
}
