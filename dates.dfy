/**
 * Calendar dates and instants as the bot uses them.  The zone is
 * Asia/Jakarta, a fixed UTC+07:00 offset, so an instant is identified with
 * its Jakarta wall-clock coordinates (date, nanosecond of day); their
 * lexicographic order is the order of instants.  Also `DateRangeUtil`:
 * inclusive ranges from the start of one day to the last nanosecond of
 * another, and `LocalDate.parse` on ISO `yyyy-MM-dd` text.
 */
module Dates {
  import opened Wrappers
  import opened JavaText

  datatype Date = Date(year: int, month: int, day: int)

  predicate IsLeap(y: int) { y % 4 == 0 && (y % 100 != 0 || y % 400 == 0) }

  function DaysInMonth(y: int, m: int): int
  {
    if m == 2 then (if IsLeap(y) then 29 else 28)
    else if m == 4 || m == 6 || m == 9 || m == 11 then 30
    else 31
  }

  /** A day of the proleptic Gregorian calendar, as `LocalDate` admits. */
  predicate ValidDate(d: Date) { 1 <= d.month <= 12 && 1 <= d.day <= DaysInMonth(d.year, d.month) }

  /** `LocalDate.isBefore`. */
  predicate Before(a: Date, b: Date)
  {
    a.year < b.year
    || (a.year == b.year && (a.month < b.month || (a.month == b.month && a.day < b.day)))
  }

  /** `LocalDate.minusDays(1)`. */
  function PrevDay(d: Date): (p: Date)
    requires ValidDate(d)
    ensures ValidDate(p) && Before(p, d)
    ensures forall x :: ValidDate(x) && Before(x, d) ==> !Before(p, x)
  {
    if d.day > 1 then Date(d.year, d.month, d.day - 1)
    else if d.month > 1 then Date(d.year, d.month - 1, DaysInMonth(d.year, d.month - 1))
    else Date(d.year - 1, 12, 31)
  }

  /** Nanoseconds in a day; `LocalTime.MAX` is the last of them. */
  const NanosPerDay: int := 86_400_000_000_000
  const EndOfDayNano: int := NanosPerDay - 1

  datatype Instant = Instant(date: Date, nanoOfDay: int)

  predicate ValidInstant(i: Instant) { ValidDate(i.date) && 0 <= i.nanoOfDay < NanosPerDay }

  /** `Instant.isBefore`. */
  predicate InstantBefore(a: Instant, b: Instant)
  {
    Before(a.date, b.date) || (a.date == b.date && a.nanoOfDay < b.nanoOfDay)
  }

  /** `date.atStartOfDay(JAKARTA_ZONE).toInstant()`. */
  function StartOfDay(d: Date): Instant { Instant(d, 0) }

  /** `date.atTime(LocalTime.MAX).atZone(JAKARTA_ZONE).toInstant()`. */
  function EndOfDay(d: Date): Instant { Instant(d, EndOfDayNano) }

  /** `instant.atZone(JAKARTA_ZONE).toLocalDate()`. */
  function LocalDateOf(i: Instant): Date { i.date }

  /** A `DateRange` record; its constructor refuses a start after the end. */
  datatype DateRange = DateRange(start: Instant, end: Instant)

  function NewDateRange(start: Instant, end: Instant): (r: Option<DateRange>)
    ensures r.Some? <==> !InstantBefore(end, start)
    ensures r.Some? ==> r.value.start == start && r.value.end == end
  {
    if InstantBefore(end, start) then None else Some(DateRange(start, end))
  }

  /** `DateRange.contains`: both ends included. */
  predicate Contains(r: DateRange, i: Instant)
  {
    !InstantBefore(i, r.start) && !InstantBefore(r.end, i)
  }

  /** `createDateRange(LocalDate, LocalDate)`; `None` is the refused range. */
  function CreateDateRange(startDate: Date, endDate: Date): (r: Option<DateRange>)
    ensures r.Some? <==> !Before(endDate, startDate)
  {
    NewDateRange(StartOfDay(startDate), EndOfDay(endDate))
  }

  /** `createDayRange(LocalDate)`. */
  function CreateDayRange(d: Date): (r: Option<DateRange>)
    ensures r.Some?
  {
    CreateDateRange(d, d)
  }

  /** A day range holds exactly the instants whose Jakarta date is that day. */
  lemma DayRangeContains(d: Date, i: Instant)
    requires ValidInstant(i)
    ensures Contains(CreateDayRange(d).value, i) <==> LocalDateOf(i) == d
  {
    DateRangeContains(d, d, i);
  }

  /** A range built from two dates holds exactly the instants of the days between them. */
  lemma DateRangeContains(a: Date, b: Date, i: Instant)
    requires !Before(b, a) && ValidInstant(i)
    ensures Contains(CreateDateRange(a, b).value, i) <==> !Before(i.date, a) && !Before(b, i.date)
  {
  }

  /** Both ends of a range are inside it. */
  lemma RangeHoldsItsEnds(r: DateRange)
    requires NewDateRange(r.start, r.end).Some?
    ensures Contains(r, r.start) && Contains(r, r.end)
  {
  }

  predicate DigitsAt(s: string, lo: nat, hi: nat)
    requires lo <= hi <= |s|
  {
    forall i :: lo <= i < hi ==> IsAsciiDigit(s[i])
  }

  /**
   * `LocalDate.parse` with `ISO_LOCAL_DATE` on a four-digit year:
   * `yyyy-MM-dd`, with month and day checked against the calendar; any
   * other text is the `DateTimeParseException` case, here `None`.
   */
  function ParseDate(s: string): (r: Option<Date>)
    ensures r.Some? ==> ValidDate(r.value) && 0 <= r.value.year <= 9999
  {
    if |s| == 10 && DigitsAt(s, 0, 4) && s[4] == '-' && DigitsAt(s, 5, 7) && s[7] == '-' && DigitsAt(s, 8, 10) then
      var d := Date(DigitsValue(s[0..4]), DigitsValue(s[5..7]), DigitsValue(s[8..10]));
      DigitsValueBound(s[0..4]);
      if ValidDate(d) then Some(d) else None
    else None
  }

  /** `LocalDate.toString` for a four-digit year. */
  function FormatIso(d: Date): string
    requires ValidDate(d) && 0 <= d.year <= 9999
  {
    PadDecimal(d.year, 4) + "-" + PadDecimal(d.month, 2) + "-" + PadDecimal(d.day, 2)
  }

  /**
   * `LocalDate.toString` for any year: four digits at least, a '+' before
   * a year above 9999 and a '-' before a negative one. Month and day are
   * clamped at 0 only so that the function is total; a valid date never
   * needs it.
   */
  function DateString(d: Date): (s: string)
    ensures ValidDate(d) && 0 <= d.year <= 9999 ==> s == FormatIso(d)
  {
    var y := if 0 <= d.year <= 9999 then PadDecimal(d.year, 4)
             else if d.year > 9999 then "+" + Decimal(d.year)
             else "-" + PadDecimal(-d.year, 4);
    y + "-" + PadDecimal(if d.month < 0 then 0 else d.month, 2) + "-" + PadDecimal(if d.day < 0 then 0 else d.day, 2)
  }

  /** `DateTimeFormatter.ofPattern("dd/MM/yyyy")`. */
  function FormatDayMonthYear(d: Date): string
    requires ValidDate(d) && 0 <= d.year <= 9999
  {
    PadDecimal(d.day, 2) + "/" + PadDecimal(d.month, 2) + "/" + PadDecimal(d.year, 4)
  }

  lemma {:induction false} ZerosValue(k: nat, s: string)
    requires forall i :: 0 <= i < |s| ==> IsAsciiDigit(s[i])
    ensures DigitsValue(Zeros(k) + s) == DigitsValue(s)
    decreases k + |s|
  {
    if s == [] {
      if k > 0 {
        assert (Zeros(k) + s)[..k - 1] == Zeros(k - 1) + [];
        ZerosValue(k - 1, []);
      }
    } else {
      assert (Zeros(k) + s)[..|Zeros(k) + s| - 1] == Zeros(k) + s[..|s| - 1];
      ZerosValue(k, s[..|s| - 1]);
    }
  }

  lemma PadDecimalValue(n: nat, width: nat)
    ensures DigitsValue(PadDecimal(n, width)) == n
  {
    DecimalValue(n);
    var d := Decimal(n);
    if |d| < width { ZerosValue(width - |d|, d); }
  }

  /** `LocalDate.parse` reads back what `LocalDate.toString` prints. */
  lemma ParseFormatIso(d: Date)
    requires ValidDate(d) && 0 <= d.year <= 9999
    ensures ParseDate(FormatIso(d)) == Some(d)
  {
    var y, m, dd := PadDecimal(d.year, 4), PadDecimal(d.month, 2), PadDecimal(d.day, 2);
    DecimalLength(d.year, 4);
    DecimalLength(d.month, 2);
    DecimalLength(d.day, 2);
    var s := FormatIso(d);
    assert s == y + "-" + m + "-" + dd;
    assert s[0..4] == y && s[5..7] == m && s[8..10] == dd;
    PadDecimalValue(d.year, 4);
    PadDecimalValue(d.month, 2);
    PadDecimalValue(d.day, 2);
  }
}
