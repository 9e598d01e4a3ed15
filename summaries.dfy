/**
 * `CompletedVisitState`'s texts: the success summary built line by line
 * for each visit type, and the apology sent when the save fails. A
 * summary is a header, one line per non-null field, and a footer.
 */
module Summaries {
  import opened Wrappers
  import opened JavaText
  import opened Dates
  import opened Domain
  import CurrencyUtil

  /** One "• label: value" line of a summary. */
  datatype Line = Line(tag: string, value: string)

  function RenderLine(l: Line): string { l.tag + l.value + "\n" }

  /** The lines one after another. */
  function Concat(ls: seq<Line>): string
  {
    if ls == [] then "" else Concat(ls[..|ls| - 1]) + RenderLine(ls[|ls| - 1])
  }

  lemma ConcatSnoc(ls: seq<Line>, l: Line)
    ensures Concat(ls + [l]) == Concat(ls) + RenderLine(l)
  {
    assert (ls + [l])[..|ls + [l]| - 1] == ls;
  }

  const SpkLabel := "• SPK: "
  const NameLabel := "• Nama: "
  const NoteLabel := "• Catatan: "
  const ReminderLabel := "• Reminder: "
  const AppointmentLabel := "• Janji Bayar: "
  const UsahaLabel := "• Kondisi Usaha: "
  const AddressLabel := "• Alamat: "
  const InterestedLabel := "• Minat: "
  /** The plafond label ends in "Rp " and the amount is itself prefixed "Rp". */
  const PlafondLabel := "• Plafond: Rp "

  /** The line of an optional field: present exactly when the field is. */
  function Optional(tag: string, value: Option<string>): (r: seq<Line>)
    ensures value.None? ==> r == []
    ensures value.Some? ==> r == [Line(tag, value.value)]
  {
    if value.Some? then [Line(tag, value.value)] else []
  }

  function MapOpt<T, U>(o: Option<T>, f: T -> U): Option<U>
  {
    match o
    case None => None
    case Some(x) => Some(f(x))
  }

  /** `builder`: the SPK, name and note lines shared by the collection summaries. */
  function CommonLines(v: Visit): seq<Line>
  {
    Optional(SpkLabel, v.spk) + Optional(NameLabel, v.name) + Optional(NoteLabel, v.note)
  }

  function ReminderText(v: Visit): Option<string> { MapOpt(v.reminderDate, DateString) }

  function AppointmentText(v: Visit): Option<string>
  {
    MapOpt(v.appointment, (a: int) => CurrencyUtil.FormatRupiah(Some(a)))
  }

  function PlafondText(v: Visit): Option<string>
  {
    MapOpt(v.plafond, (p: int) => CurrencyUtil.FormatRupiah(Some(p)))
  }

  /** The detail lines of each summary, in the order they are appended. */
  function Lines(t: VisitType, v: Visit): seq<Line>
  {
    match t
    case Tagihan =>
      CommonLines(v) + Optional(ReminderLabel, ReminderText(v)) + Optional(AppointmentLabel, AppointmentText(v))
    case Monitoring => CommonLines(v) + Optional(UsahaLabel, v.usaha)
    case Canvasing =>
      Optional(NameLabel, v.name) + Optional(AddressLabel, v.address)
      + Optional(InterestedLabel, v.interested) + Optional(UsahaLabel, v.usaha)
    case Survey =>
      Optional(NameLabel, v.name) + Optional(PlafondLabel, PlafondText(v)) + Optional(UsahaLabel, v.usaha)
    case Informational => []
  }

  /** `getVisitTypeName`; the switch has no case for informational visits. */
  function VisitTypeName(t: VisitType): (r: Option<string>)
    ensures r.None? <==> t == Informational
  {
    match t
    case Tagihan => Some("tagihan")
    case Monitoring => Some("monitoring")
    case Canvasing => Some("canvasing")
    case Survey => Some("survey")
    case Informational => None
  }

  /** Different visit types have different names. */
  lemma VisitTypeNameInjective(t: VisitType, u: VisitType)
    requires VisitTypeName(t).Some? && VisitTypeName(t) == VisitTypeName(u)
    ensures t == u
  {
  }

  function Header(t: VisitType): string
  {
    match t
    case Tagihan => "✅ *Data Tagihan Berhasil Disimpan*\n\n\U{1F4CB} *Detail Tagihan:*\n"
    case Monitoring => "✅ *Data Monitoring Berhasil Disimpan*\n\n\U{1F4CA} *Detail Monitoring:*\n"
    case Canvasing => "✅ *Data Canvasing Berhasil Disimpan*\n\n\U{1F3AF} *Detail Canvasing:*\n"
    case Survey => "✅ *Data Survey Berhasil Disimpan*\n\n\U{1F4DD} *Detail Survey:*\n"
    case Informational => ""
  }

  function Footer(t: VisitType): string
  {
    "\nTerima kasih! Data " + VisitTypeName(t).GetOr("") + " telah tersimpan di sistem."
  }

  /** The visits a summary exists for: typed and not informational. */
  predicate HasSummary(v: Visit)
  {
    v.visitType.Some? && v.visitType.value != Informational
  }

  /**
   * `buildSuccessMessage`: the summary of a saved visit; `None` when the
   * visit has no type or is informational (the switch fails, and so does
   * the fallback apology, so nothing is sent).
   */
  function SuccessText(v: Visit): (r: Option<string>)
    ensures r.Some? <==> HasSummary(v)
    ensures r.Some? ==> r.value == Header(v.visitType.value) + Concat(Lines(v.visitType.value, v)) + Footer(v.visitType.value)
  {
    match v.visitType
    case None => None
    case Some(t) => if t == Informational then None else Some(Header(t) + Concat(Lines(t, v)) + Footer(t))
  }

  /** `sendErrorMessage`'s apology, naming the visit type. */
  function ErrorText(t: Option<VisitType>): (r: Option<string>)
    ensures r.Some? <==> t.Some? && t.value != Informational
  {
    if t.None? || VisitTypeName(t.value).None? then None
    else Some("❌ Maaf, terjadi kesalahan saat menyimpan data " + VisitTypeName(t.value).value
              + ".\n\nSilakan coba lagi atau hubungi administrator jika masalah berlanjut.")
  }

  /**
   * A summary has exactly one line per non-null field the type lists, with
   * that field's value: for a collection visit, the SPK, name and note,
   * then the reminder date and the promised amount.
   */
  lemma TagihanLinesExact(v: Visit, l: Line)
    ensures l in Lines(Tagihan, v) <==>
            ( (l.tag == SpkLabel && v.spk == Some(l.value))
           || (l.tag == NameLabel && v.name == Some(l.value))
           || (l.tag == NoteLabel && v.note == Some(l.value))
           || (l.tag == ReminderLabel && ReminderText(v) == Some(l.value))
           || (l.tag == AppointmentLabel && AppointmentText(v) == Some(l.value)) )
  {
  }

  /** The monitoring summary: SPK, name, note and business condition. */
  lemma MonitoringLinesExact(v: Visit, l: Line)
    ensures l in Lines(Monitoring, v) <==>
            ( (l.tag == SpkLabel && v.spk == Some(l.value))
           || (l.tag == NameLabel && v.name == Some(l.value))
           || (l.tag == NoteLabel && v.note == Some(l.value))
           || (l.tag == UsahaLabel && v.usaha == Some(l.value)) )
  {
  }

  /** The canvasing summary: name, address, interest and business condition. */
  lemma CanvasingLinesExact(v: Visit, l: Line)
    ensures l in Lines(Canvasing, v) <==>
            ( (l.tag == NameLabel && v.name == Some(l.value))
           || (l.tag == AddressLabel && v.address == Some(l.value))
           || (l.tag == InterestedLabel && v.interested == Some(l.value))
           || (l.tag == UsahaLabel && v.usaha == Some(l.value)) )
  {
  }

  /** The survey summary: name, plafond and business condition. */
  lemma SurveyLinesExact(v: Visit, l: Line)
    ensures l in Lines(Survey, v) <==>
            ( (l.tag == NameLabel && v.name == Some(l.value))
           || (l.tag == PlafondLabel && PlafondText(v) == Some(l.value))
           || (l.tag == UsahaLabel && v.usaha == Some(l.value)) )
  {
  }

  /** The survey plafond line of a non-negative plafond reads "Rp Rp…": label and amount both carry the prefix. */
  lemma SurveyPlafondSaysRpTwice(v: Visit)
    requires v.plafond.Some? && v.plafond.value >= 0
    ensures Line(PlafondLabel, CurrencyUtil.FormatRupiah(v.plafond)) in Lines(Survey, v)
    ensures StartsWith(RenderLine(Line(PlafondLabel, CurrencyUtil.FormatRupiah(v.plafond))), "• Plafond: Rp Rp")
  {
    var g := CurrencyUtil.Group(Decimal(v.plafond.value));
    assert CurrencyUtil.FormatRupiah(v.plafond) == "Rp" + g;
    var line := PlafondLabel + ("Rp" + g) + "\n";
    assert line == "• Plafond: Rp Rp" + (g + "\n");
  }

  /** Appends a line to a summary being built, like `StringBuilder.append`. */
  method AppendOptional(msg: string, ghost ls: seq<Line>, tag: string, value: Option<string>)
    returns (out: string, ghost ls': seq<Line>)
    requires msg == Concat(ls)
    ensures ls' == ls + Optional(tag, value) && out == Concat(ls')
  {
    out := msg;
    ls' := ls;
    if value.Some? {
      ConcatSnoc(ls, Line(tag, value.value));
      out := out + tag + value.value + "\n";
      ls' := ls + [Line(tag, value.value)];
    }
  }

  /** `buildTagihanSuccessMessage` and its siblings, appending one line at a time. */
  method BuildSuccessMessage(v: Visit) returns (msg: Option<string>)
    ensures msg == SuccessText(v)
  {
    if v.visitType.None? || v.visitType.value == Informational {
      return None;
    }
    var t := v.visitType.value;
    var body: string := "";
    ghost var ls: seq<Line> := [];
    match t {
      case Tagihan =>
        body, ls := AppendOptional(body, ls, SpkLabel, v.spk);
        body, ls := AppendOptional(body, ls, NameLabel, v.name);
        body, ls := AppendOptional(body, ls, NoteLabel, v.note);
        body, ls := AppendOptional(body, ls, ReminderLabel, ReminderText(v));
        body, ls := AppendOptional(body, ls, AppointmentLabel, AppointmentText(v));
      case Monitoring =>
        body, ls := AppendOptional(body, ls, SpkLabel, v.spk);
        body, ls := AppendOptional(body, ls, NameLabel, v.name);
        body, ls := AppendOptional(body, ls, NoteLabel, v.note);
        body, ls := AppendOptional(body, ls, UsahaLabel, v.usaha);
      case Canvasing =>
        body, ls := AppendOptional(body, ls, NameLabel, v.name);
        body, ls := AppendOptional(body, ls, AddressLabel, v.address);
        body, ls := AppendOptional(body, ls, InterestedLabel, v.interested);
        body, ls := AppendOptional(body, ls, UsahaLabel, v.usaha);
      case Survey =>
        body, ls := AppendOptional(body, ls, NameLabel, v.name);
        body, ls := AppendOptional(body, ls, PlafondLabel, PlafondText(v));
        body, ls := AppendOptional(body, ls, UsahaLabel, v.usaha);
    }
    assert ls == Lines(t, v);
    msg := Some(Header(t) + body + Footer(t));
  }
}
