/**
 * `StateChangedListener`'s prompts: for each state but `Completed` (which
 * is finalized instead) the text asking the agent for the next field,
 * sent to the visit's `userId`. Each prompt is a fixed text around one
 * slot that shows the customer's name.
 */
module Prompts {
  import opened Wrappers
  import opened JavaText
  import opened Domain

  /** A prompt: the text before the name slot and the text after it. */
  datatype Template = Template(before: string, after: string)

  const RegisterPrompt := Template("Hai!!! Kamu akan simpan data ",
    " di database tagihan hari ini\n\nTapi Kamu Belum terdaftar pada database user kami, silahkan kirim nama panggilan anda.")
  const SpkPrompt := Template("Silahkan masukkan nomor SPK untuk tagihan ", ".\n\nContoh: 1075xxxxxxxxx")
  const CaptionPrompt := Template("Silahkan masukkan caption/keterangan untuk tagihan an ",
    "\n\nContoh: Penagihan Slamet Agustus Janji Bayar Tanggal 21")
  const ReminderPrompt := Template("Silahkan masukkan tanggal reminder untuk tagihan ",
    "\n\nFormat: YYYY-MM-DD\nContoh: 2026-01-12")
  const LimitPrompt := Template("Silahkan masukkan plafond yang diajukan oleh ",
    "\n\nFormat: 10,0rb|ribu|jt|juta|million|m|k\nContoh: 5,7jt")
  const AppointmentPrompt := Template("Apakah ",
    " berjanji akan bayar tagihan pada tanggal yang telah ditentukan?\n\nFormat: 10,0rb|ribu|jt|juta|million|m|k\nContoh: 5,7jt")
  const UsahaLead := "Jelaskan kondisi usaha "
  const UsahaAsk := ", atau kosong jika tidak ingin mengisi kondisi usaha.\n\nContoh: "
  /** The example of the business-condition prompt for canvasing and survey visits. */
  const ProspectExample := "Usaha Kue Kering"
  /** The example for the other visit types. */
  const CustomerExample := "Usaha berjalan lancar, omset stabil, sudah memiliki produk yang berkualitas"
  const NamePrompt := Template("Silahkan masukkan nama lengkap nasabah/calon nasabah.\n\nContoh: Budi Santoso", "")
  const AddressPrompt := Template("Silahkan masukkan alamat lengkap ", ".\n\nContoh: Desa Lamuk RT 006 RW 008\n")

  /** The business-condition example a visit type gets. */
  function UsahaExample(t: VisitType): string
  {
    if t == Canvasing || t == Survey then ProspectExample else CustomerExample
  }

  /**
   * The template of a state; `None` for `Completed` (no prompt), for
   * `AddInterested` (no case in the switch) and for `AddUsaha` on a visit
   * without a type. In that last case the type comparison throws while the
   * notification is being built, before `onErrorResume` is attached, so
   * the exception escapes the listener and no prompt is sent. The state
   * engine never reaches it: resolving the next state compares the visit's
   * type first and throws the same way.
   */
  function TemplateOf(s: State, t: Option<VisitType>): (r: Option<Template>)
    ensures r.None? <==> s == Completed || s == AddInterested || (s == AddUsaha && t.None?)
  {
    match s
    case Register => Some(RegisterPrompt)
    case AddSpk => Some(SpkPrompt)
    case AddCaption => Some(CaptionPrompt)
    case AddReminder => Some(ReminderPrompt)
    case AddLimit => Some(LimitPrompt)
    case AddAppointment => Some(AppointmentPrompt)
    case AddUsaha =>
      if t.None? then None else Some(Template(UsahaLead, UsahaAsk + UsahaExample(t.value) + "\n"))
    case AddName => Some(NamePrompt)
    case AddAddress => Some(AddressPrompt)
    case Completed => None
    case AddInterested => None
  }

  /**
   * What fills the slot: the name, or "" when there is none; the address
   * prompt says "calon nasabah" instead, the caption prompt upper-cases the
   * name (`%S`), and the name prompt has no slot.
   */
  function Shown(s: State, name: Option<string>): (r: string)
    ensures s == AddName ==> r == ""
    ensures s == AddCaption ==> r == ToUpper(name.GetOr(""))
    ensures s == AddAddress ==> r == name.GetOr("calon nasabah")
    ensures s != AddName && s != AddCaption && s != AddAddress ==> r == name.GetOr("")
  {
    match s
    case AddName => ""
    case AddCaption => ToUpper(name.GetOr(""))
    case AddAddress => name.GetOr("calon nasabah")
    case _ => name.GetOr("")
  }

  /**
   * The states the listener has a prompt for: all but `Completed` and
   * `AddInterested`, and `AddUsaha` only on a typed visit.
   */
  predicate HasPrompt(s: State, t: Option<VisitType>)
  {
    s != Completed && s != AddInterested && (s == AddUsaha ==> t.Some?)
  }

  /** There is a template exactly where there is a prompt. */
  lemma TemplateWherePrompt(s: State, t: Option<VisitType>)
    ensures TemplateOf(s, t).Some? <==> HasPrompt(s, t)
  {
  }

  /** The text of a prompt: its template around what fills the slot. */
  function PromptText(s: State, t: Option<VisitType>, name: Option<string>): (r: Option<string>)
    ensures r.Some? <==> HasPrompt(s, t)
    ensures r.Some? ==> r.value == TemplateOf(s, t).value.before + Shown(s, name) + TemplateOf(s, t).value.after
  {
    match TemplateOf(s, t)
    case None => None
    case Some(tpl) => Some(tpl.before + Shown(s, name) + tpl.after)
  }

  /** `sendNotification`'s message for a session, if any is sent. */
  function Notification(sd: StateData): (r: Option<Outbound>)
    ensures r.Some? ==> r.value.phone == sd.visit.userId && r.value.replyTo.None?
    ensures r.Some? ==> r.value.content == Prompt(sd.currentState, sd.visit.visitType, sd.visit.name)
    ensures r.Some? <==> !IsBlank(sd.visit.userId) && HasPrompt(sd.currentState, sd.visit.visitType)
  {
    if IsBlank(sd.visit.userId) || !HasPrompt(sd.currentState, sd.visit.visitType) then None
    else Some(Outbound(sd.visit.userId, Prompt(sd.currentState, sd.visit.visitType, sd.visit.name), None))
  }

  /** The text of a notification. */
  function NotificationText(sd: StateData): (r: Option<string>)
    ensures r.Some? <==> Notification(sd).Some?
  {
    match Notification(sd)
    case None => None
    case Some(m) => PromptText(sd.currentState, sd.visit.visitType, sd.visit.name)
  }

  /** Every prompt carries its slot: the customer's name, or its stand-in. */
  lemma PromptShowsName(sd: StateData)
    requires Notification(sd).Some?
    ensures var tpl := TemplateOf(sd.currentState, sd.visit.visitType).value;
            NotificationText(sd) == Some(tpl.before + Shown(sd.currentState, sd.visit.name) + tpl.after)
    ensures Contains(NotificationText(sd).value, Shown(sd.currentState, sd.visit.name))
  {
    var tpl := TemplateOf(sd.currentState, sd.visit.visitType).value;
    var shown := Shown(sd.currentState, sd.visit.name);
    var text := tpl.before + shown + tpl.after;
    assert text[|tpl.before|..|tpl.before| + |shown|] == shown;
    assert ContainsAt(text, shown, |tpl.before|);
  }

  /** The business-condition prompt of a visit: its type picks the example. */
  lemma UsahaText(v: Visit)
    requires v.visitType.Some? && !IsBlank(v.userId)
    ensures NotificationText(StateData(AddUsaha, v))
            == Some(UsahaLead + v.name.GetOr("") + UsahaAsk + UsahaExample(v.visitType.value) + "\n")
  {
    var n := v.name.GetOr("");
    var e := UsahaExample(v.visitType.value);
    var tpl := Template(UsahaLead, UsahaAsk + e + "\n");
    assert TemplateOf(AddUsaha, v.visitType) == Some(tpl);
    assert Shown(AddUsaha, v.name) == n;
    assert PromptText(AddUsaha, v.visitType, v.name) == Some(UsahaLead + n + tpl.after);
    assert UsahaLead + n + (UsahaAsk + e + "\n") == UsahaLead + n + UsahaAsk + e + "\n";
  }

  /** The business-condition prompt gives a shorter example for canvasing and survey visits. */
  lemma UsahaExampleByType(v: Visit, w: Visit)
    requires v.visitType == Some(Canvasing) || v.visitType == Some(Survey)
    requires w.visitType == Some(Tagihan) || w.visitType == Some(Monitoring) || w.visitType == Some(Informational)
    requires v.name == w.name
    requires !IsBlank(v.userId) && !IsBlank(w.userId)
    ensures NotificationText(StateData(AddUsaha, v)).Some? && NotificationText(StateData(AddUsaha, w)).Some?
    ensures |NotificationText(StateData(AddUsaha, v)).value| < |NotificationText(StateData(AddUsaha, w)).value|
  {
    UsahaText(v);
    UsahaText(w);
    ExampleLengths();
  }

  lemma ExampleLengths()
    ensures |ProspectExample| < |CustomerExample|
  {
  }

  /** No prompt goes to a blank recipient, and `Completed` never prompts. */
  lemma NoPromptWithoutRecipient(sd: StateData)
    requires IsBlank(sd.visit.userId) || sd.currentState == Completed
    ensures Notification(sd).None?
  {
  }
}
