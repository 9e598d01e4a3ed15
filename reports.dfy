/**
 * The two report commands that produce a PDF of visits: `VisitPlanSPK`
 * (`lkn`, the visits of one SPK or all of them, for the sender's account
 * officer) and `VisitPlanAccountOfficer` (`rkh`, the visits made today).
 * Each answers with exactly one message: a report, or a text saying why
 * there is none. The PDF itself is recorded as a `Report` content naming
 * its kind, account-officer label, file identifier and visits.
 */
module Reports {
  import opened Wrappers
  import opened JavaText
  import Dates
  import opened Domain
  import opened Stores
  import opened Users

  /** The elements of `s` that satisfy `p`, in order (`Flux.filter`). */
  function Filter(s: seq<Visit>, p: Visit -> bool): (r: seq<Visit>)
    ensures |r| <= |s|
    ensures forall x :: x in r <==> x in s && p(x)
    ensures forall i :: 0 <= i < |r| ==> p(r[i])
  {
    if s == [] then []
    else (if p(s[0]) then [s[0]] else []) + Filter(s[1..], p)
  }

  /** Filtering by a condition every element meets changes nothing. */
  lemma {:induction false} FilterAll(s: seq<Visit>, p: Visit -> bool)
    requires forall i :: 0 <= i < |s| ==> p(s[i])
    ensures Filter(s, p) == s
  {
    if s != [] {
      FilterAll(s[1..], p);
    }
  }

  const LknTrigger := "lkn"
  const RkhTrigger := "rkh"
  const AskSpkMessage := "Silakan masukkan nomor SPK untuk mencetak LKN."
  const UserNotFoundMessage := "User tidak ditemukan. Silakan hubungi administrator."
  const NoMatchMessage := "Tidak ada data kunjungan yang ditemukan untuk kriteria tersebut."
  const NoVisitTodayLead := "Tidak ada data kunjungan untuk hari ini ("
  const NoVisitTodayTail := ")."
  /** The error reply is this text followed by the exception's message, which the model does not compute. */
  const ReportErrorLead := "Maaf, terjadi kesalahan: "
  /** The fixed account-officer label of the `rkh` report. */
  const BranchLabel := "Cabang Kaligondang"

  /** `extractBody`: trim, delete every `<prefix>lkn`, trim again. */
  function LknBody(prefix: string, raw: string): string
  {
    Trim(RemoveAll(Trim(raw), prefix + LknTrigger))
  }

  /** `^\d{12}$`: exactly twelve ASCII digits. */
  predicate IsSpkNumber(s: string)
  {
    |s| == 12 && forall i :: 0 <= i < |s| ==> IsAsciiDigit(s[i])
  }

  /**
   * `buildFilteredVisits`: a twelve-digit body keeps the visits of that
   * SPK, in store order; any other body keeps every visit.
   */
  function LknCandidates(saved: seq<Visit>, body: string): (r: seq<Visit>)
    ensures IsSpkNumber(Trim(body)) ==> forall v :: v in r <==> v in saved && v.spk == Some(Trim(body))
    ensures !IsSpkNumber(Trim(body)) ==> r == saved
  {
    if IsBlank(body) then saved
    else
      var t := Trim(body);
      if IsSpkNumber(t) then Filter(saved, (v: Visit) => v.spk == Some(t)) else saved
  }

  /** The type test of `processVisits`, which throws on a visit without a type. */
  predicate NotInformational(v: Visit) { v.visitType != Some(Informational) }

  /**
   * The one message `VisitPlanSPK.handle` sends, or `None` where it throws
   * before building its pipeline (a message without a body).
   */
  function LknReply(prefix: string, users: map<string, User>, saved: seq<Visit>, msg: WebhookData): (r: Option<Outbound>)
    ensures r.None? <==> msg.body.None?
  {
    if msg.body.None? then None
    else
      var body := LknBody(prefix, msg.body.value);
      if IsBlank(body) then Some(TextTo(msg.from, AskSpkMessage))
      else if msg.from !in users then Some(TextTo(msg.chatId, UserNotFoundMessage))
      else
        var candidates := LknCandidates(saved, body);
        if exists v :: v in candidates && v.visitType.None? then
          Some(Outbound(msg.chatId, ErrorText(ReportErrorLead), None))
        else
          var kept := Filter(candidates, NotInformational);
          if kept == [] then Some(TextTo(msg.chatId, NoMatchMessage))
          else Some(Outbound(msg.chatId, Report(LknTrigger, users[msg.from].accountOfficer, kept[0].name, kept), None))
  }

  /** An empty or whitespace-only request is answered in the sender's own chat, whoever the sender is. */
  lemma LknBlankAsksForSpk(prefix: string, users: map<string, User>, saved: seq<Visit>, msg: WebhookData)
    requires msg.body.Some? && IsBlank(LknBody(prefix, msg.body.value))
    ensures LknReply(prefix, users, saved, msg) == Some(TextTo(msg.from, AskSpkMessage))
  {
  }

  /** An unregistered sender is told so in the chat and gets no report. */
  lemma LknUnknownUserRefused(prefix: string, users: map<string, User>, saved: seq<Visit>, msg: WebhookData)
    requires msg.body.Some? && !IsBlank(LknBody(prefix, msg.body.value)) && msg.from !in users
    ensures LknReply(prefix, users, saved, msg) == Some(TextTo(msg.chatId, UserNotFoundMessage))
  {
  }

  /**
   * A report lists visits of a known type other than `Informational`, at
   * least one, for the sender's account officer, named after its first
   * visit and sent to the chat; with a twelve-digit body every listed
   * visit has that SPK.
   */
  lemma LknReportShape(prefix: string, users: map<string, User>, saved: seq<Visit>, msg: WebhookData)
    requires LknReply(prefix, users, saved, msg).Some?
    requires LknReply(prefix, users, saved, msg).value.content.Report?
    ensures var m := LknReply(prefix, users, saved, msg).value;
            var body := LknBody(prefix, msg.body.value);
            m.phone == msg.chatId && msg.from in users
            && m.content.kind == LknTrigger && m.content.accountOfficer == users[msg.from].accountOfficer
            && m.content.visits != [] && m.content.identifier == m.content.visits[0].name
            && (forall v :: v in m.content.visits ==> v in saved && v.visitType.Some? && v.visitType.value != Informational)
            && (IsSpkNumber(Trim(body)) ==> forall v :: v in m.content.visits ==> v.spk == Some(Trim(body)))
  {
  }

  /**
   * With a twelve-digit request and no untyped visit of that SPK, every
   * visit of that SPK that is not `Informational` is in the report
   * (`LknReportShape` says that no other visit is).
   */
  lemma LknSpkReportExact(prefix: string, users: map<string, User>, saved: seq<Visit>, msg: WebhookData, v: Visit)
    requires msg.body.Some? && msg.from in users
    requires var body := LknBody(prefix, msg.body.value); !IsBlank(body) && IsSpkNumber(Trim(body))
    requires var body := LknBody(prefix, msg.body.value);
             forall w :: w in saved && w.spk == Some(Trim(body)) ==> w.visitType.Some?
    requires v in saved && v.spk == Some(Trim(LknBody(prefix, msg.body.value))) && NotInformational(v)
    ensures var m := LknReply(prefix, users, saved, msg).value;
            m.content.Report? && v in m.content.visits
  {
  }

  /** Any other non-blank request reports every typed visit that is not `Informational`. */
  lemma LknOtherRequestReportsAll(prefix: string, users: map<string, User>, saved: seq<Visit>, msg: WebhookData, v: Visit)
    requires msg.body.Some? && msg.from in users
    requires var body := LknBody(prefix, msg.body.value); !IsBlank(body) && !IsSpkNumber(Trim(body))
    requires forall w :: w in saved ==> w.visitType.Some?
    requires v in saved && NotInformational(v)
    ensures var m := LknReply(prefix, users, saved, msg).value;
            m.content.Report? && v in m.content.visits
  {
  }

  /** One untyped visit among the candidates turns the request into the error reply. */
  lemma LknUntypedVisitFails(prefix: string, users: map<string, User>, saved: seq<Visit>, msg: WebhookData)
    requires msg.body.Some? && msg.from in users && !IsBlank(LknBody(prefix, msg.body.value))
    requires !IsSpkNumber(Trim(LknBody(prefix, msg.body.value)))
    requires exists v :: v in saved && v.visitType.None?
    ensures LknReply(prefix, users, saved, msg) == Some(Outbound(msg.chatId, ErrorText(ReportErrorLead), None))
  {
  }

  /** `isVisitOnDate`: a recorded visit date whose Jakarta calendar day is `today`. */
  predicate OnDate(v: Visit, today: Dates.Date)
  {
    v.visitDate.Some? && Dates.LocalDateOf(v.visitDate.value) == today
  }

  /** `handleNoVisitsFound`'s text, with the date as dd/MM/yyyy. */
  function NoVisitTodayText(today: Dates.Date): string
    requires Dates.ValidDate(today) && 0 <= today.year <= 9999
  {
    NoVisitTodayLead + Dates.FormatDayMonthYear(today) + NoVisitTodayTail
  }

  /**
   * The one message `VisitPlanAccountOfficer.handle` sends for the day
   * `today`: the day's visits of every type as a report to the sender,
   * or the no-visit text to the chat.
   */
  function RkhReply(saved: seq<Visit>, today: Dates.Date, msg: WebhookData): (r: Outbound)
    requires Dates.ValidDate(today) && 0 <= today.year <= 9999
    ensures r.content.Report? ==>
              r.phone == msg.from && r.content.kind == RkhTrigger && r.content.accountOfficer == BranchLabel
              && r.content.visits != [] && r.content.identifier == r.content.visits[0].spk
    ensures !r.content.Report? ==> r == TextTo(msg.chatId, NoVisitTodayText(today))
  {
    var kept := Filter(saved, (v: Visit) => OnDate(v, today));
    if kept == [] then TextTo(msg.chatId, NoVisitTodayText(today))
    else Outbound(msg.from, Report(RkhTrigger, BranchLabel, kept[0].spk, kept), None)
  }

  /**
   * The `rkh` report lists exactly the visits dated today, `Informational`
   * ones included, and there is a report exactly when one exists.
   */
  lemma RkhListsToday(saved: seq<Visit>, today: Dates.Date, msg: WebhookData, v: Visit)
    requires Dates.ValidDate(today) && 0 <= today.year <= 9999
    ensures RkhReply(saved, today, msg).content.Report? <==> exists w :: w in saved && OnDate(w, today)
    ensures RkhReply(saved, today, msg).content.Report? ==>
              (v in RkhReply(saved, today, msg).content.visits <==> v in saved && OnDate(v, today))
  {
    var kept := Filter(saved, (w: Visit) => OnDate(w, today));
    if exists w :: w in saved && OnDate(w, today) {
      var w :| w in saved && OnDate(w, today);
      assert w in kept;
    }
  }

  /** A visit without a recorded date is never in an `rkh` report. */
  lemma RkhSkipsUndated(saved: seq<Visit>, today: Dates.Date, msg: WebhookData, v: Visit)
    requires Dates.ValidDate(today) && 0 <= today.year <= 9999 && v.visitDate.None?
    ensures !(RkhReply(saved, today, msg).content.Report? && v in RkhReply(saved, today, msg).content.visits)
  {
  }

  /** `VisitPlanSPK.handle`. `escaped` is true where it throws instead of returning. */
  method HandleLkn(outbox: Outbox, users: UserService, visits: VisitStore, prefix: string, msg: WebhookData)
    returns (escaped: bool)
    modifies outbox
    ensures var r := LknReply(prefix, users.users, visits.saved, msg);
            escaped == r.None? && outbox.sent == old(outbox.sent) + (if r.None? then [] else [r.value])
  {
    if msg.body.None? {
      return true;
    }
    escaped := false;
    var body := LknBody(prefix, msg.body.value);
    if IsBlank(body) {
      outbox.Send(TextTo(msg.from, AskSpkMessage));
      return;
    }
    var user := users.FindByJid(msg.from);
    if user.None? {
      outbox.Send(TextTo(msg.chatId, UserNotFoundMessage));
      return;
    }
    var candidates := LknCandidates(visits.saved, body);
    if exists v :: v in candidates && v.visitType.None? {
      outbox.Send(Outbound(msg.chatId, ErrorText(ReportErrorLead), None));
      return;
    }
    var kept := Filter(candidates, NotInformational);
    if kept == [] {
      outbox.Send(TextTo(msg.chatId, NoMatchMessage));
    } else {
      outbox.Send(Outbound(msg.chatId, Report(LknTrigger, user.value.accountOfficer, kept[0].name, kept), None));
    }
  }

  /** `VisitPlanAccountOfficer.handle`, with `today` the current Jakarta date. */
  method HandleRkh(outbox: Outbox, visits: VisitStore, today: Dates.Date, msg: WebhookData)
    modifies outbox
    requires Dates.ValidDate(today) && 0 <= today.year <= 9999
    ensures outbox.sent == old(outbox.sent) + [RkhReply(visits.saved, today, msg)]
  {
    outbox.Send(RkhReply(visits.saved, today, msg));
  }
}
