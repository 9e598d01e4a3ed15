/**
 * The commands that open a visit session: `BaseVisitHandler` with its
 * three subclasses (`moni`, `canvasing`, `janji`). The command text is
 * split into an SPK and parameters, the bill of the SPK is looked up, and
 * the visit built from it becomes the agent's new session.
 */
module VisitCommands {
  import opened Wrappers
  import opened JavaText
  import Dates
  import opened Domain
  import opened Stores
  import opened Sessions
  import opened StateHandlers
  import opened StateDispatch
  import NumberParser
  import JavaLong
  import CurrencyUtil

  const BillNotFoundMessage := "No SPK tidak ditemukan"
  const GeneralErrorMessage := "Terjadi kesalahan saat memproses tagihan"
  const MissingSpkMessage := "Anda belum memasukkan no SPK"
  const MissingNoteMessage := "Anda belum memasukkan catatan"
  const OngoingLead := "Anda memiliki proses pengisian LKN/RKH yang belum selesai: "
  const OngoingTail := ". Harap selesaikan terlebih dahulu."
  const MinimumAppointment := 3000
  const GroupChatSuffix := "@g.us"

  /** The three subclasses of `BaseVisitHandler`. */
  datatype Command = MonitoringCommand | CanvasingCommand | InformationalCommand

  /** The `@Handler` trigger of each subclass. */
  function Trigger(c: Command): string
  {
    match c
    case MonitoringCommand => "moni"
    case CanvasingCommand => "canvasing"
    case InformationalCommand => "janji"
  }

  /** `getVisitType`. */
  function TypeOf(c: Command): VisitType
  {
    match c
    case MonitoringCommand => Monitoring
    case CanvasingCommand => Canvasing
    case InformationalCommand => Informational
  }

  /** `getCommandPrefix`: only `moni` puts the message prefix in front of its trigger. */
  function CommandPrefix(c: Command, prefix: string): (p: string)
    ensures c == MonitoringCommand ==> p == prefix + Trigger(c)
    ensures c != MonitoringCommand ==> p == Trigger(c)
  {
    match c
    case MonitoringCommand => prefix + "moni"
    case CanvasingCommand => "canvasing"
    case InformationalCommand => "janji"
  }

  /** `requiresSpk`: every type but canvasing and survey. */
  predicate NeedsSpk(t: VisitType) { t != Canvasing && t != Survey }

  /**
   * Of the three commands only `canvasing` goes without an SPK; `janji`
   * needs one although the resolver never asks an informational visit for
   * one through the general checklist.
   */
  lemma OnlyCanvasingWithoutSpk(c: Command)
    ensures NeedsSpk(TypeOf(c)) <==> c != CanvasingCommand
    ensures NeedsSpk(TypeOf(InformationalCommand)) && !NextState.RequiresSpk(Informational)
  {
  }

  /**
   * `extractMessageContext`'s text: the body minus as many characters as
   * the command prefix has, trimmed; `None` where `substring` throws
   * (no body, or a body shorter than the prefix).
   */
  function CommandText(body: Option<string>, commandPrefix: string): (r: Option<string>)
    ensures r.Some? <==> body.Some? && |commandPrefix| <= |body.value|
    ensures r.Some? ==> r.value == Trim(body.value[|commandPrefix|..])
  {
    if body.None? || |body.value| < |commandPrefix| then None
    else Some(Trim(body.value[|commandPrefix|..]))
  }

  /** `CommandInput`: the SPK token and the rest of the text, if any. */
  datatype CommandInput = CommandInput(spk: string, params: Option<string>)

  /** `parseCommandInput`: `split("\\s+", 2)`, both parts trimmed. */
  function ParseCommandInput(text: string): (r: CommandInput)
    ensures r.spk == Trim(SplitWhitespaceOnce(text).0)
    ensures r.params.None? <==> forall j :: 0 <= j < |text| ==> !IsRegexSpace(text[j])
    ensures r.params.Some? ==> r.params.value == Trim(SplitWhitespaceOnce(text).1.value)
  {
    var parts := SplitWhitespaceOnce(text);
    CommandInput(Trim(parts.0), if parts.1.Some? then Some(Trim(parts.1.value)) else None)
  }

  /** `parseAndValidateAppointment`: the first amount, dropped when below 3000. */
  function Appointment(params: Option<string>): (r: Option<int>)
    ensures r.Some? <==> NumberParser.ParseFirstNumber(params).Some?
                         && NumberParser.ParseFirstNumber(params).value >= MinimumAppointment
    ensures r.Some? ==> r.value == NumberParser.ParseFirstNumber(params).value
  {
    var a := NumberParser.ParseFirstNumber(params);
    if a.Some? && a.value < MinimumAppointment then None
    else if a.Some? then Some(a.value as int) else None
  }

  /** `VisitParameters`: note, reminder date and appointment. */
  datatype VisitParameters = VisitParameters(note: Option<string>, reminder: Option<Dates.Date>, appointment: Option<int>)

  /**
   * `parseVisitParameters`: no parameters give no note, reminder or
   * appointment; otherwise the whole text is the note. `reminderOf`
   * stands for `DateRangeUtil.parseReminder`.
   */
  function ParseVisitParameters(params: Option<string>, reminderOf: Option<string> -> Option<Dates.Date>): (r: VisitParameters)
    ensures params.None? ==> r == VisitParameters(None, None, None)
    ensures params.Some? ==> r.note == params && r.reminder == reminderOf(params) && r.appointment == Appointment(params)
  {
    if params.None? then VisitParameters(None, None, None)
    else VisitParameters(params, reminderOf(params), Appointment(params))
  }

  /** An empty visit of `jid`, every optional field missing. */
  function BlankVisit(jid: string): Visit
  {
    Visit(None, jid, None, None, None, None, None, None, None, None, None, None, None, None, None, None, None, None)
  }

  /**
   * `buildVisit`: spk, name, address, debit tray and plafond from the
   * bill, penalty the `long` sum of the two penalties, interest and
   * principal the last ones billed; note, reminder and appointment from
   * the parameters.
   */
  function BuildVisit(jid: string, b: Bills, p: VisitParameters, t: VisitType, now: Dates.Instant): (v: Visit)
    ensures v.userId == jid && v.visitType == Some(t) && v.visitDate == Some(now)
    ensures v.spk == Some(b.noSpk) && v.name == Some(b.name) && v.address == Some(b.address)
    ensures v.debitTray == Some(b.debitTray) && v.plafond == Some(b.plafond)
    ensures v.penalty == Some(JavaLong.Add(b.penaltyInterest, b.penaltyPrincipal))
    ensures v.interest == Some(b.lastInterest) && v.principal == Some(b.lastPrincipal)
    ensures v.note == p.note && v.reminderDate == p.reminder && v.appointment == p.appointment
    ensures v.id.None? && v.imageUrl.None? && v.usaha.None? && v.interested.None?
  {
    BlankVisit(jid).(visitType := Some(t), visitDate := Some(now), spk := Some(b.noSpk), name := Some(b.name),
      address := Some(b.address), debitTray := Some(b.debitTray), plafond := Some(b.plafond),
      penalty := Some(JavaLong.Add(b.penaltyInterest, b.penaltyPrincipal)),
      interest := Some(b.lastInterest), principal := Some(b.lastPrincipal),
      note := p.note, reminderDate := p.reminder, appointment := p.appointment)
  }

  /** `buildCanvasingVisit`: no bill field at all, only the parameters, type and time. */
  function BuildCanvasingVisit(jid: string, p: VisitParameters, t: VisitType, now: Dates.Instant): (v: Visit)
    ensures v == BlankVisit(jid).(visitType := Some(t), visitDate := Some(now), note := p.note,
                                  reminderDate := p.reminder, appointment := p.appointment)
  {
    BlankVisit(jid).(visitType := Some(t), visitDate := Some(now), note := p.note,
                     reminderDate := p.reminder, appointment := p.appointment)
  }

  /**
   * The command's visit and the resolver's bill seed disagree on the
   * principal: the command takes the last principal billed, the seed the
   * loan principal. Everything else the two take from the bill agrees.
   */
  lemma CommandAndSeedPrincipal(jid: string, b: Bills, p: VisitParameters, t: VisitType, now: Dates.Instant, v: Visit)
    ensures BuildVisit(jid, b, p, t, now).principal == Some(b.lastPrincipal)
    ensures NextState.SeedFromBill(v, b.noSpk, b).principal == Some(b.principal)
    ensures var c := BuildVisit(jid, b, p, t, now); var s := NextState.SeedFromBill(v, b.noSpk, b);
            c.spk == s.spk && c.name == s.name && c.address == s.address && c.debitTray == s.debitTray
            && c.plafond == s.plafond && c.penalty == s.penalty && c.interest == s.interest
  {
  }

  /** `handleOngoingProcess`'s identifier: the SPK, else the name, else "N/A". */
  function Identifier(v: Visit): (r: string)
    ensures v.spk.Some? ==> r == v.spk.value
    ensures v.spk.None? && v.name.Some? ==> r == v.name.value
    ensures v.spk.None? && v.name.None? ==> r == "N/A"
  {
    if v.spk.Some? then v.spk.value else if v.name.Some? then v.name.value else "N/A"
  }

  function OngoingText(v: Visit): string { OngoingLead + Identifier(v) + OngoingTail }

  /** `isGroupChat`. */
  predicate IsGroupChat(chatId: string) { Contains(chatId, GroupChatSuffix) }

  const GroupSpkLabel := "No SPK: "
  const GroupNameLabel := "\nNama: "
  const GroupAddressLabel := "\nAlamat: "
  const GroupArrearsLabel := "\nTunggakan: "
  const GroupTail := "\n\nNamun ada data yang belum diisi, ayok japri"

  /** `buildGroupMessage`: the bill's SPK, name, address and last instalment in Rupiah. */
  function GroupMessage(b: Bills): string
  {
    GroupSpkLabel + b.noSpk + GroupNameLabel + b.name + GroupAddressLabel + b.address
    + GroupArrearsLabel + CurrencyUtil.FormatRupiah(Some(b.lastInstallment)) + GroupTail
  }

  /** `sendErrorMessage`: a reply to the message, in the chat it came from. */
  function Reply(s: Snapshot, msg: WebhookData, text: string): Snapshot
  {
    s.(sent := s.sent + [ReplyTo(msg.chatId, text, msg.id)])
  }

  /** After the group notification, if the message came from a group. */
  function Announced(s: Snapshot, msg: WebhookData, b: Bills): Snapshot
  {
    if IsGroupChat(msg.chatId) then s.(sent := s.sent + [TextTo(msg.chatId, GroupMessage(b))]) else s
  }

  /** Everything a command can reach: the session service's collaborators and the inputs it is given. */
  datatype Env = Env(users: map<string, User>, accepts: Visit -> bool, bills: seq<Bills>,
                     prefix: string, now: Dates.Instant, reminderOf: Option<string> -> Option<Dates.Date>)

  /**
   * `setVisitData` for the command's visit, the group notification when a
   * bill was found and the message came from a group, then `dispatchState`
   * (which does nothing to a session that is not completed).
   */
  function Launched(s: Snapshot, users: map<string, User>, accepts: Visit -> bool, msg: WebhookData,
                    v: Visit, bill: Option<Bills>): Snapshot
  {
    var o := Opening(s, msg.from, v, users, accepts);
    if bill.Some? then Announced(o, msg, bill.value) else o
  }

  /**
   * What `processBillWithSpk` leaves behind: a reply when the SPK has no
   * bill or the query fails, otherwise the session of the visit built from
   * the bill with the parameters `p`.
   */
  function SpkEffect(s: Snapshot, env: Env, t: VisitType, msg: WebhookData, spk: string, p: VisitParameters): Snapshot
  {
    match LookupSpk(env.bills, spk)
    case NotFound => Reply(s, msg, BillNotFoundMessage)
    case LookupFailed => Reply(s, msg, GeneralErrorMessage)
    case Found(b) => Launched(s, env.users, env.accepts, msg, BuildVisit(msg.from, b, p, t, env.now), Some(b))
  }

  /** What `validateAndProcessCommand` leaves behind for the trimmed command text. */
  function CommandEffect(s: Snapshot, env: Env, c: Command, msg: WebhookData, text: string): Snapshot
  {
    if NeedsSpk(TypeOf(c)) then
      var input := ParseCommandInput(text);
      if input.spk == [] then Reply(s, msg, MissingSpkMessage)
      else SpkEffect(s, env, TypeOf(c), msg, input.spk, ParseVisitParameters(input.params, env.reminderOf))
    else if Trim(text) == [] then Reply(s, msg, MissingNoteMessage)
    else
      var p := ParseVisitParameters(Some(Trim(text)), env.reminderOf);
      Launched(s, env.users, env.accepts, msg, BuildCanvasingVisit(msg.from, p, TypeOf(c), env.now), None)
  }

  /** What `handle` leaves behind, over the snapshot of the session service. */
  function VisitCommandEffect(s: Snapshot, env: Env, c: Command, msg: WebhookData): Snapshot
  {
    var text := CommandText(msg.body, CommandPrefix(c, env.prefix));
    if text.None? then Reply(s, msg, GeneralErrorMessage)
    else if msg.from in s.state then s.(sent := s.sent + [TextTo(msg.from, OngoingText(s.state[msg.from].visit))])
    else CommandEffect(s, env, c, msg, text.value)
  }

  /** An agent who already has a session is only reminded of it; no session changes. */
  lemma OngoingSessionOnlyReminded(s: Snapshot, env: Env, c: Command, msg: WebhookData)
    requires CommandText(msg.body, CommandPrefix(c, env.prefix)).Some? && msg.from in s.state
    ensures var r := VisitCommandEffect(s, env, c, msg);
            r == s.(sent := s.sent + [TextTo(msg.from, OngoingText(s.state[msg.from].visit))])
  {
  }

  /**
   * A command that opens no session (text missing, SPK missing, bill not
   * found or ambiguous, note missing) changes no session, event or saved
   * visit and sends exactly one reply to the chat it came from.
   */
  lemma RejectedCommandOpensNothing(s: Snapshot, env: Env, c: Command, msg: WebhookData)
    requires msg.from !in s.state
    requires var text := CommandText(msg.body, CommandPrefix(c, env.prefix));
             text.None?
             || (NeedsSpk(TypeOf(c)) && (ParseCommandInput(text.value).spk == []
                                        || !LookupSpk(env.bills, ParseCommandInput(text.value).spk).Found?))
             || (!NeedsSpk(TypeOf(c)) && Trim(text.value) == [])
    ensures var r := VisitCommandEffect(s, env, c, msg);
            r.state == s.state && r.events == s.events && r.saved == s.saved
            && |r.sent| == |s.sent| + 1 && r.sent[..|s.sent|] == s.sent
            && r.sent[|s.sent|].phone == msg.chatId && r.sent[|s.sent|].replyTo == Some(msg.id)
  {
    var text := CommandText(msg.body, CommandPrefix(c, env.prefix));
    var r := VisitCommandEffect(s, env, c, msg);
    var reply: string;
    if text.None? {
      reply := GeneralErrorMessage;
    } else if NeedsSpk(TypeOf(c)) {
      var input := ParseCommandInput(text.value);
      reply := if input.spk == [] then MissingSpkMessage
               else if LookupSpk(env.bills, input.spk).NotFound? then BillNotFoundMessage
               else GeneralErrorMessage;
    } else {
      reply := MissingNoteMessage;
    }
    assert r == Reply(s, msg, reply);
    assert r.sent[..|s.sent|] == s.sent;
  }

  /**
   * With a bill found, the agent's new session holds the visit built from
   * it (less id and usaha) in its resolved state, which is never
   * `Completed`; the group notification is sent only for a group chat.
   */
  lemma FoundBillOpensSession(s: Snapshot, env: Env, c: Command, msg: WebhookData)
    requires msg.from !in s.state && NeedsSpk(TypeOf(c))
    requires CommandText(msg.body, CommandPrefix(c, env.prefix)).Some?
    requires var input := ParseCommandInput(CommandText(msg.body, CommandPrefix(c, env.prefix)).value);
             input.spk != [] && LookupSpk(env.bills, input.spk).Found?
    ensures var input := ParseCommandInput(CommandText(msg.body, CommandPrefix(c, env.prefix)).value);
            var b := LookupSpk(env.bills, input.spk).bill;
            var w := FirstVisit(msg.from, BuildVisit(msg.from, b, ParseVisitParameters(input.params, env.reminderOf), TypeOf(c), env.now));
            var r := VisitCommandEffect(s, env, c, msg);
            msg.from in r.state && r.state[msg.from].visit == w && r.state[msg.from].currentState != Completed
            && w.spk == Some(input.spk) && r.saved == s.saved
            && (IsGroupChat(msg.chatId) ==> r.sent[|r.sent| - 1] == TextTo(msg.chatId, GroupMessage(b)))
            && (!IsGroupChat(msg.chatId) ==> r.sent == Opening(s, msg.from, BuildVisit(msg.from, b, ParseVisitParameters(input.params, env.reminderOf), TypeOf(c), env.now), env.users, env.accepts).sent)
  {
    var input := ParseCommandInput(CommandText(msg.body, CommandPrefix(c, env.prefix)).value);
    var b := LookupSpk(env.bills, input.spk).bill;
    var v := BuildVisit(msg.from, b, ParseVisitParameters(input.params, env.reminderOf), TypeOf(c), env.now);
    assert VisitCommandEffect(s, env, c, msg) == Launched(s, env.users, env.accepts, msg, v, Some(b));
    OpenedSessionStays(s, msg.from, v, env.users, env.accepts);
  }

  /** A canvasing note is the whole trimmed command text; no bill is asked for. */
  lemma CanvasingOpensSession(s: Snapshot, env: Env, msg: WebhookData)
    requires msg.from !in s.state
    requires var text := CommandText(msg.body, CommandPrefix(CanvasingCommand, env.prefix));
             text.Some? && Trim(text.value) != []
    ensures var text := CommandText(msg.body, CommandPrefix(CanvasingCommand, env.prefix)).value;
            var r := VisitCommandEffect(s, env, CanvasingCommand, msg);
            msg.from in r.state && r.state[msg.from].currentState != Completed
            && r.state[msg.from].visit.note == Some(text) && r.state[msg.from].visit.spk.None?
            && r.state[msg.from].visit.visitType == Some(Canvasing) && r.saved == s.saved
  {
    var text := CommandText(msg.body, CommandPrefix(CanvasingCommand, env.prefix)).value;
    TrimIdempotent(msg.body.value[|CommandPrefix(CanvasingCommand, env.prefix)|..]);
    var p := ParseVisitParameters(Some(Trim(text)), env.reminderOf);
    OpenedSessionStays(s, msg.from, BuildCanvasingVisit(msg.from, p, Canvasing, env.now), env.users, env.accepts);
  }

  /**
   * `canvasing` and `janji` cut only their trigger's length off the body,
   * though the body also starts with the message prefix: with a one-char
   * prefix the trigger's last letter stays in the text.
   */
  lemma CanvasingNoteKeepsLastLetter()
    ensures CommandText(Some(".canvasing Toko ramai"), CommandPrefix(CanvasingCommand, ".")) == Some("g Toko ramai")
  {
    var t := ".canvasing Toko ramai"[9..];
    assert t == "g Toko ramai";
    assert LeadEnd(t, 0) == 0;
    assert TailStart(t, 0, |t|) == |t|;
    assert t[0..|t|] == t;
  }

  /** Likewise `janji` reads the last letter of its trigger as the SPK. */
  lemma InformationalSpkIsLastLetter()
    ensures ParseCommandInput(CommandText(Some(".janji 123"), CommandPrefix(InformationalCommand, ".")).value).spk == "i"
  {
  }

  /** `moni` cuts the prefix and trigger together, leaving the SPK first. */
  lemma MonitoringTextAfterTrigger()
    ensures CommandText(Some(".moni 123 janji 5000"), CommandPrefix(MonitoringCommand, ".")) == Some("123 janji 5000")
    ensures CommandText(Some(".mo"), CommandPrefix(MonitoringCommand, ".")).None?
  {
    assert ".moni 123 janji 5000"[5..] == " 123 janji 5000";
    LeadingSpaceTrimmed();
  }

  lemma LeadingSpaceTrimmed() ensures Trim(" 123 janji 5000") == "123 janji 5000"
  {
    var t := " 123 janji 5000";
    assert LeadEnd(t, 1) == 1;
    assert LeadEnd(t, 0) == 1 && TailStart(t, 1, |t|) == |t|;
    assert t[1..|t|] == "123 janji 5000";
  }

  /** Open the session of the command's visit, notify the group, dispatch the new state. */
  method Launch(svc: StateService, dispatcher: StateDispatcher, msg: WebhookData, v: Visit, bill: Option<Bills>)
    modifies svc, svc.outbox, svc.visits
    requires svc.Valid() && dispatcher.svc == svc && OnlyCompletedFinalizes(dispatcher.handlers)
    requires msg.from !in svc.state && v.visitType.Some?
    ensures svc.Valid()
    ensures svc.Snap() == Launched(old(svc.Snap()), svc.users.users, svc.visits.accepts, msg, v, bill)
  {
    OpenedSessionStays(svc.Snap(), msg.from, v, svc.users.users, svc.visits.accepts);
    var _ := svc.Open(msg.from, v);
    if bill.Some? && IsGroupChat(msg.chatId) {
      svc.outbox.Send(TextTo(msg.chatId, GroupMessage(bill.value)));
    }
    var current := svc.GetUserState(msg.from);
    dispatcher.Dispatch(current.value);
  }

  /** `processBillWithSpk`: look the bill up and open the session of its visit, or reply why not. */
  method ProcessBillWithSpk(svc: StateService, dispatcher: StateDispatcher, t: VisitType, msg: WebhookData,
                            spk: string, p: VisitParameters, now: Dates.Instant, ghost env: Env)
    modifies svc, svc.outbox, svc.visits
    requires svc.Valid() && dispatcher.svc == svc && OnlyCompletedFinalizes(dispatcher.handlers)
    requires msg.from !in svc.state
    requires env.users == svc.users.users && env.accepts == svc.visits.accepts && env.bills == svc.bills.bills
    requires env.now == now
    ensures svc.Valid()
    ensures svc.Snap() == SpkEffect(old(svc.Snap()), env, t, msg, spk, p)
  {
    var found := svc.bills.FindBillBySpk(spk);
    match found {
      case NotFound =>
        svc.outbox.Send(ReplyTo(msg.chatId, BillNotFoundMessage, msg.id));
      case LookupFailed =>
        svc.outbox.Send(ReplyTo(msg.chatId, GeneralErrorMessage, msg.id));
      case Found(b) =>
        Launch(svc, dispatcher, msg, BuildVisit(msg.from, b, p, t, now), Some(b));
    }
  }

  /** `validateAndProcessCommand` for the trimmed command text of an agent without a session. */
  method ValidateAndProcess(svc: StateService, dispatcher: StateDispatcher, c: Command, msg: WebhookData, text: string,
                            now: Dates.Instant, reminderOf: Option<string> -> Option<Dates.Date>, ghost env: Env)
    modifies svc, svc.outbox, svc.visits
    requires svc.Valid() && dispatcher.svc == svc && OnlyCompletedFinalizes(dispatcher.handlers)
    requires msg.from !in svc.state
    requires env.users == svc.users.users && env.accepts == svc.visits.accepts && env.bills == svc.bills.bills
    requires env.now == now && env.reminderOf == reminderOf
    ensures svc.Valid()
    ensures svc.Snap() == CommandEffect(old(svc.Snap()), env, c, msg, text)
  {
    if NeedsSpk(TypeOf(c)) {
      var input := ParseCommandInput(text);
      if input.spk == [] {
        svc.outbox.Send(ReplyTo(msg.chatId, MissingSpkMessage, msg.id));
        return;
      }
      ProcessBillWithSpk(svc, dispatcher, TypeOf(c), msg, input.spk, ParseVisitParameters(input.params, reminderOf), now, env);
    } else if Trim(text) == [] {
      svc.outbox.Send(ReplyTo(msg.chatId, MissingNoteMessage, msg.id));
    } else {
      var visit := BuildCanvasingVisit(msg.from, ParseVisitParameters(Some(Trim(text)), reminderOf), TypeOf(c), now);
      Launch(svc, dispatcher, msg, visit, None);
    }
  }

  /**
   * `BaseVisitHandler.handle` for one of the three commands. `now` stands
   * for `Instant.now()`, `reminderOf` for `DateRangeUtil.parseReminder`.
   */
  method HandleVisitCommand(svc: StateService, dispatcher: StateDispatcher, c: Command, prefix: string,
                            msg: WebhookData, now: Dates.Instant, reminderOf: Option<string> -> Option<Dates.Date>)
    modifies svc, svc.outbox, svc.visits
    requires svc.Valid() && dispatcher.svc == svc && OnlyCompletedFinalizes(dispatcher.handlers)
    ensures svc.Valid()
    ensures svc.Snap() == VisitCommandEffect(old(svc.Snap()),
              Env(svc.users.users, svc.visits.accepts, svc.bills.bills, prefix, now, reminderOf), c, msg)
  {
    var cp := CommandPrefix(c, prefix);
    if msg.body.None? || |msg.body.value| < |cp| {
      svc.outbox.Send(ReplyTo(msg.chatId, GeneralErrorMessage, msg.id));
      return;
    }
    var text := Trim(msg.body.value[|cp|..]);
    var session := svc.GetUserState(msg.from);
    if session.Some? {
      svc.outbox.Send(TextTo(msg.from, OngoingText(session.value.visit)));
      return;
    }
    ValidateAndProcess(svc, dispatcher, c, msg, text, now, reminderOf,
                       Env(svc.users.users, svc.visits.accepts, svc.bills.bills, prefix, now, reminderOf));
  }
}
