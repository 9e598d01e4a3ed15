/**
 * The per-state handlers (the `Add…` classes, `RegisterUser` and `CompletedVisitState`): each reads the agent's
 * answer, validates it, writes one field of the session visit and lets
 * `setVisitData` resolve the next state. Errors inside a handler,
 * including the `NullPointerException`s of a missing body or session, are
 * swallowed by the state dispatcher, so they show as "nothing happens".
 */
module StateHandlers {
  import opened Wrappers
  import opened JavaText
  import opened Dates
  import opened Domain
  import opened NextState
  import opened Users
  import opened Sessions
  import NumberParser

  /** The beans annotated `@StateHandler`. */
  datatype Kind =
    | CaptionHandler | AppointmentHandler | ReminderHandler | NameHandler | AddressHandler
    | InterestedHandler | UsahaHandler | RegisterHandler | CompletedHandler

  // ----- AddAddress -----

  const MinAddressLength := 9
  const MaxAddressLength := 500
  const EmptyAddress := "Alamat tidak boleh kosong. Silahkan masukkan alamat lengkap."
  const ShortAddress := "Alamat terlalu pendek. Minimal 9 karakter. Silahkan masukkan alamat yang lebih lengkap."
  const LongAddress := "Alamat terlalu panjang. Maksimal 500 karakter."

  /** The verdict on an answer: the value to store, or the message to send back. */
  datatype Check = Accept(value: string) | Reject(reason: string)

  /** `AddAddress`'s validation: non-blank, then 9 to 500 characters once trimmed. */
  function CheckAddress(body: Option<string>): (r: Check)
    ensures r.Accept? <==> body.Some? && !IsBlank(body.value)
                           && MinAddressLength <= |Trim(body.value)| <= MaxAddressLength
    ensures r.Accept? ==> r.value == Trim(body.value)
  {
    if body.None? || IsBlank(body.value) then Reject(EmptyAddress)
    else if |Trim(body.value)| < MinAddressLength then Reject(ShortAddress)
    else if |Trim(body.value)| > MaxAddressLength then Reject(LongAddress)
    else Accept(Trim(body.value))
  }

  /** Each rejection names its reason: empty, too short, too long. */
  lemma AddressRejections(body: Option<string>)
    ensures CheckAddress(body) == Reject(EmptyAddress) <==> body.None? || IsBlank(body.value)
    ensures CheckAddress(body) == Reject(ShortAddress)
            <==> body.Some? && !IsBlank(body.value) && |Trim(body.value)| < MinAddressLength
    ensures CheckAddress(body) == Reject(LongAddress)
            <==> body.Some? && !IsBlank(body.value) && |Trim(body.value)| > MaxAddressLength
  {
    AddressReasonsDistinct();
  }

  lemma AddressReasonsDistinct()
    ensures EmptyAddress != ShortAddress && ShortAddress != LongAddress && EmptyAddress != LongAddress
  {
    assert |EmptyAddress| != |ShortAddress|;
    assert |ShortAddress| != |LongAddress|;
    assert |EmptyAddress| != |LongAddress|;
  }

  /** The stored address is trimmed: it neither starts nor ends with a control or space character. */
  lemma StoredAddressIsTrimmed(body: Option<string>)
    requires CheckAddress(body).Accept?
    ensures var a := CheckAddress(body).value; |a| >= 9 && !IsTrimmed(a[0]) && !IsTrimmed(a[|a| - 1])
  {
  }

  // ----- AddInterested -----

  const UnknownAnswer := "Saya tidak dapat menemukan jawaban yang anda kirim silahkan kirim lagi"

  /** `acceptableInputs`: the four answers and their labels, matched exactly. */
  function InterestLabel(answer: string): (r: Option<string>)
    ensures r.Some? <==> answer == "1" || answer == "2" || answer == "3" || answer == "4"
  {
    if answer == "1" then Some("Sangat tertarik")
    else if answer == "2" then Some("Tertarik")
    else if answer == "3" then Some("Belum Tertarik")
    else if answer == "4" then Some("Tidak Tertarik")
    else None
  }

  /** Different answers give different labels. */
  lemma InterestLabelsDistinct(a: string, b: string)
    requires InterestLabel(a).Some? && InterestLabel(a) == InterestLabel(b)
    ensures a == b
  {
  }

  /** There is no trimming: an answer with a space around it is not accepted. */
  lemma PaddedAnswerRejected(a: string)
    requires InterestLabel(a).Some?
    ensures InterestLabel(" " + a).None? && InterestLabel(a + " ").None?
  {
    assert |" " + a| == 2 && |a + " "| == 2;
  }

  // ----- AddReminder -----

  const PastReminder := "Tidak Mungkin dong reminder nya kemarin, yok isi lagi"
  const BadReminder := "Format tanggal tidak valid. Silakan masukkan tanggal dengan format yang benar (contoh: 2024-12-31 atau 31/12/2024)"
  const ReminderFailed := "Maaf, terjadi kesalahan. Silakan coba lagi"

  /** What `AddReminder` does with an answer. */
  datatype ReminderStep =
    | NoInput             // a null body: the comparison throws, nothing happens
    | Skip(date: Date)    // "kosong": the reminder is set to yesterday
    | Store(date: Date)   // a date from today on
    | Past                // a date before today: rejected
    | Unparsable          // not an ISO date: rejected

  function ReminderStepOf(body: Option<string>, today: Date): (r: ReminderStep)
    requires ValidDate(today)
    ensures r.NoInput? <==> body.None?
    ensures r.Skip? <==> body.Some? && EqualsIgnoreCase(body.value, "kosong")
    ensures r.Skip? ==> r.date == PrevDay(today)
    ensures r.Store? <==> body.Some? && !EqualsIgnoreCase(body.value, "kosong")
                          && ParseDate(body.value).Some? && !Before(ParseDate(body.value).value, today)
    ensures r.Store? ==> Some(r.date) == ParseDate(body.value)
    ensures r.Past? <==> body.Some? && !EqualsIgnoreCase(body.value, "kosong")
                         && ParseDate(body.value).Some? && Before(ParseDate(body.value).value, today)
  {
    if body.None? then NoInput
    else if EqualsIgnoreCase(body.value, "kosong") then Skip(PrevDay(today))
    else match ParseDate(body.value)
      case None => Unparsable
      case Some(d) => if Before(d, today) then Past else Store(d)
  }

  /** A stored reminder date is valid and never before today; "kosong" is the one way to get yesterday. */
  lemma ReminderNeverInPast(body: Option<string>, today: Date)
    requires ValidDate(today)
    ensures ReminderStepOf(body, today).Store? ==> var d := ReminderStepOf(body, today).date;
              ValidDate(d) && !Before(d, today)
    ensures ReminderStepOf(body, today).Skip? ==> Before(ReminderStepOf(body, today).date, today)
  {
  }

  /** "kosong" is recognised in any letter case. */
  lemma KosongAnyCase(today: Date)
    requires ValidDate(today)
    ensures ReminderStepOf(Some("KOSONG"), today) == Skip(PrevDay(today))
    ensures ReminderStepOf(Some("Kosong"), today) == Skip(PrevDay(today))
  {
  }

  // ----- AddAppointment -----

  const NoAmount := "Saya tidak dapat menemukan nominalnya"

  // ----- The effects of each handler, in terms of the service's snapshot -----

  /** Nothing changes: no session, event, message, saved visit or user. */
  twostate predicate Untouched(svc: StateService)
    reads svc, svc.outbox, svc.visits, svc.users
  {
    svc.Snap() == old(svc.Snap()) && svc.users.users == old(svc.users.users)
  }

  /** Exactly one message is sent and nothing else changes. */
  twostate predicate OnlySent(svc: StateService, m: Outbound)
    reads svc, svc.outbox, svc.visits, svc.users
  {
    svc.Snap() == old(svc.Snap()).(sent := old(svc.Snap()).sent + [m]) && svc.users.users == old(svc.users.users)
  }

  /** The session visit of `jid` becomes `v` and the state is re-resolved. */
  twostate predicate Rewrote(svc: StateService, jid: string, v: Visit)
    reads svc, svc.outbox, svc.visits, svc.users
  {
    jid in old(svc.state)
    && svc.Snap() == Rewritten(old(svc.Snap()), jid, v, svc.users.users, svc.visits.accepts)
  }

  /** The session visit of a message's sender, in the state before the handler ran. */
  function SessionVisit(st: map<string, StateData>, jid: string): Visit
    requires jid in st
  {
    st[jid].visit
  }

  twostate predicate CaptionHandled(svc: StateService, msg: WebhookData)
    reads svc, svc.outbox, svc.visits, svc.users
  {
    var jid := msg.from;
    if IsBlank(jid) || msg.body.None? || IsBlank(msg.body.value) || jid !in old(svc.state) then Untouched(svc)
    else svc.users.users == old(svc.users.users)
         && Rewrote(svc, jid, SessionVisit(old(svc.state), jid).(note := msg.body))
  }

  twostate predicate AppointmentHandled(svc: StateService, msg: WebhookData)
    reads svc, svc.outbox, svc.visits, svc.users
  {
    var jid := msg.from;
    var amount := NumberParser.ParseFirstNumber(msg.body);
    if amount.None? then OnlySent(svc, TextTo(jid, NoAmount))
    else if jid !in old(svc.state) then Untouched(svc)
    else svc.users.users == old(svc.users.users)
         && Rewrote(svc, jid, SessionVisit(old(svc.state), jid).(appointment := Some(amount.value)))
  }

  twostate predicate ReminderHandled(svc: StateService, msg: WebhookData, today: Date)
    reads svc, svc.outbox, svc.visits, svc.users
    requires ValidDate(today)
  {
    var jid := msg.from;
    svc.users.users == old(svc.users.users)
    && match ReminderStepOf(msg.body, today)
       case NoInput => Untouched(svc)
       case Skip(d) =>
         if jid !in old(svc.state) then Untouched(svc)
         else Rewrote(svc, jid, SessionVisit(old(svc.state), jid).(reminderDate := Some(d)))
       case Past => OnlySent(svc, TextTo(jid, PastReminder))
       case Unparsable => OnlySent(svc, TextTo(jid, BadReminder))
       case Store(d) =>
         if jid !in old(svc.state) then OnlySent(svc, TextTo(jid, ReminderFailed))
         else
           var v := SessionVisit(old(svc.state), jid).(reminderDate := Some(d));
           var after := Rewritten(old(svc.Snap()), jid, v, svc.users.users, svc.visits.accepts);
           if DetermineNextState(svc.users.users, v).Some? then svc.Snap() == after
           else svc.Snap() == after.(sent := after.sent + [TextTo(jid, ReminderFailed)])
  }

  twostate predicate NameHandled(svc: StateService, msg: WebhookData)
    reads svc, svc.outbox, svc.visits, svc.users
  {
    var jid := msg.from;
    if jid !in old(svc.state) then Untouched(svc)
    else svc.users.users == old(svc.users.users)
         && Rewrote(svc, jid, SessionVisit(old(svc.state), jid).(name := msg.body))
  }

  twostate predicate AddressHandled(svc: StateService, msg: WebhookData)
    reads svc, svc.outbox, svc.visits, svc.users
  {
    var jid := msg.from;
    match CheckAddress(msg.body)
    case Reject(reason) => OnlySent(svc, TextTo(msg.chatId, reason))
    case Accept(a) =>
      if jid !in old(svc.state) then Untouched(svc)
      else svc.users.users == old(svc.users.users)
           && Rewrote(svc, jid, SessionVisit(old(svc.state), jid).(address := Some(a)))
  }

  twostate predicate InterestedHandled(svc: StateService, msg: WebhookData)
    reads svc, svc.outbox, svc.visits, svc.users
  {
    var jid := msg.from;
    if msg.body.None? then Untouched(svc)
    else match InterestLabel(msg.body.value)
      case None => OnlySent(svc, TextTo(jid, UnknownAnswer))
      case Some(chosen) =>
        if jid !in old(svc.state) then Untouched(svc)
        else svc.users.users == old(svc.users.users)
             && Rewrote(svc, jid, SessionVisit(old(svc.state), jid).(interested := Some(chosen)))
  }

  twostate predicate UsahaHandled(svc: StateService, msg: WebhookData)
    reads svc, svc.outbox, svc.visits, svc.users
  {
    var jid := msg.from;
    if msg.body.None? || IsBlank(msg.body.value) || jid !in old(svc.state) then Untouched(svc)
    else svc.users.users == old(svc.users.users)
         && Rewrote(svc, jid, SessionVisit(old(svc.state), jid).(usaha := msg.body))
  }

  twostate predicate RegisterHandled(svc: StateService, msg: WebhookData)
    reads svc, svc.outbox, svc.visits, svc.users
  {
    var jid := msg.from;
    if msg.body.None? then Untouched(svc)
    else svc.users.users == Registered(old(svc.users.users), jid, ToUpper(msg.body.value))
         && if jid !in old(svc.state) then svc.Snap() == old(svc.Snap())
            else Rewrote(svc, jid, SessionVisit(old(svc.state), jid).(userId := jid))
  }

  /** What the handler of a kind does with a message. */
  twostate predicate Handled(kind: Kind, svc: StateService, msg: WebhookData, today: Date)
    reads svc, svc.outbox, svc.visits, svc.users
    requires ValidDate(today)
  {
    match kind
    case CaptionHandler => CaptionHandled(svc, msg)
    case AppointmentHandler => AppointmentHandled(svc, msg)
    case ReminderHandler => ReminderHandled(svc, msg, today)
    case NameHandler => NameHandled(svc, msg)
    case AddressHandler => AddressHandled(svc, msg)
    case InterestedHandler => InterestedHandled(svc, msg)
    case UsahaHandler => UsahaHandled(svc, msg)
    case RegisterHandler => RegisterHandled(svc, msg)
    case CompletedHandler => Untouched(svc)
  }

  // ----- The handlers -----

  /** `AddCaption.handle`: the note is the body, untrimmed. */
  method HandleCaption(svc: StateService, msg: WebhookData)
    modifies svc, svc.outbox, svc.visits
    requires svc.Valid()
    ensures svc.Valid() && CaptionHandled(svc, msg)
  {
    var jid := msg.from;
    if IsBlank(jid) || msg.body.None? || IsBlank(msg.body.value) {
      return;
    }
    var session := svc.GetUserState(jid);
    if session.None? {
      return;
    }
    var _ := svc.Resubmit(jid, session.value.visit.(note := msg.body));
  }

  /** `AddAppointment.handle`: the first number of the answer, with no minimum. */
  method HandleAppointment(svc: StateService, msg: WebhookData)
    modifies svc, svc.outbox, svc.visits
    requires svc.Valid()
    ensures svc.Valid() && AppointmentHandled(svc, msg)
  {
    var jid := msg.from;
    var amount := NumberParser.ParseFirstNumber(msg.body);
    if amount.None? {
      svc.outbox.Send(TextTo(jid, NoAmount));
      return;
    }
    var session := svc.GetUserState(jid);
    if session.None? {
      return;
    }
    var _ := svc.Resubmit(jid, session.value.visit.(appointment := Some(amount.value)));
  }

  /** `AddReminder.handle`. */
  method HandleReminder(svc: StateService, msg: WebhookData, today: Date)
    modifies svc, svc.outbox, svc.visits
    requires svc.Valid() && ValidDate(today)
    ensures svc.Valid() && ReminderHandled(svc, msg, today)
  {
    var jid := msg.from;
    var step := ReminderStepOf(msg.body, today);
    match step {
      case NoInput =>
      case Skip(d) =>
        var session := svc.GetUserState(jid);
        if session.Some? {
          var _ := svc.Resubmit(jid, session.value.visit.(reminderDate := Some(d)));
        }
      case Past =>
        svc.outbox.Send(TextTo(jid, PastReminder));
      case Unparsable =>
        svc.outbox.Send(TextTo(jid, BadReminder));
      case Store(d) =>
        var session := svc.GetUserState(jid);
        if session.None? {
          svc.outbox.Send(TextTo(jid, ReminderFailed));
        } else {
          var r := svc.Resubmit(jid, session.value.visit.(reminderDate := Some(d)));
          if r.Failed? {
            svc.outbox.Send(TextTo(jid, ReminderFailed));
          }
        }
    }
  }

  /** `AddName.handle`: the body verbatim, a null body clearing the name. */
  method HandleName(svc: StateService, msg: WebhookData)
    modifies svc, svc.outbox, svc.visits
    requires svc.Valid()
    ensures svc.Valid() && NameHandled(svc, msg)
  {
    var session := svc.GetUserState(msg.from);
    if session.None? {
      return;
    }
    var _ := svc.Resubmit(msg.from, session.value.visit.(name := msg.body));
  }

  /** `AddAddress.handle`: validation errors go to the chat the message came from. */
  method HandleAddress(svc: StateService, msg: WebhookData)
    modifies svc, svc.outbox, svc.visits
    requires svc.Valid()
    ensures svc.Valid() && AddressHandled(svc, msg)
  {
    var check := CheckAddress(msg.body);
    if check.Reject? {
      svc.outbox.Send(TextTo(msg.chatId, check.reason));
      return;
    }
    var session := svc.GetUserState(msg.from);
    if session.None? {
      return;
    }
    var _ := svc.Resubmit(msg.from, session.value.visit.(address := Some(check.value)));
  }

  /** `AddInterested.handle`. */
  method HandleInterested(svc: StateService, msg: WebhookData)
    modifies svc, svc.outbox, svc.visits
    requires svc.Valid()
    ensures svc.Valid() && InterestedHandled(svc, msg)
  {
    if msg.body.None? {
      return;
    }
    var answer := InterestLabel(msg.body.value);
    if answer.None? {
      svc.outbox.Send(TextTo(msg.from, UnknownAnswer));
      return;
    }
    var session := svc.GetUserState(msg.from);
    if session.None? {
      return;
    }
    var _ := svc.Resubmit(msg.from, session.value.visit.(interested := Some(answer.value)));
  }

  /** `AddUsaha.handle`: any non-blank text, "kosong" included, is stored verbatim. */
  method HandleUsaha(svc: StateService, msg: WebhookData)
    modifies svc, svc.outbox, svc.visits
    requires svc.Valid()
    ensures svc.Valid() && UsahaHandled(svc, msg)
  {
    if msg.body.None? || IsBlank(msg.body.value) {
      return;
    }
    var session := svc.GetUserState(msg.from);
    if session.None? {
      return;
    }
    var _ := svc.Resubmit(msg.from, session.value.visit.(usaha := msg.body));
  }

  /** `RegisterUser.handle`: register first, then re-resolve the session. */
  method HandleRegister(svc: StateService, msg: WebhookData)
    modifies svc, svc.outbox, svc.visits, svc.users
    requires svc.Valid()
    ensures svc.Valid() && RegisterHandled(svc, msg)
  {
    if msg.body.None? {
      return;
    }
    var jid := msg.from;
    var _ := svc.users.SaveUser(jid, ToUpper(msg.body.value));
    var session := svc.GetUserState(jid);
    if session.None? {
      return;
    }
    var _ := svc.Resubmit(jid, session.value.visit.(userId := jid));
  }
}
