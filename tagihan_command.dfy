/**
 * The older `tagihan` command (`Tagihan`): like the visit commands it
 * splits `<SPK> <params>`, looks the bill up and opens a `Tagihan` visit,
 * but it cuts a fixed ".tagihan" off the body before anything else, so a
 * body shorter than that throws out of `handle` itself, and its replies
 * differ in wording and recipient.
 */
module TagihanCommand {
  import opened Wrappers
  import opened JavaText
  import Dates
  import opened Domain
  import opened Stores
  import opened Sessions
  import opened StateDispatch
  import opened VisitCommands

  const TagihanTrigger := "tagihan"
  /** The hard-coded text cut off the front of the body, whatever the message prefix. */
  const TagihanPrefix := ".tagihan"
  const TagihanMissingSpk := "Anda belum mengisi no SPK"
  const TagihanOngoingLead := "Anda masih memiliki proses LKN yang belum selesai: "
  const TagihanOngoingTail := ". Harap selesaikan terlebih dahulu atau ketik /cancel."

  /**
   * `handleOngoingProcess` names the visit's name; Java's string
   * concatenation prints a missing name as "null".
   */
  function OngoingName(v: Visit): (r: string)
    ensures v.name.Some? ==> r == v.name.value
    ensures v.name.None? ==> r == "null"
  {
    if v.name.Some? then v.name.value else "null"
  }

  function TagihanOngoingText(v: Visit): string
  {
    TagihanOngoingLead + OngoingName(v) + TagihanOngoingTail
  }

  /**
   * The parameters of a `tagihan` visit: the note is the whole remainder;
   * unlike the visit commands, `parseReminder` is consulted even when
   * there is no remainder.
   */
  function TagihanParameters(params: Option<string>, reminderOf: Option<string> -> Option<Dates.Date>): (p: VisitParameters)
    ensures p.note == params && p.reminder == reminderOf(params) && p.appointment == Appointment(params)
  {
    VisitParameters(params, reminderOf(params), Appointment(params))
  }

  /**
   * What `handle` leaves behind; `None` when it throws, for a missing body
   * or one shorter than ".tagihan".
   */
  function TagihanEffect(s: Snapshot, env: Env, msg: WebhookData): (r: Option<Snapshot>)
  {
    var text := CommandText(msg.body, TagihanPrefix);
    if text.None? then None
    else if msg.from in s.state then
      Some(s.(sent := s.sent + [TextTo(msg.chatId, TagihanOngoingText(s.state[msg.from].visit))]))
    else
      var input := ParseCommandInput(text.value);
      if input.spk == [] then Some(Reply(s, msg, TagihanMissingSpk))
      else Some(SpkEffect(s, env, Tagihan, msg, input.spk, TagihanParameters(input.params, env.reminderOf)))
  }

  /** `handle` throws exactly for a missing body or one shorter than ".tagihan", before looking at any session. */
  lemma TagihanThrowsOnShortBody(s: Snapshot, env: Env, msg: WebhookData)
    ensures TagihanEffect(s, env, msg).None? <==> msg.body.None? || |msg.body.value| < 8
  {
  }

  /**
   * An agent with a session is only reminded, in the chat the message came
   * from (not the agent's own), by the visit's name.
   */
  lemma TagihanOngoingOnlyReminded(s: Snapshot, env: Env, msg: WebhookData)
    requires msg.body.Some? && |msg.body.value| >= 8 && msg.from in s.state
    ensures var r := TagihanEffect(s, env, msg);
            r == Some(s.(sent := s.sent + [TextTo(msg.chatId, TagihanOngoingText(s.state[msg.from].visit))]))
  {
  }

  /**
   * A missing SPK, an unknown SPK or a failed lookup changes no session,
   * event or saved visit and sends one reply to the chat it came from.
   */
  lemma TagihanRejectedOpensNothing(s: Snapshot, env: Env, msg: WebhookData)
    requires msg.body.Some? && |msg.body.value| >= 8 && msg.from !in s.state
    requires var input := ParseCommandInput(CommandText(msg.body, TagihanPrefix).value);
             input.spk == [] || !LookupSpk(env.bills, input.spk).Found?
    ensures var r := TagihanEffect(s, env, msg);
            r.Some? && r.value.state == s.state && r.value.events == s.events && r.value.saved == s.saved
            && |r.value.sent| == |s.sent| + 1 && r.value.sent[..|s.sent|] == s.sent
            && r.value.sent[|s.sent|].phone == msg.chatId && r.value.sent[|s.sent|].replyTo == Some(msg.id)
  {
    var r := TagihanEffect(s, env, msg).value;
    assert r.sent[..|s.sent|] == s.sent;
  }

  /**
   * With the bill found the agent's new session holds a `Tagihan` visit
   * of that SPK, whose appointment is the first amount of the remainder,
   * dropped below 3000, and whose note is the remainder; it is never
   * `Completed`, and nothing is saved.
   */
  lemma TagihanOpensSession(s: Snapshot, env: Env, msg: WebhookData)
    requires msg.body.Some? && |msg.body.value| >= 8 && msg.from !in s.state
    requires var input := ParseCommandInput(CommandText(msg.body, TagihanPrefix).value);
             input.spk != [] && LookupSpk(env.bills, input.spk).Found?
    ensures var input := ParseCommandInput(CommandText(msg.body, TagihanPrefix).value);
            var r := TagihanEffect(s, env, msg);
            r.Some? && msg.from in r.value.state && r.value.state[msg.from].currentState != Completed
            && r.value.state[msg.from].visit.visitType == Some(Tagihan)
            && r.value.state[msg.from].visit.spk == Some(input.spk)
            && r.value.state[msg.from].visit.note == input.params
            && r.value.state[msg.from].visit.appointment == Appointment(input.params)
            && r.value.saved == s.saved
  {
    var input := ParseCommandInput(CommandText(msg.body, TagihanPrefix).value);
    var b := LookupSpk(env.bills, input.spk).bill;
    var v := BuildVisit(msg.from, b, TagihanParameters(input.params, env.reminderOf), Tagihan, env.now);
    OpenedSessionStays(s, msg.from, v, env.users, env.accepts);
  }

  /**
   * `Tagihan.handle`. `escaped` is true where the handler throws instead of
   * returning; nothing then changes.
   */
  method HandleTagihan(svc: StateService, dispatcher: StateDispatcher, msg: WebhookData,
                       now: Dates.Instant, reminderOf: Option<string> -> Option<Dates.Date>) returns (escaped: bool)
    modifies svc, svc.outbox, svc.visits
    requires svc.Valid() && dispatcher.svc == svc && OnlyCompletedFinalizes(dispatcher.handlers)
    ensures svc.Valid()
    ensures var r := TagihanEffect(old(svc.Snap()),
                       Env(svc.users.users, svc.visits.accepts, svc.bills.bills, [], now, reminderOf), msg);
            escaped == r.None? && svc.Snap() == r.GetOr(old(svc.Snap()))
  {
    if msg.body.None? || |msg.body.value| < |TagihanPrefix| {
      return true;
    }
    escaped := false;
    var text := Trim(msg.body.value[|TagihanPrefix|..]);
    var input := ParseCommandInput(text);
    var session := svc.GetUserState(msg.from);
    if session.Some? {
      svc.outbox.Send(TextTo(msg.chatId, TagihanOngoingText(session.value.visit)));
      return;
    }
    if input.spk == [] {
      svc.outbox.Send(ReplyTo(msg.chatId, TagihanMissingSpk, msg.id));
      return;
    }
    ProcessBillWithSpk(svc, dispatcher, Tagihan, msg, input.spk, TagihanParameters(input.params, reminderOf), now,
                       Env(svc.users.users, svc.visits.accepts, svc.bills.bills, [], now, reminderOf));
  }
}
