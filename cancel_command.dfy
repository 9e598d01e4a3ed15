/**
 * `CancelHandler`, the `cancel` command: drops the sender's session and
 * confirms it; a sender without a session gets no answer. The dispatcher
 * runs commands only for senders without a session, so in the application
 * only the second case occurs (MessageDispatch.CancelNeverEndsSession).
 */
module CancelCommand {
  import opened Domain
  import opened Sessions

  const CancelTrigger := "cancel"
  const CancelledMessage := "Aksi Dibatalkan"

  /** What `handle` leaves behind for the sender `jid`. */
  function Cancelled(s: Snapshot, jid: string): (r: Snapshot)
    ensures jid !in s.state ==> r == s
    ensures jid in s.state ==> r.state == s.state - {jid} && r.sent == s.sent + [TextTo(jid, CancelledMessage)]
    ensures r.events == s.events && r.saved == s.saved
  {
    if jid !in s.state then s
    else s.(state := s.state - {jid}, sent := s.sent + [TextTo(jid, CancelledMessage)])
  }

  /** Cancelling touches no other agent's session. */
  lemma CancelKeepsOthers(s: Snapshot, jid: string, other: string)
    requires other != jid
    ensures other in Cancelled(s, jid).state <==> other in s.state
    ensures other in s.state ==> Cancelled(s, jid).state[other] == s.state[other]
  {
  }

  /** A second cancel finds no session and does nothing. */
  lemma CancelIdempotent(s: Snapshot, jid: string)
    ensures Cancelled(Cancelled(s, jid), jid) == Cancelled(s, jid)
  {
  }

  /** `handle`: the sender is `from`, whatever chat the command came in. */
  method HandleCancel(svc: StateService, msg: WebhookData)
    modifies svc, svc.outbox
    requires svc.Valid()
    ensures svc.Valid()
    ensures svc.Snap() == Cancelled(old(svc.Snap()), msg.from)
  {
    var jid := msg.from;
    var session := svc.GetUserState(jid);
    if session.None? {
      return;
    }
    svc.RemoveState(jid);
    svc.outbox.Send(TextTo(jid, CancelledMessage));
  }
}
