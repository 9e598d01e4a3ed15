/**
 * `StateService` with what runs when it publishes a state change: the
 * session map, `setState`, `setVisitData` (open or find the session, seed
 * it from the bill, merge the update, resolve the next state),
 * `removeState`, the listener `StateChangedListener.onStateChanged`, the
 * dispatcher's `handle(StateData)` and `CompletedVisitState.handle`.
 * These call each other in a cycle, so they live in one class here. The
 * listener runs after the state has been stored. Its sends and the visit
 * save are asynchronous in the source; the model takes them to finish
 * after the session is re-stored, so a completed visit's removal is the
 * last write to the session map.
 */
module Sessions {
  import opened Wrappers
  import opened JavaText
  import opened Domain
  import opened NextState
  import opened Stores
  import opened Users
  import Prompts
  import Summaries

  /** Why `setVisitData` fails: unknown SPK, a failed bill query, or a visit without a type. */
  datatype Failure = SpkNotFound | BillLookupError | NoVisitType

  /** What the `Mono<State>` of `setVisitData` completes with. */
  datatype Outcome = Resolved(state: State) | Failed(failure: Failure)

  /** The messages `CompletedVisitState.handle` sends: the summary after a save, the apology otherwise. */
  function FinalizeMessages(sd: StateData, accepted: bool): (r: seq<Outbound>)
    ensures |r| <= 1
    ensures forall m :: m in r ==> m.phone == sd.visit.userId
    ensures accepted && Summaries.HasSummary(sd.visit) ==> r == [Outbound(sd.visit.userId, Summary(sd.visit), None)]
    ensures !accepted && Summaries.ErrorText(sd.visit.visitType).Some?
            ==> r == [TextTo(sd.visit.userId, Summaries.ErrorText(sd.visit.visitType).value)]
    ensures r == [] <==> sd.visit.visitType.None? || sd.visit.visitType == Some(Informational)
  {
    if accepted then
      if Summaries.HasSummary(sd.visit) then [Outbound(sd.visit.userId, Summary(sd.visit), None)] else []
    else
      var text := Summaries.ErrorText(sd.visit.visitType);
      if text.Some? then [TextTo(sd.visit.userId, text.value)] else []
  }

  /** The messages the listener sends when a session enters its state. */
  function NotifyMessages(sd: StateData, accepted: bool): (r: seq<Outbound>)
    ensures sd.currentState == Completed ==> r == FinalizeMessages(sd, accepted)
    ensures sd.currentState != Completed ==> |r| <= 1 && (r == [] <==> Prompts.Notification(sd).None?)
  {
    if sd.currentState == Completed then FinalizeMessages(sd, accepted)
    else match Prompts.Notification(sd)
      case None => []
      case Some(m) => [m]
  }

  /** What the engine's collaborators hold: sessions, published events, sent messages, saved visits. */
  datatype Snapshot = Snapshot(
    state: map<string, StateData>, events: seq<StateData>, sent: seq<Outbound>, saved: seq<Visit>)

  /** After `CompletedVisitState.handle`: a saved visit leaves the store and its session ends. */
  function Finalized(s: Snapshot, sd: StateData, accepted: bool): (r: Snapshot)
    ensures r.events == s.events
    ensures r.sent == s.sent + FinalizeMessages(sd, accepted)
    ensures accepted ==> r.state == s.state - {sd.visit.userId} && r.saved == s.saved + [sd.visit]
    ensures !accepted ==> r.state == s.state && r.saved == s.saved
  {
    Snapshot(if accepted then s.state - {sd.visit.userId} else s.state, s.events,
             s.sent + FinalizeMessages(sd, accepted), if accepted then s.saved + [sd.visit] else s.saved)
  }

  /** After the listener: a completed session is finalized, any other is prompted. */
  function Notified(s: Snapshot, sd: StateData, accepted: bool): (r: Snapshot)
    ensures sd.currentState == Completed ==> r == Finalized(s, sd, accepted)
    ensures sd.currentState != Completed ==> r == s.(sent := s.sent + NotifyMessages(sd, accepted))
  {
    if sd.currentState == Completed then Finalized(s, sd, accepted)
    else s.(sent := s.sent + NotifyMessages(sd, accepted))
  }

  /** After `setState` on a session that exists: stored, published, then heard by the listener. */
  function Entered(s: Snapshot, jid: string, sd: StateData, accepted: bool): Snapshot
  {
    Notified(s.(state := s.state[jid := sd], events := s.events + [sd]), sd, accepted)
  }

  /**
   * After `processVisitData`'s resolution of a stored visit `v`: the next
   * state, if the resolver gives one, is entered.
   */
  function AfterResolve(s: Snapshot, jid: string, v: Visit, users: map<string, User>, accepts: Visit -> bool): Snapshot
  {
    match DetermineNextState(users, v)
    case None => s
    case Some(next) => Entered(s, jid, StateData(next, v), accepts(v))
  }

  /**
   * A state handler's step: one field of the session visit is written in
   * place, then `setVisitData(jid, visit)` re-resolves the state.
   */
  function Rewritten(s: Snapshot, jid: string, v: Visit, users: map<string, User>, accepts: Visit -> bool): Snapshot
    requires jid in s.state
  {
    AfterResolve(s.(state := s.state[jid := s.state[jid].(visit := v)]), jid, v, users, accepts)
  }

  /** A session that enters any state but `Completed` is stored with it and sent at most its prompt. */
  lemma PromptedSessionStays(s: Snapshot, jid: string, sd: StateData, accepted: bool)
    requires sd.currentState != Completed
    ensures var r := Entered(s, jid, sd, accepted);
            jid in r.state && r.state[jid] == sd && r.events == s.events + [sd] && r.saved == s.saved
            && |r.sent| <= |s.sent| + 1 && r.sent[..|s.sent|] == s.sent
  {
  }

  /** A completed visit that saves ends its session, is saved once, and is summarized unless informational. */
  lemma CompletedSessionEnds(s: Snapshot, jid: string, sd: StateData)
    requires sd.currentState == Completed && sd.visit.userId == jid
    ensures var r := Entered(s, jid, sd, true);
            jid !in r.state && r.saved == s.saved + [sd.visit]
            && (forall k :: k in s.state && k != jid ==> k in r.state && r.state[k] == s.state[k])
            && (sd.visit.visitType.Some? && sd.visit.visitType != Some(Informational)
                ==> r.sent == s.sent + [Outbound(jid, Summary(sd.visit), None)])
  {
  }

  /** A completed visit the store refuses keeps its session, and the agent gets the apology. */
  lemma RefusedVisitKeepsSession(s: Snapshot, jid: string, sd: StateData)
    requires sd.currentState == Completed && sd.visit.userId == jid
    ensures var r := Entered(s, jid, sd, false);
            jid in r.state && r.state[jid] == sd && r.saved == s.saved
            && (sd.visit.visitType.Some? && sd.visit.visitType != Some(Informational)
                ==> r.sent == s.sent + [TextTo(jid, Summaries.ErrorText(sd.visit.visitType).value)])
  {
  }

  /** An unregistered agent's session moves to `Register` and is prompted to register. */
  lemma UnregisteredSessionRegisters(s: Snapshot, jid: string, v: Visit, users: map<string, User>, accepts: Visit -> bool)
    requires v.userId !in users
    ensures var r := AfterResolve(s, jid, v, users, accepts);
            jid in r.state && r.state[jid] == StateData(Register, v) && r.saved == s.saved
  {
  }

  /** The visit of a session opened by the update `u`: all of `u` but its id and usaha, owned by `jid`. */
  function FirstVisit(jid: string, u: Visit): (w: Visit)
    ensures w.userId == jid && w.usaha.None? && w.id.None?
    ensures w.spk == u.spk && w.visitType == u.visitType && w.note == u.note && w.name == u.name
  {
    u.(id := None, userId := jid, usaha := None)
  }

  /** After `setVisitData` for a jid without a session: the session is created and resolved. */
  function Opening(s: Snapshot, jid: string, u: Visit, users: map<string, User>, accepts: Visit -> bool): Snapshot
  {
    var w := FirstVisit(jid, u);
    AfterResolve(s.(state := s.state[jid := StateData(AddSpk, w)]), jid, w, users, accepts)
  }

  /**
   * A session opened by a typed update is stored with its resolved state,
   * which is never `Completed` (the usaha is still to be asked), publishes
   * one event and saves nothing; other sessions are untouched.
   */
  lemma OpenedSessionStays(s: Snapshot, jid: string, u: Visit, users: map<string, User>, accepts: Visit -> bool)
    requires u.visitType.Some?
    ensures var w := FirstVisit(jid, u);
            var r := Opening(s, jid, u, users, accepts);
            DetermineNextState(users, w).Some? && DetermineNextState(users, w) != Some(Completed)
            && r.state == s.state[jid := StateData(DetermineNextState(users, w).value, w)]
            && r.events == s.events + [StateData(DetermineNextState(users, w).value, w)]
            && r.saved == s.saved
            && |r.sent| <= |s.sent| + 1 && r.sent[..|s.sent|] == s.sent
  {
    var w := FirstVisit(jid, u);
    assert DetermineStateFromVisit(w) != Some(Completed);
  }

  /** `getOrCreateStateData`: the session of `jid`, or a new one asking for the SPK. */
  function Opened(st: map<string, StateData>, jid: string, u: Visit): (sd: StateData)
    ensures jid in st ==> sd == st[jid]
    ensures jid !in st ==> sd == StateData(AddSpk, NewSessionVisit(jid, u))
  {
    if jid in st then st[jid] else StateData(AddSpk, NewSessionVisit(jid, u))
  }

  /** The bill is looked up exactly when the session has no SPK and the update brings one. */
  predicate NeedsBill(v: Visit, u: Visit) { v.spk.None? && u.spk.Some? }

  /**
   * The session visit after seeding and merging; `None` when the bill is
   * needed and not found (or the query fails).
   */
  function Prepared(v: Visit, u: Visit, bills: seq<Bills>): (r: Option<Visit>)
    ensures !NeedsBill(v, u) ==> r == Some(Merge(v, u))
    ensures NeedsBill(v, u) ==> (r.Some? <==> LookupSpk(bills, u.spk.value).Found?)
    ensures r.Some? ==> r.value.userId == v.userId && r.value.spk.Some? == (v.spk.Some? || u.spk.Some?)
  {
    if !NeedsBill(v, u) then Some(Merge(v, u))
    else match LookupSpk(bills, u.spk.value)
      case Found(b) => Some(Merge(SeedFromBill(v, u.spk.value, b), u))
      case NotFound => None
      case LookupFailed => None
  }

  /** The failure reported when `Prepared` finds no bill. */
  function BillFailure(v: Visit, u: Visit, bills: seq<Bills>): Failure
    requires NeedsBill(v, u)
  {
    if LookupSpk(bills, u.spk.value).NotFound? then SpkNotFound else BillLookupError
  }

  /** Without a bill lookup the update only fills gaps of the session visit. */
  lemma PreparedFillsOnly(v: Visit, u: Visit, bills: seq<Bills>)
    requires !NeedsBill(v, u)
    ensures Prepared(v, u, bills).Some?
    ensures Extends(v, Prepared(v, u, bills).value)
    ensures OnlyFromUpdate(v, u, Prepared(v, u, bills).value)
  {
  }

  /** With a bill found, the SPK, name and address are the bill's. */
  lemma PreparedTakesBill(v: Visit, u: Visit, bills: seq<Bills>)
    requires NeedsBill(v, u) && LookupSpk(bills, u.spk.value).Found?
    ensures var b := LookupSpk(bills, u.spk.value).bill;
            var w := Prepared(v, u, bills).value;
            w.spk == u.spk && w.name == Some(b.name) && w.address == Some(b.address)
            && w.principal == Some(b.principal) && w.interest == Some(b.lastInterest)
            && b.noSpk == u.spk.value
  {
  }

  class StateService {
    var state: map<string, StateData>
    ghost var events: seq<StateData>
    const users: UserService
    const outbox: Outbox
    const visits: VisitStore
    const bills: BillsStore

    /** Every session is keyed by the id of the agent whose visit it holds. */
    ghost predicate Valid()
      reads this
    {
      forall k :: k in state ==> state[k].visit.userId == k
    }

    constructor (users: UserService, outbox: Outbox, visits: VisitStore, bills: BillsStore)
      ensures Valid() && state == map[] && events == []
      ensures this.users == users && this.outbox == outbox && this.visits == visits && this.bills == bills
    {
      state := map[];
      events := [];
      this.users := users;
      this.outbox := outbox;
      this.visits := visits;
      this.bills := bills;
    }

    /** `getUserState`. */
    function GetUserState(jid: string): (r: Option<StateData>)
      reads this
      ensures r.Some? <==> jid in state
      ensures r.Some? ==> r.value == state[jid]
    {
      if jid in state then Some(state[jid]) else None
    }

    /** The observable state of the service and its collaborators. */
    ghost function Snap(): Snapshot
      reads this, outbox, visits
    {
      Snapshot(state, events, outbox.sent, visits.saved)
    }

    /** `removeState`: deletes that jid's session and nothing else. */
    method RemoveState(jid: string)
      modifies this
      requires Valid()
      ensures Valid()
      ensures state == old(state) - {jid} && events == old(events)
    {
      state := state - {jid};
    }

    /**
     * `CompletedVisitState.handle`: save the visit; on success remove the
     * session of its agent and send the summary, otherwise send the apology.
     */
    method Finalize(sd: StateData)
      modifies this, outbox, visits
      requires Valid()
      ensures Valid()
      ensures Snap() == Finalized(old(Snap()), sd, visits.accepts(sd.visit))
    {
      var jid := sd.visit.userId;
      var saved := visits.Save(sd.visit);
      if saved.Some? {
        RemoveState(jid);
        if Summaries.HasSummary(saved.value) {
          outbox.Send(Outbound(jid, Summary(saved.value), None));
        }
      } else {
        var text := Summaries.ErrorText(sd.visit.visitType);
        if text.Some? {
          outbox.Send(TextTo(jid, text.value));
        }
      }
    }

    /** `WhatsAppMessageDispatcher.handle(StateData)`: finalize a completed session; anything else is a no-op. */
    method HandleStateData(sd: StateData)
      modifies this, outbox, visits
      requires Valid()
      ensures Valid()
      ensures Snap() == if sd.currentState == Completed then Finalized(old(Snap()), sd, visits.accepts(sd.visit))
                        else old(Snap())
    {
      if sd.currentState == Completed {
        Finalize(sd);
      }
    }

    /** `StateChangedListener.onStateChanged`: prompt for the new state, or finalize a completed one. */
    method OnStateChanged(sd: StateData)
      modifies this, outbox, visits
      requires Valid()
      ensures Valid()
      ensures Snap() == Notified(old(Snap()), sd, visits.accepts(sd.visit))
    {
      if sd.currentState == Completed {
        HandleStateData(sd);
      } else {
        var m := Prompts.Notification(sd);
        if m.Some? {
          outbox.Send(m.value);
        }
      }
    }

    /**
     * `setState`: a no-op for a jid without a session; otherwise the new
     * state is stored, one event is published and the listener runs.
     */
    method SetState(jid: string, s: State)
      modifies this, outbox, visits
      requires Valid()
      ensures Valid()
      ensures jid !in old(state) ==> Snap() == old(Snap())
      ensures jid in old(state) ==>
                var sd := old(state)[jid].(currentState := s);
                Snap() == Entered(old(Snap()), jid, sd, visits.accepts(sd.visit))
    {
      if jid in state {
        var sd := state[jid].(currentState := s);
        state := state[jid := sd];
        events := events + [sd];
        OnStateChanged(sd);
      }
    }

    /**
     * `setVisitData`: open or find the session, seed it from the bill when
     * it gains its SPK, merge the update and move to the resolved state.
     */
    method SetVisitData(jid: string, u: Visit) returns (r: Outcome)
      modifies this, outbox, visits
      requires Valid()
      ensures Valid()
      ensures var sd0 := Opened(old(state), jid, u);
              Prepared(sd0.visit, u, bills.bills).None? ==>
                r == Failed(BillFailure(sd0.visit, u, bills.bills))
                && Snap() == old(Snap()).(state := old(state)[jid := sd0])
      ensures var sd0 := Opened(old(state), jid, u);
              var w := Prepared(sd0.visit, u, bills.bills);
              w.Some? ==>
                var staged := old(Snap()).(state := old(state)[jid := sd0.(visit := w.value)]);
                var next := DetermineNextState(users.users, w.value);
                r == (if next.Some? then Resolved(next.value) else Failed(NoVisitType))
                && Snap() == AfterResolve(staged, jid, w.value, users.users, visits.accepts)
    {
      var w, failure := OpenAndSeed(jid, u);
      if w.None? {
        return Failed(failure);
      }
      var v := w.value;
      ghost var sd0 := Opened(old(state), jid, u);
      var user := users.FindByJid(v.userId);
      var next := if user.Some? then DetermineStateFromVisit(v) else Some(Register);
      assert next == DetermineNextState(users.users, v);
      if next.None? {
        return Failed(NoVisitType);
      }
      ghost var sd := StateData(next.value, v);
      assert old(state)[jid := sd0.(visit := v)][jid := sd] == old(state)[jid := sd];
      SetState(jid, next.value);
      r := Resolved(next.value);
    }

    /**
     * A state handler's `visit.setX(…)` on the session's own visit object
     * followed by `setVisitData(jid, visit)`: the update is the stored
     * visit itself, so the merge changes nothing and no bill is looked up.
     */
    method Resubmit(jid: string, v: Visit) returns (r: Outcome)
      modifies this, outbox, visits
      requires Valid() && jid in state && v.userId == jid
      ensures Valid()
      ensures r == (if DetermineNextState(users.users, v).Some? then Resolved(DetermineNextState(users.users, v).value)
                    else Failed(NoVisitType))
      ensures Snap() == Rewritten(old(Snap()), jid, v, users.users, visits.accepts)
    {
      state := state[jid := state[jid].(visit := v)];
      MergeSelf(v);
      assert state[jid := state[jid].(visit := v)] == state;
      r := SetVisitData(jid, v);
    }

    /** `setVisitData` for a jid without a session: the update itself opens it. */
    method Open(jid: string, u: Visit) returns (r: Outcome)
      modifies this, outbox, visits
      requires Valid() && jid !in state
      ensures Valid()
      ensures var next := DetermineNextState(users.users, FirstVisit(jid, u));
              r == (if next.Some? then Resolved(next.value) else Failed(NoVisitType))
      ensures Snap() == Opening(old(Snap()), jid, u, users.users, visits.accepts)
    {
      FirstUpdateCopiesUpdate(jid, u);
      r := SetVisitData(jid, u);
    }

    /**
     * The data half of `setVisitData`: `getOrCreateStateData`, the bill seed
     * and `processVisitData`'s merge, leaving the state as it was.
     */
    method OpenAndSeed(jid: string, u: Visit) returns (w: Option<Visit>, failure: Failure)
      modifies this
      requires Valid()
      ensures Valid() && events == old(events)
      ensures var sd0 := Opened(old(state), jid, u);
              w == Prepared(sd0.visit, u, bills.bills)
              && (w.None? ==> state == old(state)[jid := sd0] && failure == BillFailure(sd0.visit, u, bills.bills))
              && (w.Some? ==> state == old(state)[jid := sd0.(visit := w.value)] && w.value.userId == jid)
    {
      failure := NoVisitType;
      if jid !in state {
        state := state[jid := StateData(AddSpk, NewSessionVisit(jid, u))];
      }
      var sd := state[jid];
      var v := sd.visit;
      if v.spk.None? && u.spk.Some? {
        var found := bills.FindBillBySpk(u.spk.value);
        match found {
          case NotFound =>
            return None, SpkNotFound;
          case LookupFailed =>
            return None, BillLookupError;
          case Found(b) =>
            v := SeedFromBill(v, u.spk.value, b);
        }
      }
      v := Merge(v, u);
      state := state[jid := sd.(visit := v)];
      w := Some(v);
    }
  }
}
