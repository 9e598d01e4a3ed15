/**
 * `StateDispatcher`: the table from a conversation state to its handler,
 * filled once from the `@StateHandler` beans, and the routing of an
 * incoming message to the handler of its sender's state.
 */
module StateDispatch {
  import opened Wrappers
  import opened JavaText
  import Dates
  import opened Domain
  import opened Sessions
  import opened StateHandlers

  /** A bean carrying `@StateHandler(state = …)`, and whether it implements `StateHandlers`. */
  datatype StateBean = StateBean(state: State, kind: Kind, implementsHandlers: bool)

  /** The table after putting the beans in order: only implementers go in, a later one wins. */
  function Registry(table: map<State, Kind>, beans: seq<StateBean>): (r: map<State, Kind>)
    ensures forall s :: s in r <==> s in table || exists i :: 0 <= i < |beans| && beans[i].implementsHandlers && beans[i].state == s
  {
    if beans == [] then table
    else
      var prefix := Registry(table, beans[..|beans| - 1]);
      var b := beans[|beans| - 1];
      assert forall i :: 0 <= i < |beans| - 1 ==> beans[..|beans| - 1][i] == beans[i];
      if b.implementsHandlers then prefix[b.state := b.kind] else prefix
  }

  /**
   * A state maps to the last implementing bean that names it: whatever
   * came earlier for that state, and every bean that does not implement
   * the interface, is overridden or ignored.
   */
  lemma {:induction false} LastBeanWins(table: map<State, Kind>, beans: seq<StateBean>, i: nat)
    requires i < |beans| && beans[i].implementsHandlers
    requires forall j :: i < j < |beans| && beans[j].implementsHandlers ==> beans[j].state != beans[i].state
    ensures beans[i].state in Registry(table, beans) && Registry(table, beans)[beans[i].state] == beans[i].kind
  {
    if i < |beans| - 1 {
      var prefix := beans[..|beans| - 1];
      assert forall j :: i < j < |prefix| ==> prefix[j] == beans[j];
      LastBeanWins(table, prefix, i);
    }
  }

  /** A state no implementing bean names keeps what the table had. */
  lemma {:induction false} UnnamedStateKept(table: map<State, Kind>, beans: seq<StateBean>, s: State)
    requires forall j :: 0 <= j < |beans| && beans[j].implementsHandlers ==> beans[j].state != s
    ensures s in Registry(table, beans) <==> s in table
    ensures s in table ==> Registry(table, beans)[s] == table[s]
  {
    if beans != [] {
      var prefix := beans[..|beans| - 1];
      assert forall j :: 0 <= j < |prefix| ==> prefix[j] == beans[j];
      UnnamedStateKept(table, prefix, s);
    }
  }

  /** The beans of the application, one per handler class. */
  const Beans: seq<StateBean> := [
    StateBean(AddCaption, CaptionHandler, true),
    StateBean(AddAppointment, AppointmentHandler, true),
    StateBean(AddReminder, ReminderHandler, true),
    StateBean(AddName, NameHandler, true),
    StateBean(AddAddress, AddressHandler, true),
    StateBean(AddInterested, InterestedHandler, true),
    StateBean(AddUsaha, UsahaHandler, true),
    StateBean(Register, RegisterHandler, true),
    StateBean(Completed, CompletedHandler, true)]

  /** `order` lists each of the application's beans once, in the order the scan finds them. */
  predicate ScanOrder(order: seq<StateBean>) { multiset(order) == multiset(Beans) }

  /** The handler class annotated with each state; `AddSpk` and `AddLimit` have none. */
  function HandlerOf(s: State): Option<Kind>
  {
    match s
    case AddCaption => Some(CaptionHandler)
    case AddAppointment => Some(AppointmentHandler)
    case AddReminder => Some(ReminderHandler)
    case AddName => Some(NameHandler)
    case AddAddress => Some(AddressHandler)
    case AddInterested => Some(InterestedHandler)
    case AddUsaha => Some(UsahaHandler)
    case Register => Some(RegisterHandler)
    case Completed => Some(CompletedHandler)
    case AddSpk => None
    case AddLimit => None
  }

  /** The table the application's beans give. */
  const ApplicationHandlers: map<State, Kind> := map s | HandlerOf(s).Some? :: HandlerOf(s).value

  /** Every bean of the application is the entry of its state in that table. */
  lemma BeansAreTable(b: StateBean)
    requires b in Beans
    ensures b.implementsHandlers && b.state in ApplicationHandlers && ApplicationHandlers[b.state] == b.kind
  {
  }

  /** Every state of that table is named by one of the application's beans. */
  lemma TableIsBeans(s: State)
    requires s in ApplicationHandlers
    ensures StateBean(s, ApplicationHandlers[s], true) in Beans
  {
    assert Beans[0] in Beans && Beans[1] in Beans && Beans[2] in Beans && Beans[3] in Beans && Beans[4] in Beans;
    assert Beans[5] in Beans && Beans[6] in Beans && Beans[7] in Beans && Beans[8] in Beans;
  }

  /**
   * With the application's beans, in whatever order they are scanned, the
   * table is `ApplicationHandlers`: `AddSpk` and `AddLimit` have no
   * handler and every other state has its own.
   */
  lemma ApplicationRegistry(order: seq<StateBean>)
    requires ScanOrder(order)
    ensures forall s :: s in Registry(map[], order) <==> s in ApplicationHandlers
    ensures forall s :: s in Registry(map[], order) ==> Registry(map[], order)[s] == ApplicationHandlers[s]
  {
    var r := Registry(map[], order);
    forall s | s in r ensures s in ApplicationHandlers && r[s] == ApplicationHandlers[s] {
      RegisteredFromTable(order, s);
    }
    forall s | s in ApplicationHandlers ensures s in r {
      TableRegistered(order, s);
    }
  }

  /** So the scanned table is exactly `ApplicationHandlers`. */
  lemma ApplicationTable(order: seq<StateBean>)
    requires ScanOrder(order)
    ensures Registry(map[], order) == ApplicationHandlers
  {
    ApplicationRegistry(order);
    MapsEqual(Registry(map[], order), ApplicationHandlers);
  }

  lemma MapsEqual(a: map<State, Kind>, b: map<State, Kind>)
    requires forall s :: s in a <==> s in b
    requires forall s :: s in a ==> a[s] == b[s]
    ensures a == b
  {
  }

  lemma RegisteredFromTable(order: seq<StateBean>, s: State)
    requires ScanOrder(order) && s in Registry(map[], order)
    ensures s in ApplicationHandlers && Registry(map[], order)[s] == ApplicationHandlers[s]
  {
    var i :| 0 <= i < |order| && order[i].implementsHandlers && order[i].state == s;
    var k := LastOf(order, s, i);
    assert order[k] in multiset(Beans);
    BeansAreTable(order[k]);
    LastBeanWins(map[], order, k);
  }

  lemma TableRegistered(order: seq<StateBean>, s: State)
    requires ScanOrder(order) && s in ApplicationHandlers
    ensures s in Registry(map[], order)
  {
    TableIsBeans(s);
    var b := StateBean(s, ApplicationHandlers[s], true);
    assert b in multiset(order);
    var i :| 0 <= i < |order| && order[i] == b;
  }

  /** The last position at or after `i` whose implementing bean names `s`. */
  lemma {:induction false} LastOf(beans: seq<StateBean>, s: State, i: nat) returns (k: nat)
    requires i < |beans| && beans[i].implementsHandlers && beans[i].state == s
    ensures i <= k < |beans| && beans[k].implementsHandlers && beans[k].state == s
    ensures forall j :: k < j < |beans| && beans[j].implementsHandlers ==> beans[j].state != s
    decreases |beans| - i
  {
    if exists j :: i < j < |beans| && beans[j].implementsHandlers && beans[j].state == s {
      var j :| i < j < |beans| && beans[j].implementsHandlers && beans[j].state == s;
      k := LastOf(beans, s, j);
    } else {
      k := i;
    }
  }

  /** Only the `Completed` state is served by `CompletedVisitState`, the one handler that acts on a session. */
  predicate OnlyCompletedFinalizes(handlers: map<State, Kind>)
  {
    forall s :: s in handlers && handlers[s] == CompletedHandler ==> s == Completed
  }

  /** The application's table has that shape. */
  lemma ApplicationOnlyCompletedFinalizes()
    ensures OnlyCompletedFinalizes(ApplicationHandlers)
  {
  }

  class StateDispatcher {
    var handlers: map<State, Kind>
    const svc: StateService

    constructor (svc: StateService)
      ensures handlers == map[] && this.svc == svc
    {
      handlers := map[];
      this.svc := svc;
    }

    /** `init`: register the beans one by one. */
    method Init(beans: seq<StateBean>)
      modifies this
      ensures handlers == Registry(old(handlers), beans)
    {
      var i := 0;
      while i < |beans|
        invariant 0 <= i <= |beans|
        invariant handlers == Registry(old(handlers), beans[..i])
      {
        assert beans[..i + 1][..i] == beans[..i];
        var b := beans[i];
        if b.implementsHandlers {
          handlers := handlers[b.state := b.kind];
        }
        i := i + 1;
      }
      assert beans[..|beans|] == beans;
    }

    /**
     * `dispatch(StateData)`: run the handler of the session's state on the
     * session itself; only `CompletedVisitState` does anything with it.
     */
    method Dispatch(sd: StateData)
      modifies svc, svc.outbox, svc.visits
      requires svc.Valid()
      ensures svc.Valid()
      ensures if sd.currentState in handlers && handlers[sd.currentState] == CompletedHandler
              then svc.Snap() == Finalized(old(svc.Snap()), sd, svc.visits.accepts(sd.visit))
              else svc.Snap() == old(svc.Snap())
    {
      if sd.currentState in handlers && handlers[sd.currentState] == CompletedHandler {
        svc.Finalize(sd);
      }
    }

    /**
     * `handle(WebhookPayload)`: group chats are ignored; otherwise the
     * handler of the sender's state runs. Returns the handler that ran.
     */
    method Handle(msg: WebhookData, today: Dates.Date) returns (ran: Option<Kind>)
      modifies svc, svc.outbox, svc.visits, svc.users
      requires svc.Valid() && Dates.ValidDate(today)
      ensures svc.Valid()
      ensures ran == Routed(handlers, old(svc.state), msg)
      ensures ran.None? ==> svc.Snap() == old(svc.Snap()) && svc.users.users == old(svc.users.users)
      ensures ran.Some? ==> Handled(ran.value, svc, msg, today)
    {
      ran := None;
      if Contains(msg.chatId, "@g.us") {
        return;
      }
      var session := svc.GetUserState(msg.from);
      if session.None? || session.value.currentState !in handlers {
        return;
      }
      var kind := handlers[session.value.currentState];
      ran := Some(kind);
      Run(kind, msg, today);
    }

    /** `handler.handle(message)` for the handler of the sender's state. */
    method Run(kind: Kind, msg: WebhookData, today: Dates.Date)
      modifies svc, svc.outbox, svc.visits, svc.users
      requires svc.Valid() && Dates.ValidDate(today)
      ensures svc.Valid()
      ensures Handled(kind, svc, msg, today)
    {
      match kind {
        case CaptionHandler => HandleCaption(svc, msg);
        case AppointmentHandler => HandleAppointment(svc, msg);
        case ReminderHandler => HandleReminder(svc, msg, today);
        case NameHandler => HandleName(svc, msg);
        case AddressHandler => HandleAddress(svc, msg);
        case InterestedHandler => HandleInterested(svc, msg);
        case UsahaHandler => HandleUsaha(svc, msg);
        case RegisterHandler => HandleRegister(svc, msg);
        case CompletedHandler =>
      }
    }
  }

  /** Which handler a message reaches: none for a group chat, a sender without a session, or an unhandled state. */
  function Routed(handlers: map<State, Kind>, st: map<string, StateData>, msg: WebhookData): (r: Option<Kind>)
    ensures Contains(msg.chatId, "@g.us") ==> r.None?
    ensures msg.from !in st ==> r.None?
    ensures r.Some? <==> !Contains(msg.chatId, "@g.us") && msg.from in st && st[msg.from].currentState in handlers
    ensures r.Some? ==> r.value == handlers[st[msg.from].currentState]
  {
    if Contains(msg.chatId, "@g.us") || msg.from !in st || st[msg.from].currentState !in handlers then None
    else Some(handlers[st[msg.from].currentState])
  }

  /** With the application's table, a session waiting for its SPK or limit ignores every message. */
  lemma SpkAndLimitStatesIgnoreMessages(order: seq<StateBean>, st: map<string, StateData>, msg: WebhookData)
    requires ScanOrder(order)
    requires msg.from in st && (st[msg.from].currentState == AddSpk || st[msg.from].currentState == AddLimit)
    ensures Routed(Registry(map[], order), st, msg).None?
  {
    var s := st[msg.from].currentState;
    forall j | 0 <= j < |order| && order[j].implementsHandlers ensures order[j].state != s {
      assert order[j] in multiset(Beans);
    }
    UnnamedStateKept(map[], order, s);
  }
}
