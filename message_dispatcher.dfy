/**
 * `WhatsAppMessageDispatcher`, the entry point for every incoming message.
 * A sender with a session goes to the state dispatcher; anyone else's
 * message is a command when its caption starts with the configured
 * prefix, and runs the handler its first word names in the trigger table.
 * A set of message ids in flight keeps a message from running twice
 * at once.
 */
module MessageDispatch {
  import opened Wrappers
  import opened JavaText
  import Dates
  import opened Domain
  import opened Stores
  import opened Sessions
  import opened StateHandlers
  import opened StateDispatch
  import opened CaptionFindUtil
  import opened CancelCommand
  import opened Reports

  /** The classes carrying `@Handler`. */
  datatype HandlerClass =
    | CancelClass | VisitPlanSpkClass | VisitPlanAccountOfficerClass | VisitPlanClass
    | MonitoringClass | CanvasingClass | InformationalClass | TagihanClass | UpTagihanClass

  /** The handlers the trigger table can hold: the beans implementing `dispatcher.MessageHandler`. */
  datatype CommandHandler = Cancel | Lkn | Rkh

  /**
   * A class as a `dispatcher.MessageHandler`. The visit commands, `Tagihan`,
   * `UpTagihan` and `VisitPlan` implement the look-alike interface
   * `dispatcher.Messagehandler` instead, so they are not one.
   */
  function AsMessageHandler(c: HandlerClass): (r: Option<CommandHandler>)
    ensures r.Some? <==> c == CancelClass || c == VisitPlanSpkClass || c == VisitPlanAccountOfficerClass
  {
    match c
    case CancelClass => Some(Cancel)
    case VisitPlanSpkClass => Some(Lkn)
    case VisitPlanAccountOfficerClass => Some(Rkh)
    case _ => None
  }

  /** A bean found by `getBeansWithAnnotation(Handler.class)`: its name, its trigger and its class. */
  datatype HandlerBean = HandlerBean(name: string, trigger: string, cls: HandlerClass)

  /** `init` puts a bean in the table only for a non-empty trigger and the right interface. */
  predicate Registers(b: HandlerBean) { b.trigger != [] && AsMessageHandler(b.cls).Some? }

  /**
   * The table after `init` visits the beans in order: a trigger is present
   * iff it was already or some registering bean names it, and its handler
   * is the old entry or that of a registering bean naming it.
   */
  function TriggerTable(table: map<string, CommandHandler>, beans: seq<HandlerBean>): (r: map<string, CommandHandler>)
    ensures forall k :: k in r <==> k in table || exists b :: b in beans && Registers(b) && b.trigger == k
    ensures forall k :: k in r ==>
              (k in table && r[k] == table[k])
              || exists b :: b in beans && Registers(b) && b.trigger == k && AsMessageHandler(b.cls) == Some(r[k])
  {
    if beans == [] then table
    else
      var init := beans[..|beans| - 1];
      var b := beans[|beans| - 1];
      assert beans == init + [b];
      var prefix := TriggerTable(table, init);
      if Registers(b) then prefix[b.trigger := AsMessageHandler(b.cls).value] else prefix
  }

  /** The application's beans, one per annotated class; two of them claim "rkh". */
  const Beans: seq<HandlerBean> := [
    HandlerBean("cancelHandler", "cancel", CancelClass),
    HandlerBean("visitPlanSPK", "lkn", VisitPlanSpkClass),
    HandlerBean("visitPlanAccountOfficer", "rkh", VisitPlanAccountOfficerClass),
    HandlerBean("visitPlan", "rkh", VisitPlanClass),
    HandlerBean("monitoringHandler", "moni", MonitoringClass),
    HandlerBean("canvasingHandler", "canvasing", CanvasingClass),
    HandlerBean("informationalHandler", "janji", InformationalClass),
    HandlerBean("tagihan", "tagihan", TagihanClass),
    HandlerBean("upTagihan", "up_tagihan", UpTagihanClass)
  ]

  /** The handler the application's table holds for a trigger. */
  function ApplicationHandler(trigger: string): (r: Option<CommandHandler>)
    ensures r.Some? <==> trigger == "cancel" || trigger == "lkn" || trigger == "rkh"
  {
    if trigger == "cancel" then Some(Cancel)
    else if trigger == "lkn" then Some(Lkn)
    else if trigger == "rkh" then Some(Rkh)
    else None
  }

  /** A registering application bean is one of the three. */
  lemma RegisteringBeans(b: HandlerBean)
    requires b in Beans && Registers(b)
    ensures ApplicationHandler(b.trigger).Some? && AsMessageHandler(b.cls) == ApplicationHandler(b.trigger)
  {
  }

  /** Each trigger of the table has a registering application bean. */
  lemma TriggersHaveBeans(k: string) returns (b: HandlerBean)
    requires ApplicationHandler(k).Some?
    ensures b in Beans && Registers(b) && b.trigger == k && AsMessageHandler(b.cls) == ApplicationHandler(k)
  {
    if k == "cancel" {
      b := Beans[0];
    } else if k == "lkn" {
      b := Beans[1];
    } else {
      b := Beans[2];
    }
  }

  /**
   * Whatever order the beans come in, the table holds exactly `cancel`,
   * `lkn` and `rkh`: the classes implementing the look-alike interface
   * never get in, and of the two "rkh" beans only `VisitPlanAccountOfficer`
   * counts.
   */
  lemma ApplicationTable(order: seq<HandlerBean>, k: string)
    requires multiset(order) == multiset(Beans)
    ensures k in TriggerTable(map[], order) <==> ApplicationHandler(k).Some?
    ensures k in TriggerTable(map[], order) ==> Some(TriggerTable(map[], order)[k]) == ApplicationHandler(k)
  {
    if k in TriggerTable(map[], order) {
      TableEntryFromBean(order, k);
    }
    if ApplicationHandler(k).Some? {
      var b := TriggersHaveBeans(k);
      assert b in multiset(order);
    }
  }

  /** An entry of the table comes from a registering application bean. */
  lemma TableEntryFromBean(order: seq<HandlerBean>, k: string)
    requires multiset(order) == multiset(Beans) && k in TriggerTable(map[], order)
    ensures Some(TriggerTable(map[], order)[k]) == ApplicationHandler(k)
  {
    var r := TriggerTable(map[], order);
    var b :| b in order && Registers(b) && b.trigger == k && AsMessageHandler(b.cls) == Some(r[k]);
    assert b in multiset(Beans);
    RegisteringBeans(b);
  }

  /** The commands of the visit-opening and bill-import handlers are never in the application's table. */
  lemma SessionCommandsUnregistered(order: seq<HandlerBean>)
    requires multiset(order) == multiset(Beans)
    ensures forall k :: k in TriggerTable(map[], order) ==> k == "cancel" || k == "lkn" || k == "rkh"
  {
    forall k | k in TriggerTable(map[], order) ensures k == "cancel" || k == "lkn" || k == "rkh" {
      ApplicationTable(order, k);
    }
  }

  /** Where `dispatch` sends a message. */
  datatype Route =
    | ToStateDispatcher
    | AlreadyProcessing
    | NotACommand
      /** The first word is shorter than the prefix (a prefix with a space in it), so `substring` throws. */
    | CommandTooShort
    | UnknownCommand(command: string)
    | Command(command: string, handler: CommandHandler)

  /** `split(" ", 2)[0].substring(prefix.length())`, or `None` where `substring` throws. */
  function CommandName(prefix: string, caption: string): (r: Option<string>)
    ensures r.Some? <==> |FirstField(caption, ' ')| >= |prefix|
    ensures r.Some? ==> r.value == FirstField(caption, ' ')[|prefix|..] && ' ' !in r.value
  {
    var first := FirstField(caption, ' ');
    if |first| < |prefix| then None else Some(first[|prefix|..])
  }

  /** The decision `dispatch` takes before running anything. */
  function RouteOf(prefix: string, config: map<string, CommandHandler>, processing: set<string>,
                   hasSession: bool, msg: WebhookData): (r: Route)
    ensures r == ToStateDispatcher <==> hasSession
    ensures r == AlreadyProcessing <==> !hasSession && msg.id in processing
    ensures r == NotACommand <==>
              !hasSession && msg.id !in processing && (Caption(msg).None? || !StartsWith(Caption(msg).value, prefix))
    ensures r.Command? || r.UnknownCommand? || r.CommandTooShort? ==>
              Caption(msg).Some? && StartsWith(Caption(msg).value, prefix)
    ensures r.Command? ==> r.command in config && config[r.command] == r.handler
    ensures r.UnknownCommand? ==> r.command !in config
  {
    if hasSession then ToStateDispatcher
    else if msg.id in processing then AlreadyProcessing
    else
      var caption := Caption(msg);
      if caption.None? || !StartsWith(caption.value, prefix) then NotACommand
      else
        match CommandName(prefix, caption.value)
        case None => CommandTooShort
        case Some(c) => if c in config then Command(c, config[c]) else UnknownCommand(c)
  }

  /**
   * `cancel` never ends a session: a sender who has one is routed to the
   * state engine, so whenever the cancel command does run, its sender has
   * no session and cancelling changes nothing.
   */
  lemma CancelNeverEndsSession(prefix: string, config: map<string, CommandHandler>, processing: set<string>,
                               s: Snapshot, msg: WebhookData)
    requires RouteOf(prefix, config, processing, msg.from in s.state, msg).Command?
    requires RouteOf(prefix, config, processing, msg.from in s.state, msg).handler == Cancel
    ensures msg.from !in s.state && Cancelled(s, msg.from) == s
  {
  }

  /** `split(" ", 2)[0]` of a word and what follows a space after it is the word. */
  lemma FirstFieldOfWord(w: string, rest: string)
    requires ' ' !in w
    ensures FirstField(w + " " + rest, ' ') == w
  {
    var s := w + " " + rest;
    assert s[|w|] == ' ';
    assert s[..|w|] == w;
  }

  /**
   * The command is the first word after the prefix: `<prefix><word> <rest>`
   * runs the handler of `word`, and a word the table lacks is unknown,
   * whatever the rest says.
   */
  lemma CommandIsFirstWord(prefix: string, config: map<string, CommandHandler>, processing: set<string>,
                           msg: WebhookData, word: string, rest: string)
    requires msg.id !in processing && ' ' !in prefix && ' ' !in word
    requires Caption(msg) == Some(prefix + word + " " + rest)
    ensures word in config ==> RouteOf(prefix, config, processing, false, msg) == Command(word, config[word])
    ensures word !in config ==> RouteOf(prefix, config, processing, false, msg) == UnknownCommand(word)
  {
    var caption := prefix + word + " " + rest;
    assert caption == (prefix + word) + " " + rest;
    FirstFieldOfWord(prefix + word, rest);
    assert (prefix + word)[|prefix|..] == word;
    assert caption[..|prefix|] == prefix;
  }

  /**
   * With the application's table, a command reaching a handler is one of
   * `cancel`, `lkn` and `rkh`; the visit commands, `tagihan` and
   * `up_tagihan` are answered by nothing.
   */
  lemma OnlyThreeCommandsRun(order: seq<HandlerBean>, prefix: string, processing: set<string>, msg: WebhookData)
    requires multiset(order) == multiset(Beans)
    ensures var r := RouteOf(prefix, TriggerTable(map[], order), processing, false, msg);
            r.Command? ==> r.command == "cancel" || r.command == "lkn" || r.command == "rkh"
  {
    var r := RouteOf(prefix, TriggerTable(map[], order), processing, false, msg);
    if r.Command? {
      ApplicationTable(order, r.command);
    }
  }

  /** `handle` throws synchronously: only `lkn` reads the body before building its pipeline. */
  predicate Throws(h: CommandHandler, msg: WebhookData) { h == Lkn && msg.body.None? }

  /** What a route leaves in flight: a marker stays only where `dispatch` throws before releasing it. */
  function InFlightAfter(route: Route, processing: set<string>, msg: WebhookData): (r: set<string>)
    ensures route.CommandTooShort? || (route.Command? && Throws(route.handler, msg)) ==> r == processing + {msg.id}
    ensures !(route.CommandTooShort? || (route.Command? && Throws(route.handler, msg))) ==> r == processing
  {
    if route.CommandTooShort? || (route.Command? && Throws(route.handler, msg)) then processing + {msg.id} else processing
  }

  /** A message whose id is not in flight leaves the set as it found it unless `dispatch` throws. */
  lemma MarkerReleased(prefix: string, config: map<string, CommandHandler>, processing: set<string>,
                       hasSession: bool, msg: WebhookData)
    requires var r := RouteOf(prefix, config, processing, hasSession, msg);
             !r.CommandTooShort? && !(r.Command? && Throws(r.handler, msg))
    ensures InFlightAfter(RouteOf(prefix, config, processing, hasSession, msg), processing, msg) == processing
  {
  }

  class WhatsAppMessageDispatcher {
    const messagePrefix: string
    var config: map<string, CommandHandler>
    var processing: set<string>
    const svc: StateService
    const stateDispatcher: StateDispatcher

    constructor (messagePrefix: string, svc: StateService, stateDispatcher: StateDispatcher)
      ensures this.messagePrefix == messagePrefix && this.svc == svc && this.stateDispatcher == stateDispatcher
      ensures config == map[] && processing == {}
    {
      this.messagePrefix := messagePrefix;
      this.svc := svc;
      this.stateDispatcher := stateDispatcher;
      config := map[];
      processing := {};
    }

    /** `init`: visit the annotated beans and register those that qualify. */
    method Init(beans: seq<HandlerBean>)
      modifies this
      ensures config == TriggerTable(old(config), beans) && processing == old(processing)
    {
      var i := 0;
      while i < |beans|
        invariant 0 <= i <= |beans|
        invariant config == TriggerTable(old(config), beans[..i]) && processing == old(processing)
      {
        assert beans[..i + 1][..i] == beans[..i];
        var b := beans[i];
        if b.trigger != [] {
          var h := AsMessageHandler(b.cls);
          if h.Some? {
            config := config[b.trigger := h.value];
          }
        }
        i := i + 1;
      }
      assert beans[..|beans|] == beans;
    }

    /** Run the handler of a matched command; `escaped` where its `handle` throws. */
    method RunCommand(h: CommandHandler, msg: WebhookData, today: Dates.Date) returns (escaped: bool)
      modifies svc, svc.outbox
      requires svc.Valid() && Dates.ValidDate(today) && 0 <= today.year <= 9999
      ensures svc.Valid() && escaped == Throws(h, msg)
      ensures svc.visits.saved == old(svc.visits.saved) && svc.users.users == old(svc.users.users)
      ensures h == Cancel ==> svc.Snap() == Cancelled(old(svc.Snap()), msg.from)
      ensures h == Lkn ==>
                svc.state == old(svc.state) && svc.events == old(svc.events)
                && svc.outbox.sent == old(svc.outbox.sent)
                   + (if escaped then [] else [LknReply(messagePrefix, svc.users.users, svc.visits.saved, msg).value])
      ensures h == Rkh ==>
                svc.state == old(svc.state) && svc.events == old(svc.events)
                && svc.outbox.sent == old(svc.outbox.sent) + [RkhReply(svc.visits.saved, today, msg)]
    {
      escaped := false;
      match h {
        case Cancel => HandleCancel(svc, msg);
        case Lkn => escaped := HandleLkn(svc.outbox, svc.users, svc.visits, messagePrefix, msg);
        case Rkh => HandleRkh(svc.outbox, svc.visits, today, msg);
      }
    }

    /**
     * `dispatch`. Handlers run to completion here; an error a handler's
     * pipeline signals is swallowed, while a throw out of `handle` itself
     * (or out of the command parsing) escapes, keeping the marker.
     */
    method Dispatch(msg: WebhookData, today: Dates.Date) returns (route: Route)
      modifies this, svc, svc.outbox, svc.visits, svc.users
      requires svc.Valid() && stateDispatcher.svc == svc
      requires Dates.ValidDate(today) && 0 <= today.year <= 9999
      ensures svc.Valid() && config == old(config)
      ensures route == RouteOf(messagePrefix, config, old(processing), msg.from in old(svc.state), msg)
      ensures processing == InFlightAfter(route, old(processing), msg)
      ensures route.ToStateDispatcher? ==>
                var ran := Routed(stateDispatcher.handlers, old(svc.state), msg);
                (ran.None? ==> svc.Snap() == old(svc.Snap()) && svc.users.users == old(svc.users.users))
                && (ran.Some? ==> Handled(ran.value, svc, msg, today))
      ensures route.Command? ==> svc.users.users == old(svc.users.users)
      ensures route.Command? && route.handler == Cancel ==> svc.Snap() == Cancelled(old(svc.Snap()), msg.from)
      ensures route.Command? && route.handler == Lkn ==>
                svc.state == old(svc.state) && svc.events == old(svc.events) && svc.visits.saved == old(svc.visits.saved)
                && svc.outbox.sent == old(svc.outbox.sent)
                   + (if msg.body.None? then [] else [LknReply(messagePrefix, svc.users.users, svc.visits.saved, msg).value])
      ensures route.Command? && route.handler == Rkh ==>
                svc.state == old(svc.state) && svc.events == old(svc.events) && svc.visits.saved == old(svc.visits.saved)
                && svc.outbox.sent == old(svc.outbox.sent) + [RkhReply(svc.visits.saved, today, msg)]
      ensures !route.ToStateDispatcher? && !route.Command? ==>
                svc.Snap() == old(svc.Snap()) && svc.users.users == old(svc.users.users)
    {
      var caption := Caption(msg);
      var userState := svc.GetUserState(msg.from);
      route := RouteOf(messagePrefix, config, processing, userState.Some?, msg);
      if userState.Some? {
        var _ := stateDispatcher.Handle(msg, today);
        return;
      }
      if msg.id in processing {
        return;
      }
      processing := processing + {msg.id};
      if caption.None? || !StartsWith(caption.value, messagePrefix) {
        processing := processing - {msg.id};
        return;
      }
      var command := CommandName(messagePrefix, caption.value);
      if command.None? {
        return;
      }
      if command.value !in config {
        processing := processing - {msg.id};
        return;
      }
      var escaped := RunCommand(config[command.value], msg, today);
      if escaped {
        return;
      }
      processing := processing - {msg.id};
    }
  }
}
