/** The rendezvous between the server and the application's lifespan task (LifespanOn in lifespan/on.py): two events
    that both sides set, in any order the event loop chooses. */
module Lifespan {

  datatype Message = StartupComplete | StartupFailed | ShutdownComplete | ShutdownFailed | OtherMessage

  datatype App = NotStarted | Running | Ended

  /** Where the server is: `Starting` and `Stopping` are the waits in `startup` and `shutdown`. */
  datatype Server = Idle | Starting | Started | Stopping | Stopped

  datatype Event = StartupEvent | ShutdownEvent

  /** `accepted` is the history of the application's messages that did not fail an assertion. */
  datatype State = State(
    startupSet: bool, shutdownSet: bool, startupFailed: bool, shutdownFailed: bool, errorOccurred: bool,
    shouldExit: bool, queue: seq<Event>, app: App, server: Server, accepted: seq<Message>)

  const FRESH := State(false, false, false, false, false, false, [], NotStarted, Idle, [])

  datatype Step =
    | Startup             // `startup`, up to its wait
    | StartupReturns      // and after it
    | Shutdown            // `shutdown`, up to its wait, if it waits
    | ShutdownReturns
    | AppSends(m: Message)
    | AppReceives
    | AppEnds(raises: bool)

  predicate Enabled(s: State, e: Step) {
    match e
    case Startup => s.server == Idle
    case StartupReturns => s.server == Starting && s.startupSet
    case Shutdown => s.server == Started
    case ShutdownReturns => s.server == Stopping && s.shutdownSet
    case AppSends(_) => s.app == Running
    case AppReceives => s.app == Running && s.queue != []
    case AppEnds(_) => s.app == Running
  }

  /** The assertions of `send`. */
  predicate Accepts(s: State, m: Message) {
    match m
    case StartupComplete => !s.startupSet && !s.shutdownSet
    case StartupFailed => !s.startupSet && !s.shutdownSet
    case ShutdownComplete => s.startupSet && !s.shutdownSet
    case ShutdownFailed => s.startupSet && !s.shutdownSet
    case OtherMessage => false
  }

  function Send(s: State, m: Message): State {
    if !Accepts(s, m) then s
    else
      var t := s.(accepted := s.accepted + [m]);
      match m
      case StartupComplete => t.(startupSet := true)
      case StartupFailed => t.(startupSet := true, startupFailed := true)
      case ShutdownComplete => t.(shutdownSet := true)
      case ShutdownFailed => t.(shutdownSet := true, shutdownFailed := true)
      case OtherMessage => t
  }

  /** `on`: the `lifespan` setting is "on", not "auto". */
  function Do(on: bool, s: State, e: Step): State
    requires Enabled(s, e)
  {
    match e
    case Startup => s.(server := Starting, app := Running, queue := s.queue + [StartupEvent])
    case StartupReturns =>
      s.(server := Started, shouldExit := s.shouldExit || s.startupFailed || (s.errorOccurred && on))
    case Shutdown =>
      if s.errorOccurred then s.(server := Stopped)
      else s.(server := Stopping, queue := s.queue + [ShutdownEvent])
    case ShutdownReturns =>
      s.(server := Stopped, shouldExit := s.shouldExit || s.shutdownFailed || (s.errorOccurred && on))
    case AppSends(m) => Send(s, m)
    case AppReceives => s.(queue := s.queue[1..])
    case AppEnds(raises) =>
      s.(app := Ended, errorOccurred := s.errorOccurred || raises, startupSet := true, shutdownSet := true)
  }

  ghost predicate Runs(on: bool, s: State, es: seq<Step>)
    decreases |es|
  {
    es == [] || (Enabled(s, es[0]) && Runs(on, Do(on, s, es[0]), es[1..]))
  }

  ghost function Run(on: bool, s: State, es: seq<Step>): State
    requires Runs(on, s, es)
    decreases |es|
  {
    if es == [] then s else Run(on, Do(on, s, es[0]), es[1..])
  }

  predicate IsStartup(m: Message) { m.StartupComplete? || m.StartupFailed? }

  predicate IsShutdown(m: Message) { m.ShutdownComplete? || m.ShutdownFailed? }

  predicate Inv(s: State) {
    && (s.app == Ended ==> s.startupSet && s.shutdownSet)
    && (s.app == NotStarted <==> s.server == Idle)
    && (s.app == NotStarted ==> !s.startupSet && !s.shutdownSet && !s.errorOccurred && s.accepted == [])
    && (s.app == Running ==>
          && !s.errorOccurred
          && (s.startupSet <==> s.accepted != []) && (s.shutdownSet <==> |s.accepted| == 2)
          && (s.server == Started || s.server == Stopping || s.server == Stopped ==> s.startupSet))
    && |s.accepted| <= 2
    && (|s.accepted| >= 1 ==> IsStartup(s.accepted[0]))
    && (|s.accepted| == 2 ==> IsShutdown(s.accepted[1]))
    && (s.startupFailed <==> |s.accepted| >= 1 && s.accepted[0].StartupFailed?)
    && (s.shutdownFailed <==> |s.accepted| == 2 && s.accepted[1].ShutdownFailed?)
    && (s.server == Started || s.server == Stopping || s.server == Stopped ==> s.startupFailed ==> s.shouldExit)
  }

  lemma {:induction false} RunKeepsInv(on: bool, s: State, es: seq<Step>)
    requires Inv(s) && Runs(on, s, es)
    ensures Inv(Run(on, s, es))
    decreases |es|
  {
    if es != [] {
      StepKeepsInv(on, s, es[0]);
      hide Inv, Do, Enabled;
      RunKeepsInv(on, Do(on, s, es[0]), es[1..]);
    }
  }

  lemma StepKeepsInv(on: bool, s: State, e: Step)
    requires Inv(s) && Enabled(s, e)
    ensures Inv(Do(on, s, e))
  {
    if e.AppSends? { SendOk(s, e.m); }
    hide Send;
  }

  lemma SendOk(s: State, m: Message)
    requires Inv(s) && s.app == Running
    ensures Inv(Send(s, m))
  {
  }

  /** `startup` and `shutdown` are blocked only while the application's task still runs: once it has ended, however
      it ended, either returns; and while it runs, each returns exactly when the outcome it waits for has come. */
  lemma NeverBlockedByAnEndedApp(on: bool, es: seq<Step>)
    requires Runs(on, FRESH, es)
    ensures var s := Run(on, FRESH, es);
            && (s.server == Starting && !Enabled(s, StartupReturns) ==> s.app == Running)
            && (s.server == Stopping && !Enabled(s, ShutdownReturns) ==> s.app == Running)
            && (s.server == Starting && s.app == Running ==> (Enabled(s, StartupReturns) <==> s.accepted != []))
            && (s.server == Stopping && s.app == Running ==> (Enabled(s, ShutdownReturns) <==> |s.accepted| == 2))
  {
    RunKeepsInv(on, FRESH, es);
  }

  /** Whatever the application sends, at most one startup outcome is accepted, then at most one shutdown outcome; a
      startup it reports as failed makes the server exit once `startup` has returned. */
  lemma OutcomesInOrder(on: bool, es: seq<Step>)
    requires Runs(on, FRESH, es)
    ensures var s := Run(on, FRESH, es);
            && |s.accepted| <= 2
            && (|s.accepted| >= 1 ==> IsStartup(s.accepted[0]))
            && (|s.accepted| == 2 ==> IsShutdown(s.accepted[1]))
            && (StartupFailed in s.accepted && s.server != Starting ==> s.shouldExit)
  {
    RunKeepsInv(on, FRESH, es);
  }

  // ---------- what the server does, from what happened alone ----------

  /** The outcomes among the messages sent: the first startup outcome, and the first shutdown outcome after it. */
  function Heard(es: seq<Step>): seq<Message> {
    if es == [] then []
    else
      var heard, e := Heard(es[..|es| - 1]), es[|es| - 1];
      if e.AppSends? && ((IsStartup(e.m) && heard == []) || (IsShutdown(e.m) && |heard| == 1)) then heard + [e.m]
      else heard
  }

  /** The application has raised. */
  predicate Raised(es: seq<Step>) { AppEnds(true) in es }

  /** The events sent to the application: one for startup, and one for shutdown unless it has raised before. */
  function Posted(es: seq<Step>): seq<Event> {
    if es == [] then []
    else
      var front, e := es[..|es| - 1], es[|es| - 1];
      Posted(front) + (if e.Startup? then [StartupEvent] else if e.Shutdown? && !Raised(front) then [ShutdownEvent]
                       else [])
  }

  function Receives(es: seq<Step>): nat {
    if es == [] then 0 else Receives(es[..|es| - 1]) + if es[|es| - 1].AppReceives? then 1 else 0
  }

  /** At step `i` a wait returns after a reported failure, or after the application raised when `lifespan` is "on". */
  predicate ReturnsToExit(on: bool, es: seq<Step>, i: nat)
    requires i < |es|
  {
    || (es[i].StartupReturns? && (StartupFailed in Heard(es[..i]) || (on && Raised(es[..i]))))
    || (es[i].ShutdownReturns? && (ShutdownFailed in Heard(es[..i]) || (on && Raised(es[..i]))))
  }

  predicate Exits(on: bool, es: seq<Step>) { exists i :: 0 <= i < |es| && ReturnsToExit(on, es, i) }

  lemma {:induction false} RunSnoc(on: bool, s: State, es: seq<Step>, e: Step)
    requires Runs(on, s, es + [e])
    ensures Runs(on, s, es) && Enabled(Run(on, s, es), e) && Run(on, s, es + [e]) == Do(on, Run(on, s, es), e)
    decreases |es|
  {
    hide Do, Enabled;
    if es == [] {
      assert ([] + [e])[0] == e && ([] + [e])[1..] == [];
    } else {
      assert (es + [e])[0] == es[0] && (es + [e])[1..] == es[1..] + [e];
      RunSnoc(on, Do(on, s, es[0]), es[1..], e);
    }
  }

  lemma ExitsOne(on: bool, es: seq<Step>, e: Step)
    ensures Exits(on, es + [e]) <==> Exits(on, es) || ReturnsToExit(on, es + [e], |es|)
    ensures Raised(es + [e]) <==> Raised(es) || e == AppEnds(true)
  {
    hide Heard, Raised;
    var all := es + [e];
    forall i | 0 <= i < |es| ensures ReturnsToExit(on, all, i) <==> ReturnsToExit(on, es, i) {
      assert all[..i] == es[..i] && all[i] == es[i];
    }
    if Exits(on, es) {
      var i :| 0 <= i < |es| && ReturnsToExit(on, es, i);
      assert ReturnsToExit(on, all, i);
    }
    assert Raised(all) <==> Raised(es) || e == AppEnds(true) by { RaisedOne(es, e); }
  }

  lemma RaisedOne(es: seq<Step>, e: Step)
    ensures Raised(es + [e]) <==> Raised(es) || e == AppEnds(true)
  {
  }

  /** The flags are what the steps so far say. */
  predicate Agrees(on: bool, s: State, es: seq<Step>) {
    && s.accepted == Heard(es)
    && (s.startupFailed <==> StartupFailed in Heard(es)) && (s.shutdownFailed <==> ShutdownFailed in Heard(es))
    && (s.errorOccurred <==> Raised(es))
    && (s.shouldExit <==> Exits(on, es))
    && Receives(es) <= |Posted(es)| && s.queue == Posted(es)[Receives(es)..]
  }

  lemma AgreesOne(on: bool, s: State, es: seq<Step>, e: Step)
    requires Inv(s) && Agrees(on, s, es) && Enabled(s, e)
    ensures Agrees(on, Do(on, s, e), es + [e])
  {
    hide Exits;
    var all := es + [e];
    assert all[..|es|] == es && all[|es|] == e;
    ExitsOne(on, es, e);
    hide Raised;
    StepKeepsInv(on, s, e);
    FailuresHeard(s);
    FailuresHeard(Do(on, s, e));
    if e.AppSends? { SendHears(s, e.m); } else if e.Startup? || e.Shutdown? {} else {}
  }

  lemma FailuresHeard(s: State)
    requires Inv(s)
    ensures s.startupFailed <==> StartupFailed in s.accepted
    ensures s.shutdownFailed <==> ShutdownFailed in s.accepted
  {
  }

  lemma SendHears(s: State, m: Message)
    requires Inv(s) && s.app == Running
    ensures var t := Send(s, m);
            && t.accepted == (if (IsStartup(m) && s.accepted == []) || (IsShutdown(m) && |s.accepted| == 1)
                              then s.accepted + [m] else s.accepted)
            && t.errorOccurred == s.errorOccurred && t.shouldExit == s.shouldExit && t.queue == s.queue
  {
  }

  lemma {:induction false} RunAgrees(on: bool, es: seq<Step>)
    requires Runs(on, FRESH, es)
    ensures Agrees(on, Run(on, FRESH, es), es)
    decreases |es|
  {
    hide Inv, Do, Enabled, Agrees;
    if es == [] {
      assert Agrees(on, FRESH, []) by { NothingYet(on); }
    } else {
      var front, e := es[..|es| - 1], es[|es| - 1];
      assert front + [e] == es;
      RunSnoc(on, FRESH, front, e);
      RunAgrees(on, front);
      assert Inv(FRESH) by { FreshInv(); }
      RunKeepsInv(on, FRESH, front);
      AgreesOne(on, Run(on, FRESH, front), front, e);
    }
  }

  lemma NothingYet(on: bool)
    ensures Agrees(on, FRESH, [])
  {
  }

  lemma FreshInv()
    ensures Inv(FRESH)
  {
  }

  /** The server is made to exit if and only if a wait of `startup` or `shutdown` returned after the failure it waits
      for was reported, or after the application raised when `lifespan` is "on". */
  lemma ExitsExactly(on: bool, es: seq<Step>)
    requires Runs(on, FRESH, es)
    ensures Run(on, FRESH, es).shouldExit <==> Exits(on, es)
    ensures Run(on, FRESH, es).accepted == Heard(es)
  {
    hide Runs, Run, Exits, Heard;
    RunAgrees(on, es);
  }

  /** The application is sent one startup event, then one shutdown event unless it has raised, each once. */
  lemma EventsDelivered(on: bool, es: seq<Step>)
    requires Runs(on, FRESH, es)
    ensures Receives(es) <= |Posted(es)| && Run(on, FRESH, es).queue == Posted(es)[Receives(es)..]
    ensures Posted(es) <= [StartupEvent, ShutdownEvent]
  {
    hide Exits, Heard;
    RunAgrees(on, es);
    PostedInOrder(on, es);
  }

  predicate PostedAt(server: Server, posted: seq<Event>) {
    match server
    case Idle => posted == []
    case Starting => posted == [StartupEvent]
    case Started => posted == [StartupEvent]
    case Stopping => posted == [StartupEvent, ShutdownEvent]
    case Stopped => posted == [StartupEvent] || posted == [StartupEvent, ShutdownEvent]
  }

  lemma PostedOne(on: bool, s: State, e: Step, posted: seq<Event>)
    requires PostedAt(s.server, posted) && Enabled(s, e)
    ensures PostedAt(Do(on, s, e).server, posted + if e.Startup? then [StartupEvent]
                                                   else if e.Shutdown? && !s.errorOccurred then [ShutdownEvent] else [])
  {
    hide Send;
    if e.AppSends? { ServerKept(s, e.m); }
    assert posted + [] == posted;
  }

  lemma ServerKept(s: State, m: Message)
    ensures Send(s, m).server == s.server
  {
  }

  lemma {:induction false} PostedInOrder(on: bool, es: seq<Step>)
    requires Runs(on, FRESH, es)
    ensures PostedAt(Run(on, FRESH, es).server, Posted(es))
    decreases |es|
  {
    if es != [] {
      var front, e := es[..|es| - 1], es[|es| - 1];
      assert front + [e] == es;
      hide Runs, Run, Raised, Do, Enabled, PostedAt, Exits, Heard, Receives;
      RunSnoc(on, FRESH, front, e);
      RunAgrees(on, front);
      PostedInOrder(on, front);
      PostedOne(on, Run(on, FRESH, front), e, Posted(front));
    }
  }

  // ---------- the LifespanOn object ----------

  class LifespanOn {
    const on: bool
    var startupEvent: bool
    var shutdownEvent: bool
    var receiveQueue: seq<Event>
    var errorOccurred: bool
    var startupFailed: bool
    var shutdownFailed: bool
    var shouldExit: bool
    ghost var abs: State

    ghost predicate Valid()
      reads this
    {
      && abs.startupSet == startupEvent && abs.shutdownSet == shutdownEvent && abs.queue == receiveQueue
      && abs.errorOccurred == errorOccurred && abs.startupFailed == startupFailed
      && abs.shutdownFailed == shutdownFailed && abs.shouldExit == shouldExit
    }

    constructor (on: bool)
      ensures Valid() && abs == FRESH && this.on == on
    {
      this.on := on;
      startupEvent, shutdownEvent, receiveQueue, errorOccurred := false, false, [], false;
      startupFailed, shutdownFailed, shouldExit := false, false, false;
      abs := FRESH;
    }

    /** `startup`, up to its wait. */
    method Startup()
      requires Valid() && Enabled(abs, Step.Startup)
      modifies this
      ensures Valid() && abs == Do(on, old(abs), Step.Startup)
    {
      receiveQueue := receiveQueue + [StartupEvent];
      abs := Do(on, abs, Step.Startup);
    }

    method StartupReturns()
      requires Valid() && Enabled(abs, Step.StartupReturns)
      modifies this
      ensures Valid() && abs == Do(on, old(abs), Step.StartupReturns)
    {
      if startupFailed || (errorOccurred && on) { shouldExit := true; }
      abs := Do(on, abs, Step.StartupReturns);
    }

    /** `shutdown`, up to its wait; `waits` says that it gets there. */
    method Shutdown() returns (waits: bool)
      requires Valid() && Enabled(abs, Step.Shutdown)
      modifies this
      ensures Valid() && abs == Do(on, old(abs), Step.Shutdown) && waits == (abs.server == Stopping)
    {
      ghost var next := Do(on, abs, Step.Shutdown);
      waits := !errorOccurred;
      if waits { receiveQueue := receiveQueue + [ShutdownEvent]; }
      abs := next;
    }

    method ShutdownReturns()
      requires Valid() && Enabled(abs, Step.ShutdownReturns)
      modifies this
      ensures Valid() && abs == Do(on, old(abs), Step.ShutdownReturns)
    {
      if shutdownFailed || (errorOccurred && on) { shouldExit := true; }
      abs := Do(on, abs, Step.ShutdownReturns);
    }

    /** The end of `main`: the `except` and the `finally`. */
    method AppEnds(raises: bool)
      requires Valid() && Enabled(abs, Step.AppEnds(raises))
      modifies this
      ensures Valid() && abs == Do(on, old(abs), Step.AppEnds(raises))
    {
      if raises { errorOccurred := true; }
      startupEvent := true;
      shutdownEvent := true;
      abs := Do(on, abs, Step.AppEnds(raises));
    }

    /** `send`; `fails` says that one of its assertions does. */
    method Send(m: Message) returns (fails: bool)
      requires Valid() && Enabled(abs, AppSends(m))
      modifies this
      ensures Valid() && abs == Do(on, old(abs), AppSends(m)) && fails == !Accepts(old(abs), m)
    {
      fails := true;
      match m {
        case StartupComplete =>
          if startupEvent || shutdownEvent { return; }
          startupEvent := true;
        case StartupFailed =>
          if startupEvent || shutdownEvent { return; }
          startupEvent := true;
          startupFailed := true;
        case ShutdownComplete =>
          if !startupEvent || shutdownEvent { return; }
          shutdownEvent := true;
        case ShutdownFailed =>
          if !startupEvent || shutdownEvent { return; }
          shutdownEvent := true;
          shutdownFailed := true;
        case OtherMessage => return;
      }
      fails := false;
      abs := Do(on, abs, AppSends(m));
    }

    method Receive() returns (e: Event)
      requires Valid() && Enabled(abs, AppReceives)
      modifies this
      ensures Valid() && abs == Do(on, old(abs), AppReceives) && e == old(receiveQueue)[0]
    {
      e := receiveQueue[0];
      receiveQueue := receiveQueue[1..];
      abs := Do(on, abs, AppReceives);
    }
  }
}
