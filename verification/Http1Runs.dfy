/** Whole runs of an HTTP/1.1 connection: any sequence of parser callbacks, application steps,
    timer, shutdown and connection loss, in any order that the environment allows. */
module Http1Runs {
  import opened Text
  import opened Http1Wire
  import opened Http1Spec
  import opened Http1Pipeline
  import Flow

  // ---------- parser callbacks ----------

  lemma NewCycleOk(defaults: seq<Field>, isHead: bool, keepAlive: bool, expect100: bool)
    ensures var c := NewCycle(defaults, isHead, keepAlive, expect100);
            CycleOk(c, true) && Untouched(c)
  {
  }

  /** A request that ends in the parser, or gets more data, and is otherwise as before. */
  lemma DeliverOk(c: Cycle, data: Bytes)
    requires CycleOk(c, true)
    ensures var d := c.(delivered := c.delivered + data);
            var r := if c.complete then d else d.(body := c.body + data, eventSet := true);
            CycleOk(r, true) && (Untouched(c) ==> Untouched(r))
  {
    var d := c.(delivered := c.delivered + data);
    SameResponse(c, d);
    SameResponse(c, d.(body := c.body + data, eventSet := true));
    hide ResponseOk;
    Assoc(c.returned, c.body, data);
  }

  lemma FinishOk(c: Cycle)
    requires CycleOk(c, true)
    ensures CycleOk(if c.complete then c else c.(moreBody := false, eventSet := true), false)
  {
    SameResponse(c, c.(moreBody := false, eventSet := true));
    hide ResponseOk;
  }

  lemma KeepsHeaders(s: Conn, c: Cycle)
    requires Inv(s) && !s.parsing && !s.closing && s.timer == NoTimer
    requires Untouched(c) && CycleOk(c, true) && !c.complete
    ensures Inv(OnHeadersComplete(s, c))
  {
    hide CycleOk;
    var n := |s.cycles|;
    var s1 := s.(cycles := s.cycles + [c], parsing := true);
    assert s1.cycles[..n] == s.cycles;
    assert Wires(s1.cycles) == Wires(s.cycles) + "";
    Assoc(s.wire, "", "");
    hide Wires;
    if n == 0 || s.cycles[n - 1].complete {
      assert s.pipeline == [];
      LaunchNext(s1, n);
    } else {
      Flow.StillMirrors(s.flow);
      hide Flow.Mirrors;
    }
  }

  lemma LatestOk(s: Conn)
    requires Inv(s) && s.parsing
    ensures s.cycles != [] && CycleOk(s.cycles[|s.cycles| - 1], true) && Flow.Mirrors(s.flow)
  {
  }

  lemma KeepsBody(s: Conn, data: Bytes)
    requires Inv(s) && s.parsing
    ensures Inv(OnBody(s, data))
  {
    hide Inv, CycleOk, Untouched;
    LatestOk(s);
    var n := |s.cycles| - 1;
    var c := s.cycles[n];
    DeliverOk(c, data);
    var d := c.(delivered := c.delivered + data);
    Flow.StillMirrors(s.flow);
    if c.complete {
      UpdateLast(s, d);
    } else {
      d := d.(body := c.body + data, eventSet := true);
      UpdateLast(s, d);
      WithFlow(s.(cycles := s.cycles[n := d]), OnBody(s, data).flow);
    }
  }

  lemma KeepsMessageComplete(s: Conn)
    requires Inv(s) && s.parsing
    ensures Inv(OnMessageComplete(s))
  {
    var n := |s.cycles| - 1;
    var c := s.cycles[n];
    FinishOk(c);
    hide CycleOk, Wires;
    var d := if c.complete then c else c.(moreBody := false, eventSet := true);
    FinishedAll(s, d);
    assert s.cycles[n := c] == s.cycles;
  }

  /** The parser leaves the latest request: only that cycle notices. */
  lemma FinishedAll(s: Conn, d: Cycle)
    requires Inv(s) && s.parsing
    requires var c := s.cycles[|s.cycles| - 1];
             CycleOk(d, false) && d == c.(moreBody := d.moreBody, eventSet := d.eventSet)
    ensures Inv(s.(cycles := s.cycles[|s.cycles| - 1 := d], parsing := false))
  {
    hide CycleOk, Wires;
    Assoc(d.wire, "", "");
    Assoc(s.wire, "", "");
    WiresUpdate(s.cycles, |s.cycles| - 1, d, "");
  }

  lemma {:induction false} KeepsFeed(s: Conn, cbs: seq<Callback>)
    requires Inv(s) && InOrder(s.parsing, cbs) && !s.closing && s.timer == NoTimer
    ensures Inv(Feed(s, cbs))
    decreases |cbs|
  {
    if cbs != [] {
      hide Inv, OnBody, OnMessageComplete;
      match cbs[0] {
        case HeadersComplete(isHead, keepAlive, expect100, defaults) =>
          NewCycleOk(defaults, isHead, keepAlive, expect100);
          KeepsHeaders(s, NewCycle(defaults, isHead, keepAlive, expect100));
        case Body(data) => KeepsBody(s, data);
        case MessageComplete => KeepsMessageComplete(s);
      }
      CallbackFrame(s, cbs[0]);
      KeepsFeed(OnCallback(s, cbs[0]), cbs[1..]);
    }
  }

  lemma CallbackFrame(s: Conn, cb: Callback)
    requires cb.HeadersComplete? || s.cycles != []
    requires cb.HeadersComplete? == !s.parsing
    ensures var t := OnCallback(s, cb);
            && t.closing == s.closing && t.timer == s.timer && t.parsing == !cb.MessageComplete?
            && t.cycles != [] && t.shutdownAt == s.shutdownAt && |t.cycles| >= |s.cycles|
  {
  }

  // ---------- steps and runs ----------

  lemma StepKeepsInv(s: Conn, e: Event)
    requires Inv(s) && Shape(s) && Enabled(s, e)
    ensures Inv(Step(s, e))
  {
    match e {
      case DataReceived(cbs) =>
        NoTimerKeeps(s);
        KeepsFeed(s.(timer := NoTimer), cbs);
      case ReceiveBegins(i) => KeepsReceiveBegin(s, i);
      case ReceiveEnds(i) => KeepsReceiveEnd(s, i);
      case AppSends(i, m) =>
        KeepsSend(s, i, m);
        KeepsAfterSend(s, i, Send(s.cycles[i], m));
      case AppEnded(i, how) => KeepsAppEnds(s, i, how);
      case Sends500(i) => KeepsSends500(s, i);
      case Ends500(i) =>
        KeepsSend(s, i, BODY_500);
        KeepsAfterSend(s, i, Send(s.cycles[i], BODY_500));
        KeepsEnd(AfterSend(s, i, Send(s.cycles[i], BODY_500)), i);
      case TimerFires => FiredKeeps(s);
      case Shutdown => KeepsShutdown(s);
      case ConnectionLost(clean) => KeepsLose(s, clean);
    }
  }

  lemma NoTimerKeeps(s: Conn)
    requires Inv(s)
    ensures Inv(s.(timer := NoTimer))
  {
    hide CycleOk, Wires, Flow.Mirrors, Untouched;
  }

  lemma FiredKeeps(s: Conn)
    requires Inv(s)
    ensures Inv(s.(timer := Fired, closing := true))
  {
    hide CycleOk, Wires, Flow.Mirrors, Untouched;
  }

  /** Steps keep the bookkeeping that makes the next one well defined. */
  lemma StepKeepsShape(s: Conn, e: Event)
    requires Shape(s) && Enabled(s, e)
    ensures Shape(Step(s, e))
  {
    hide Send, SendStart, SendBody, InOrder, CycleOk;
    match e {
      case DataReceived(cbs) => FeedKeepsShape(s.(timer := NoTimer), cbs);
      case AppSends(i, m) => AfterSendShape(s, i, Send(s.cycles[i], m));
      case Sends500(i) =>
        var r := Send(s.cycles[i], START_500);
        AfterSendShape(s, i, r);
        AfterSendShape(s, i, r.(cycle := r.cycle.(phase := Finishing500)));
      case Ends500(i) => AfterSendShape(s, i, Send(s.cycles[i], BODY_500));
      case _ =>
    }
  }

  lemma AfterSendShape(s: Conn, i: nat, r: Sent)
    requires Shape(s) && i < |s.cycles|
    ensures Shape(AfterSend(s, i, r)) && |AfterSend(s, i, r).cycles| == |s.cycles|
  {
  }

  lemma {:induction false} FeedKeepsShape(s: Conn, cbs: seq<Callback>)
    requires Shape(s) && InOrder(s.parsing, cbs)
    ensures Shape(Feed(s, cbs))
    decreases |cbs|
  {
    if cbs != [] {
      assert Shape(OnCallback(s, cbs[0])) by { hide NewCycle; }
      CallbackFrame(s, cbs[0]);
      hide OnCallback;
      FeedKeepsShape(OnCallback(s, cbs[0]), cbs[1..]);
    }
  }

  ghost predicate Runs(s: Conn, es: seq<Event>)
    requires Shape(s)
    decreases |es|
  {
    es == [] || (Enabled(s, es[0]) && (StepKeepsShape(s, es[0]); Runs(Step(s, es[0]), es[1..])))
  }

  ghost function Run(s: Conn, es: seq<Event>): (t: Conn)
    requires Shape(s) && Runs(s, es)
    ensures Shape(t)
    decreases |es|
  {
    if es == [] then s else (StepKeepsShape(s, es[0]); Run(Step(s, es[0]), es[1..]))
  }

  lemma {:induction false} RunKeepsInv(s: Conn, es: seq<Event>)
    requires Shape(s) && Inv(s) && Runs(s, es)
    ensures Inv(Run(s, es))
    decreases |es|
  {
    if es != [] {
      hide Inv, Step;
      StepKeepsInv(s, es[0]);
      RunKeepsInv(Step(s, es[0]), es[1..]);
    }
  }

  lemma FreshInv()
    ensures Inv(FRESH)
  {
  }

  // ---------- what holds after every run ----------

  /** Requests are started in order and only the last one started can be without a complete response;
      the bytes on the wire are each cycle's own bytes, cycle after cycle, and waiting cycles have none;
      an armed keep-alive timer means that nothing is waiting and the latest response is complete. */
  lemma OneResponseAtATime(es: seq<Event>)
    requires Runs(FRESH, es)
    ensures var s := Run(FRESH, es); var n := |s.launched|;
            && (forall a :: 0 <= a < n ==> s.launched[a] == a)
            && n + |s.pipeline| == |s.cycles|
            && (forall a :: 0 <= a < n - 1 ==> s.cycles[a].complete)
            && (forall k :: n <= k < |s.cycles| ==> s.cycles[k].wire == "" && k in s.pipeline)
            && s.wire == Wires(s.cycles)
            && (s.timer == Armed ==> s.pipeline == [] && n > 0 && s.cycles[n - 1].complete)
  {
    FreshInv();
    RunKeepsInv(FRESH, es);
    hide CycleOk, Wires;
    var s := Run(FRESH, es);
    forall k | |s.launched| <= k < |s.cycles| ensures k in s.pipeline {
      assert s.pipeline[|s.cycles| - 1 - k] == k;
    }
  }

  lemma StepKeepsShutdownAt(s: Conn, e: Event)
    requires Inv(s) && Shape(s) && Enabled(s, e) && s.shutdownAt.Some?
    ensures Step(s, e).shutdownAt == s.shutdownAt
  {
    hide Send, Inv, Feed, InOrder, AfterSend, Flow.Resume;
    match e {
      case DataReceived(cbs) => FeedKeepsShutdownAt(s.(timer := NoTimer), cbs);
      case AppSends(i, m) => SendKeepsShutdownAt(s, i, Send(s.cycles[i], m));
      case Sends500(i) =>
        var r := Send(s.cycles[i], START_500);
        AfterSendShape(s, i, r);
        SendKeepsShutdownAt(s, i, r);
        SendKeepsShutdownAt(s, i, r.(cycle := r.cycle.(phase := Finishing500)));
      case Ends500(i) =>
        AfterSendShape(s, i, Send(s.cycles[i], BODY_500));
        SendKeepsShutdownAt(s, i, Send(s.cycles[i], BODY_500));
      case _ =>
    }
  }

  lemma SendKeepsShutdownAt(s: Conn, i: nat, r: Sent)
    requires Shape(s) && i < |s.cycles|
    ensures AfterSend(s, i, r).shutdownAt == s.shutdownAt
  {
  }

  lemma {:induction false} FeedKeepsShutdownAt(s: Conn, cbs: seq<Callback>)
    requires InOrder(s.parsing, cbs) && (s.parsing ==> s.cycles != [])
    ensures Feed(s, cbs).shutdownAt == s.shutdownAt
    decreases |cbs|
  {
    if cbs != [] {
      CallbackFrame(s, cbs[0]);
      hide OnCallback;
      FeedKeepsShutdownAt(OnCallback(s, cbs[0]), cbs[1..]);
    }
  }

  lemma {:induction false} RunKeepsShutdownAt(s: Conn, es: seq<Event>)
    requires Shape(s) && Inv(s) && Runs(s, es) && s.shutdownAt.Some?
    ensures Run(s, es).shutdownAt == s.shutdownAt
    decreases |es|
  {
    if es != [] {
      hide Inv, Step;
      StepKeepsInv(s, es[0]);
      StepKeepsShutdownAt(s, es[0]);
      RunKeepsShutdownAt(Step(s, es[0]), es[1..]);
    }
  }

  /** After `shutdown()`, whatever still happens, the cycle that was latest is the last one ever started. */
  lemma ShutdownStartsNoMore(es: seq<Event>, later: seq<Event>, k: nat)
    requires Runs(FRESH, es) && Runs(DoShutdown(Run(FRESH, es)), later)
    requires k in Run(DoShutdown(Run(FRESH, es)), later).launched
    ensures k < |Run(FRESH, es).cycles|
  {
    var s := Run(FRESH, es);
    FreshInv();
    RunKeepsInv(FRESH, es);
    KeepsShutdown(s);
    RunKeepsShutdownAt(DoShutdown(s), later);
    RunKeepsInv(DoShutdown(s), later);
    hide CycleOk, Wires;
    var t := Run(DoShutdown(s), later);
    assert t.launched == seq(Started(t), i => i);
  }

  /** While a response is incomplete, nothing that the parser delivered for its request is lost or repeated;
      undelivered bytes keep the application's wake-up event set while it is connected; "no more body" is
      said at most once, with the last byte, when the parser has left the request. */
  lemma RequestBodyConserved(es: seq<Event>, k: nat)
    requires Runs(FRESH, es) && k < |Run(FRESH, es).cycles|
    ensures var s := Run(FRESH, es); var c := s.cycles[k];
            && (!c.complete ==> c.delivered == c.returned + c.body)
            && (!c.complete && !c.disconnected && (c.body != "" || (!c.moreBody && c.finals == 0)) ==> c.eventSet)
            && c.finals <= 1
            && (c.finals == 1 ==> c.returned == c.delivered && !(s.parsing && k == |s.cycles| - 1))
  {
    FreshInv();
    RunKeepsInv(FRESH, es);
    hide ResponseOk, Wires;
  }

  /** The bytes of a response are its interim response, its head and its payload, or its payload alone if its start
      message was refused; under a declared length what has been written and what remains add up to it, even when the
      application has caught the length errors, and a complete response has written exactly that much. */
  lemma LengthAccounted(es: seq<Event>, k: nat)
    requires Runs(FRESH, es) && k < |Run(FRESH, es).cycles|
    ensures var c := Run(FRESH, es).cycles[k];
            match c.accepted
            case None => c.wire == Interim(c) + (if c.started then Payload(c) else "")
            case Some(a) =>
              && c.wire == Interim(c) + a.head + Payload(c)
              && (!c.isHead && c.chunked == Some(false) ==>
                    c.remaining + |Concat(c.bodies)| == a.declared
                    && (c.complete ==> |Concat(c.bodies)| == a.declared && Payload(c) == Concat(c.bodies)))
  {
    hide StartOk, Wires, Fifo, RequestOk, Interim, Concat, Runs, Run;
    FreshInv();
    RunKeepsInv(FRESH, es);
    assert CycleOk(Run(FRESH, es).cycles[k], Run(FRESH, es).parsing && k == |Run(FRESH, es).cycles| - 1);
    Assoc(Interim(Run(FRESH, es).cycles[k]), "", "");
  }

  /** `connection_lost` marks only the latest cycle: the application that is still answering learns of the
      loss exactly when no request is queued behind its own. */
  lemma LossReachesOpenCycle(es: seq<Event>, clean: bool)
    requires Runs(FRESH, es)
    ensures var s := Run(FRESH, es); var i := |s.launched| - 1;
            0 <= i < |s.cycles| && !s.cycles[i].complete && !s.cycles[i].disconnected ==>
              (Lose(s, clean).cycles[i].disconnected <==> s.pipeline == [])
    ensures |Run(FRESH, es).launched| <= |Run(FRESH, es).cycles|
  {
    hide CycleOk, Wires, Untouched, Runs, Run, Flow.Mirrors;
    FreshInv();
    RunKeepsInv(FRESH, es);
  }

  /** Two requests in one read: the first is being answered, and a loss does not tell its application. */
  lemma LossCanMissOpenCycle(clean: bool)
    ensures var h := HeadersComplete(false, true, false, []);
            var read := DataReceived([h, MessageComplete, h, MessageComplete]);
            && Runs(FRESH, [read])
            && var s := Run(FRESH, [read]);
               s.pipeline == [1] && s.launched == [0] && |s.cycles| == 2
               && !s.cycles[0].complete && !Lose(s, clean).cycles[0].disconnected
  {
    var h := HeadersComplete(false, true, false, []);
    var cbs := [h, MessageComplete, h, MessageComplete];
    assert cbs[1..] == [MessageComplete, h, MessageComplete] && cbs[2..] == [h, MessageComplete];
    assert cbs[1..][1..] == cbs[2..] && cbs[2..][1..] == [MessageComplete] && [MessageComplete][1..] == [];
    assert InOrder(true, [MessageComplete]) && InOrder(false, cbs[2..]) && InOrder(true, cbs[1..]);
    var s1 := OnCallback(FRESH, h);
    var s2 := OnCallback(s1, MessageComplete);
    var s3 := OnCallback(s2, h);
    assert Feed(FRESH, cbs) == Feed(s1, cbs[1..]) == Feed(s2, cbs[2..]) == Feed(s3, [MessageComplete]);
    var e := DataReceived(cbs);
    assert [e][1..] == [];
    assert Runs(Step(FRESH, e), []);
  }

  /** Reads are paused and resumed strictly in turn, and `read_paused` says which came last. */
  lemma ReadsMirrored(es: seq<Event>)
    requires Runs(FRESH, es)
    ensures Flow.Mirrors(Run(FRESH, es).flow)
  {
    FreshInv();
    RunKeepsInv(FRESH, es);
    hide CycleOk, Wires, Fifo;
  }

  // ---------- reads are not paused for nothing ----------

  /** While an open connection holds reads paused, the request started last is still being answered: its
      application's next `receive`, or the end of its response, resumes them. */
  predicate Busy(s: Conn) {
    s.flow.paused && !s.closing ==>
      var n := Started(s); 0 < n <= |s.cycles| && !s.cycles[n - 1].complete
  }

  /** A cycle changes without becoming complete, and no pause is added. */
  lemma BusyUpdate(s: Conn, i: nat, c: Cycle, t: Conn)
    requires Busy(s) && i < |s.cycles| && (c.complete ==> s.cycles[i].complete)
    requires t.cycles == s.cycles[i := c] && t.pipeline == s.pipeline && (s.closing ==> t.closing)
    requires t.flow.paused ==> s.flow.paused
    ensures Busy(t)
  {
  }

  lemma BusyCallback(s: Conn, cb: Callback)
    requires Inv(s) && Busy(s) && !s.closing && cb.HeadersComplete? == !s.parsing
    ensures Busy(OnCallback(s, cb))
  {
    hide CycleOk, Wires, Untouched, NewCycle;
    var n := |s.cycles|;
    match cb {
      case HeadersComplete(isHead, keepAlive, expect100, defaults) =>
        if s.pipeline != [] { WaitingIsUnanswered(s); }
        LatestWaitsOrRuns(s);
      case Body(data) => LatestWaitsOrRuns(s);
      case MessageComplete => LatestWaitsOrRuns(s);
    }
  }

  lemma WaitingIsUnanswered(s: Conn)
    requires Inv(s) && s.pipeline != []
    ensures s.cycles != [] && !s.cycles[|s.cycles| - 1].complete
  {
    hide CycleOk, Wires;
    assert s.pipeline[0] == |s.cycles| - 1;
  }

  /** If the latest request is not answered, the one started last is not. */
  lemma LatestWaitsOrRuns(s: Conn)
    requires Inv(s) && !s.closing
    ensures s.cycles != [] && !s.cycles[|s.cycles| - 1].complete ==>
              0 < Started(s) <= |s.cycles| && !s.cycles[Started(s) - 1].complete
  {
    hide CycleOk, Wires, Untouched;
  }

  lemma {:induction false} BusyFeed(s: Conn, cbs: seq<Callback>)
    requires Inv(s) && Busy(s) && InOrder(s.parsing, cbs) && !s.closing && s.timer == NoTimer
    ensures Busy(Feed(s, cbs))
    decreases |cbs|
  {
    if cbs != [] {
      BusyCallback(s, cbs[0]);
      KeepsFeed(s, [cbs[0]]);
      assert [cbs[0]][1..] == [];
      CallbackFrame(s, cbs[0]);
      hide Inv, Busy, OnCallback;
      BusyFeed(OnCallback(s, cbs[0]), cbs[1..]);
    }
  }

  lemma BusySend(s: Conn, i: nat, r: Sent)
    requires Inv(s) && Busy(s) && i < Started(s) && Reported(s, i, r)
    ensures Busy(AfterSend(s, i, r))
  {
    hide CycleOk, Wires, Untouched;
    if !s.cycles[i].complete && r.cycle.complete {
      Flow.StillMirrors(s.flow);
      hide Inv;
    } else {
      BusyUpdate(s, i, r.cycle, AfterSend(s, i, r));
    }
  }

  lemma BusyEnd(s: Conn, i: nat)
    requires Busy(s) && i < |s.cycles|
    ensures Busy(End(s, i)) && Busy(End(s, i).(closing := true))
  {
    BusyUpdate(s, i, s.cycles[i].(phase := Ended, onResponse := false), End(s, i));
  }

  lemma BusyAppEnds(s: Conn, i: nat, how: Outcome)
    requires Busy(s) && i < |s.cycles|
    ensures Busy(AppEnds(s, i, how))
  {
    var c := s.cycles[i];
    BusyEnd(s, i);
    BusyUpdate(s, i, c.(phase := Starting500), s.(cycles := s.cycles[i := c.(phase := Starting500)]));
  }

  lemma BusySends500(s: Conn, i: nat)
    requires Inv(s) && Shape(s) && Enabled(s, Sends500(i)) && Busy(s)
    ensures Busy(Step(s, Sends500(i)))
  {
    hide Inv, Reported, Send, AfterSend, Busy;
    KeepsSend(s, i, START_500);
    var r := Send(s.cycles[i], START_500);
    BusySend(s, i, r);
    if r.raised {
      KeepsAfterSend(s, i, r);
      BusyEnd(AfterSend(s, i, r), i);
    } else {
      ReportedStart500(s, i);
      BusySend(s, i, r.(cycle := r.cycle.(phase := Finishing500)));
    }
  }

  lemma BusyReceive(s: Conn, i: nat)
    requires Busy(s) && i < |s.cycles|
    ensures Busy(ReceiveBegin(s, i)) && Busy(ReceiveEnd(s, i))
  {
    var c := s.cycles[i];
    BusyUpdate(s, i, Took(c), ReceiveEnd(s, i));
    BusyUpdate(s, i, Begun(c, c.waiting100 && !s.closing), ReceiveBegin(s, i));
  }

  lemma BusyLatest(s: Conn, clean: bool)
    requires Busy(s)
    ensures Busy(DoShutdown(s)) && Busy(Lose(s, clean))
  {
    var n := |s.cycles|;
    if n > 0 {
      BusyUpdate(s, n - 1, DoShutdown(s).cycles[n - 1], DoShutdown(s));
    }
  }

  lemma StepKeepsBusy(s: Conn, e: Event)
    requires Inv(s) && Shape(s) && Enabled(s, e) && Busy(s)
    ensures Busy(Step(s, e))
  {
    hide Inv, Reported, Feed, InOrder, Send, AfterSend, Busy, AppEnds, End, ReceiveBegin, ReceiveEnd, DoShutdown, Lose;
    match e {
      case DataReceived(cbs) =>
        NoTimerKeeps(s);
        BusyIgnores(s, NoTimer, s.closing);
        BusyFeed(s.(timer := NoTimer), cbs);
      case ReceiveBegins(i) => BusyReceive(s, i);
      case ReceiveEnds(i) => BusyReceive(s, i);
      case AppSends(i, m) =>
        KeepsSend(s, i, m);
        BusySend(s, i, Send(s.cycles[i], m));
      case AppEnded(i, how) => BusyAppEnds(s, i, how);
      case Sends500(i) => BusySends500(s, i);
      case Ends500(i) =>
        KeepsSend(s, i, BODY_500);
        KeepsAfterSend(s, i, Send(s.cycles[i], BODY_500));
        BusySend(s, i, Send(s.cycles[i], BODY_500));
        BusyEnd(AfterSend(s, i, Send(s.cycles[i], BODY_500)), i);
      case TimerFires => BusyIgnores(s, Fired, true);
      case Shutdown => BusyLatest(s, true);
      case ConnectionLost(clean) => BusyLatest(s, clean);
    }
  }

  lemma BusyIgnores(s: Conn, timer: Timer, closing: bool)
    requires Busy(s) && (s.closing ==> closing)
    ensures Busy(s.(timer := timer, closing := closing))
  {
  }

  lemma {:induction false} RunKeepsBusy(s: Conn, es: seq<Event>)
    requires Shape(s) && Inv(s) && Busy(s) && Runs(s, es)
    ensures Busy(Run(s, es))
    decreases |es|
  {
    if es != [] {
      hide Inv, Busy, Step;
      StepKeepsInv(s, es[0]);
      StepKeepsBusy(s, es[0]);
      RunKeepsBusy(Step(s, es[0]), es[1..]);
    }
  }

  /** On an open connection reads are paused only while the request started last is still being answered. */
  lemma PausedOnlyWhileAnswering(es: seq<Event>)
    requires Runs(FRESH, es)
    ensures var s := Run(FRESH, es); var n := |s.cycles| - |s.pipeline|;
            s.flow.paused && !s.closing ==> 0 < n <= |s.cycles| && !s.cycles[n - 1].complete
  {
    FreshInv();
    hide Inv, Runs, Run;
    RunKeepsBusy(FRESH, es);
  }
}
