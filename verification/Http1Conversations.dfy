/** What passes between a client and an application over an HTTP/1.1 connection, told from the events alone: the
    requests that the parser delivers, what the application receives of them, and what it sends in answer. */
module Http1Conversations {
  import opened Text
  import opened Http1Wire
  import opened Http1Spec
  import opened Http1Pipeline
  import opened Http1Runs
  import opened Http1ReadBack
  import Flow

  // ---------- what one event does to one cycle ----------

  lemma AfterSendCycle(s: Conn, i: nat, r: Sent, k: nat)
    requires Shape(s) && i < |s.cycles| && k < |s.cycles|
    ensures var t := AfterSend(s, i, r);
            && |t.cycles| == |s.cycles| && Shape(t)
            && t.cycles[k] == (if k == i then r.cycle else s.cycles[k]).(phase := t.cycles[k].phase)
  {
    AfterSendShape(s, i, r);
    hide Shape;
    if r.respond {
      CompleteCycle(s.(cycles := s.cycles[i := r.cycle], wire := s.wire + r.wrote, closing := s.closing || r.close), k);
      hide OnResponseComplete;
    } else {
    }
  }

  /** The end of a response at most starts a cycle. */
  lemma CompleteCycle(s: Conn, k: nat)
    requires Shape(s) && k < |s.cycles|
    ensures var t := OnResponseComplete(s);
            |t.cycles| == |s.cycles| && t.cycles[k] == s.cycles[k].(phase := t.cycles[k].phase)
  {
    hide Flow.Resume;
    if s.closing {
    } else if s.pipeline != [] {
      if k == s.pipeline[|s.pipeline| - 1] {} else {}
    } else {
    }
  }

  lemma EndCycle(s: Conn, i: nat, k: nat)
    requires i < |s.cycles| && k < |s.cycles|
    ensures var t := End(s, i);
            && |t.cycles| == |s.cycles|
            && t.cycles[k] == s.cycles[k].(phase := t.cycles[k].phase, onResponse := t.cycles[k].onResponse)
  {
  }

  /** Only its request side. */
  predicate MoreOfRequest(c: Cycle, d: Cycle) {
    d == c.(phase := d.phase, delivered := d.delivered, body := d.body, moreBody := d.moreBody, eventSet := d.eventSet)
  }

  lemma HeadersCycle(s: Conn, c: Cycle, k: nat)
    requires k < |s.cycles|
    ensures var t := OnHeadersComplete(s, c);
            |t.cycles| == |s.cycles| + 1 && t.cycles[k] == s.cycles[k]
  {
    hide Flow.Pause;
    var n := |s.cycles|;
    assert (s.cycles + [c])[k] == s.cycles[k];
    if s.cycles[n - 1].complete {} else {}
  }

  lemma BodyCycle(s: Conn, data: Bytes, k: nat)
    requires k < |s.cycles|
    ensures var t := OnBody(s, data); k < |t.cycles| && MoreOfRequest(s.cycles[k], t.cycles[k])
  {
    hide Flow.Pause;
    if s.cycles[|s.cycles| - 1].complete {} else {}
  }

  lemma MessageCompleteCycle(s: Conn, k: nat)
    requires k < |s.cycles|
    ensures var t := OnMessageComplete(s); k < |t.cycles| && MoreOfRequest(s.cycles[k], t.cycles[k])
  {
    if s.cycles[|s.cycles| - 1].complete {} else {}
  }

  lemma CallbackCycle(s: Conn, cb: Callback, k: nat)
    requires (cb.HeadersComplete? || s.cycles != []) && k < |s.cycles|
    ensures var t := OnCallback(s, cb); k < |t.cycles| && MoreOfRequest(s.cycles[k], t.cycles[k])
  {
    hide NewCycle, OnHeadersComplete, OnBody, OnMessageComplete;
    match cb {
      case HeadersComplete(isHead, keepAlive, expect100, defaults) =>
        HeadersCycle(s, NewCycle(defaults, isHead, keepAlive, expect100), k);
      case Body(data) => BodyCycle(s, data, k);
      case MessageComplete => MessageCompleteCycle(s, k);
    }
  }

  lemma {:induction false} FeedCycle(s: Conn, cbs: seq<Callback>, k: nat)
    requires InOrder(s.parsing, cbs) && (s.parsing ==> s.cycles != []) && k < |s.cycles|
    ensures var t := Feed(s, cbs); k < |t.cycles| && MoreOfRequest(s.cycles[k], t.cycles[k])
    decreases |cbs|
  {
    if cbs != [] {
      CallbackFrame(s, cbs[0]);
      CallbackCycle(s, cbs[0], k);
      var u := OnCallback(s, cbs[0]);
      hide OnCallback;
      FeedCycle(u, cbs[1..], k);
    }
  }

  /** The event's own cycle changes as the message or the receive says; the others at most start. */
  predicate Changes(s: Conn, e: Event, k: nat, c: Cycle, d: Cycle) {
    match e
    case DataReceived(_) => MoreOfRequest(c, d)
    case ReceiveBegins(i) => d == if i == k then Begun(c, c.waiting100 && !s.closing) else c
    case ReceiveEnds(i) => d == if i == k then Took(c) else c
    case AppSends(i, m) => d == (if i == k then Send(c, m).cycle else c).(phase := d.phase)
    case AppEnded(_, _) => d == c.(phase := d.phase, onResponse := d.onResponse)
    case Sends500(i) =>
      d == (if i == k then Send(c, START_500).cycle else c).(phase := d.phase, onResponse := d.onResponse)
    case Ends500(i) =>
      d == (if i == k then Send(c, BODY_500).cycle else c).(phase := d.phase, onResponse := d.onResponse)
    case TimerFires => d == c
    case Shutdown => d == c.(keepAlive := d.keepAlive)
    case ConnectionLost(_) => d == c.(disconnected := d.disconnected, eventSet := d.eventSet)
  }

  lemma PhaseThenEnd(base: Cycle, c: Cycle, d: Cycle)
    requires c == base.(phase := c.phase) && d == c.(phase := d.phase, onResponse := d.onResponse)
    ensures d == base.(phase := d.phase, onResponse := d.onResponse)
  {
  }

  /** A message is sent on cycle `i`, and its task ends. */
  lemma LastSendCycle(s: Conn, i: nat, r: Sent, k: nat)
    requires Shape(s) && i < |s.cycles| && k < |s.cycles|
    ensures i < |AfterSend(s, i, r).cycles|
    ensures var t := End(AfterSend(s, i, r), i);
            && k < |t.cycles|
            && t.cycles[k] == (if k == i then r.cycle else s.cycles[k]).(phase := t.cycles[k].phase,
                                                                         onResponse := t.cycles[k].onResponse)
  {
    hide AfterSend, End;
    AfterSendCycle(s, i, r, k);
    var t := AfterSend(s, i, r);
    EndCycle(t, i, k);
    PhaseThenEnd(if k == i then r.cycle else s.cycles[k], t.cycles[k], End(t, i).cycles[k]);
  }

  lemma SameIs(c: Cycle)
    ensures c == c.(phase := c.phase, onResponse := c.onResponse)
  {
  }

  lemma PhaseIs(c: Cycle, p: Phase)
    ensures c.(phase := p) == c.(phase := p, onResponse := c.onResponse)
  {
  }

  lemma EndedIs(c: Cycle)
    ensures var d := c.(phase := Ended, onResponse := false); d == c.(phase := d.phase, onResponse := d.onResponse)
  {
  }

  lemma PhaseTwice(c: Cycle, p: Phase, d: Cycle)
    requires d == c.(phase := p).(phase := d.phase)
    ensures d == c.(phase := d.phase)
  {
  }

  lemma Start500Cycle(s: Conn, i: nat, k: nat)
    requires Shape(s) && Enabled(s, Sends500(i)) && k < |s.cycles|
    ensures var t := Step(s, Sends500(i)); k < |t.cycles| && Changes(s, Sends500(i), k, s.cycles[k], t.cycles[k])
  {
    hide Send, AfterSend, End;
    var r := Send(s.cycles[i], START_500);
    if r.raised {
      LastSendCycle(s, i, r, k);
    } else {
      StartedCycle(s, i, r, k);
    }
  }

  lemma StartedCycle(s: Conn, i: nat, r: Sent, k: nat)
    requires Shape(s) && i < |s.cycles| && k < |s.cycles|
    ensures var t := AfterSend(s, i, r.(cycle := r.cycle.(phase := Finishing500)));
            && k < |t.cycles|
            && t.cycles[k] == (if k == i then r.cycle else s.cycles[k]).(phase := t.cycles[k].phase,
                                                                         onResponse := t.cycles[k].onResponse)
  {
    hide AfterSend;
    var r1 := r.(cycle := r.cycle.(phase := Finishing500));
    AfterSendCycle(s, i, r1, k);
    var d := AfterSend(s, i, r1).cycles[k];
    if k == i {
      PhaseTwice(r.cycle, Finishing500, d);
      PhaseIs(r.cycle, d.phase);
    } else {
      PhaseIs(s.cycles[k], d.phase);
    }
  }

  lemma Body500Cycle(s: Conn, i: nat, k: nat)
    requires Shape(s) && Enabled(s, Ends500(i)) && k < |s.cycles|
    ensures var t := Step(s, Ends500(i)); k < |t.cycles| && Changes(s, Ends500(i), k, s.cycles[k], t.cycles[k])
  {
    hide Send, AfterSend, End;
    LastSendCycle(s, i, Send(s.cycles[i], BODY_500), k);
  }

  lemma SendingCycle(s: Conn, e: Event, k: nat)
    requires Shape(s) && Enabled(s, e) && k < |s.cycles| && (e.AppSends? || e.Sends500? || e.Ends500?)
    ensures var t := Step(s, e); k < |t.cycles| && Changes(s, e, k, s.cycles[k], t.cycles[k])
  {
    if e.AppSends? {
      hide Send, AfterSend;
      AfterSendCycle(s, e.i, Send(s.cycles[e.i], e.message), k);
    } else {
      hide Step, Changes;
      if e.Sends500? { Start500Cycle(s, e.i, k); } else { Body500Cycle(s, e.i, k); }
    }
  }

  lemma TaskCycle(s: Conn, e: Event, k: nat)
    requires Shape(s) && Enabled(s, e) && k < |s.cycles| && (e.ReceiveBegins? || e.ReceiveEnds? || e.AppEnded?)
    ensures var t := Step(s, e); k < |t.cycles| && Changes(s, e, k, s.cycles[k], t.cycles[k])
  {
    hide Begun, Took, Flow.Resume, AppEnds;
    if e.ReceiveBegins? {
    } else if e.ReceiveEnds? {
    } else {
      AppEndsCycle(s, e.i, e.how, k);
    }
  }

  lemma AppEndsCycle(s: Conn, i: nat, how: Outcome, k: nat)
    requires i < |s.cycles| && k < |s.cycles|
    ensures var t := AppEnds(s, i, how);
            && k < |t.cycles|
            && t.cycles[k] == s.cycles[k].(phase := t.cycles[k].phase, onResponse := t.cycles[k].onResponse)
  {
    var c := s.cycles[k];
    SameIs(c);
    if k == i {
      PhaseIs(c, Starting500);
      EndedIs(c);
    }
  }

  lemma ConnectionCycle(s: Conn, e: Event, k: nat)
    requires Shape(s) && Enabled(s, e) && k < |s.cycles| && (e.TimerFires? || e.Shutdown? || e.ConnectionLost?)
    ensures var t := Step(s, e); k < |t.cycles| && Changes(s, e, k, s.cycles[k], t.cycles[k])
  {
    if k == |s.cycles| - 1 {} else {}
  }

  lemma StepCycle(s: Conn, e: Event, k: nat)
    requires Shape(s) && Enabled(s, e) && k < |s.cycles|
    ensures var t := Step(s, e); k < |t.cycles| && Changes(s, e, k, s.cycles[k], t.cycles[k])
  {
    if e.DataReceived? {
      hide Feed, InOrder;
      FeedCycle(s.(timer := NoTimer), e.callbacks, k);
    } else {
      hide Step, Enabled, Changes;
      if e.AppSends? || e.Sends500? || e.Ends500? {
        SendingCycle(s, e, k);
      } else if e.ReceiveBegins? || e.ReceiveEnds? || e.AppEnded? {
        TaskCycle(s, e, k);
      } else {
        ConnectionCycle(s, e, k);
      }
    }
  }

  // ---------- the requests ----------

  /** A request as the parser reports it: what its head says, the body so far, and whether its end has been seen. */
  datatype Parsed = Parsed(defaults: seq<Field>, isHead: bool, keepAlive: bool, expect100: bool,
                           data: Bytes, ended: bool)

  function ParseOne(ps: seq<Parsed>, cb: Callback): seq<Parsed> {
    if cb.HeadersComplete? then ps + [Parsed(cb.defaults, cb.isHead, cb.keepAlive, cb.expect100, "", false)]
    else if ps == [] then ps
    else
      var n := |ps| - 1;
      ps[n := if cb.Body? then ps[n].(data := ps[n].data + cb.data) else ps[n].(ended := true)]
  }

  function ParseAll(ps: seq<Parsed>, cbs: seq<Callback>): seq<Parsed>
    decreases |cbs|
  {
    if cbs == [] then ps else ParseAll(ParseOne(ps, cbs[0]), cbs[1..])
  }

  function Requests(ps: seq<Parsed>, es: seq<Event>): seq<Parsed>
    decreases |es|
  {
    if es == [] then ps else Requests(if es[0].DataReceived? then ParseAll(ps, es[0].callbacks) else ps, es[1..])
  }

  /** A cycle is that of a request. */
  predicate Matches(c: Cycle, p: Parsed) {
    && c.isHead == p.isHead && c.defaults == p.defaults && c.delivered == p.data
    && (!c.complete ==> (c.moreBody <==> !p.ended))
    && (c.waiting100 <==> p.expect100 && !c.started && !c.continued)
  }

  predicate Parses(s: Conn, ps: seq<Parsed>) {
    && |ps| == |s.cycles| && (s.parsing <==> ps != [] && !ps[|ps| - 1].ended)
    && forall k :: 0 <= k < |ps| ==> Matches(s.cycles[k], ps[k])
  }

  lemma HeadersParse(s: Conn, cb: Callback, ps: seq<Parsed>)
    requires Parses(s, ps) && cb.HeadersComplete? && !s.parsing
    ensures Parses(OnCallback(s, cb), ParseOne(ps, cb))
  {
    var c := NewCycle(cb.defaults, cb.isHead, cb.keepAlive, cb.expect100);
    var t := OnHeadersComplete(s, c);
    forall k | 0 <= k < |s.cycles| ensures t.cycles[k] == s.cycles[k] { HeadersCycle(s, c, k); }
    assert t.cycles[|s.cycles|] == c.(phase := t.cycles[|s.cycles|].phase) by { hide NewCycle, Flow.Pause; }
  }

  lemma BodyParses(s: Conn, cb: Callback, ps: seq<Parsed>)
    requires Parses(s, ps) && cb.Body? && s.parsing
    ensures Parses(OnCallback(s, cb), ParseOne(ps, cb))
  {
    hide Flow.Pause;
    if s.cycles[|s.cycles| - 1].complete {} else {}
  }

  lemma EndParses(s: Conn, cb: Callback, ps: seq<Parsed>)
    requires Parses(s, ps) && cb.MessageComplete? && s.parsing
    ensures Parses(OnCallback(s, cb), ParseOne(ps, cb))
  {
    if s.cycles[|s.cycles| - 1].complete {} else {}
  }

  lemma {:induction false} FeedParses(s: Conn, cbs: seq<Callback>, ps: seq<Parsed>)
    requires Parses(s, ps) && InOrder(s.parsing, cbs)
    ensures Parses(Feed(s, cbs), ParseAll(ps, cbs))
    decreases |cbs|
  {
    if cbs != [] {
      match cbs[0] {
        case HeadersComplete(_, _, _, _) => HeadersParse(s, cbs[0], ps);
        case Body(_) => BodyParses(s, cbs[0], ps);
        case MessageComplete => EndParses(s, cbs[0], ps);
      }
      CallbackFrame(s, cbs[0]);
      hide OnCallback, ParseOne, Parses;
      FeedParses(OnCallback(s, cbs[0]), cbs[1..], ParseOne(ps, cbs[0]));
    }
  }

  /** What no message changes. */
  predicate SameRequestSide(c: Cycle, d: Cycle) {
    && d.isHead == c.isHead && d.defaults == c.defaults && d.delivered == c.delivered
    && d.moreBody == c.moreBody && d.continued == c.continued && d.disconnected == c.disconnected
    && d.returned == c.returned && d.finals == c.finals && d.body == c.body
    && (c.started ==> d.started) && (c.complete ==> d.complete)
    && (d.waiting100 <==> c.waiting100 && (d.started ==> c.started))
  }

  lemma CommitFacts(c: Cycle, status: nat, reason: Bytes, input: seq<Field>, sc: Scan)
    requires !c.started
    ensures SameRequestSide(c, CommitStart(c, status, reason, input, sc).cycle)
  {
    hide Head, HeadFields;
    if sc.failed {} else {}
  }

  lemma StartFactsOf(c: Cycle, status: nat, reason: Bytes, headers: seq<Field>)
    requires !c.started
    ensures SameRequestSide(c, SendStart(c, status, reason, headers).cycle)
  {
    hide ScanFields, CommitStart;
    if 100 <= status < 600 {
      var input := c.defaults + headers;
      CommitFacts(c, status, reason, input,
                  ScanFields(Scan(c.chunked, c.remaining, c.keepAlive, false, [], false), input));
      hide SameRequestSide;
    }
  }

  lemma BodyFactsOf(c: Cycle, body: Bytes, more: bool)
    requires c.started && !c.complete
    ensures SameRequestSide(c, SendBody(c, body, more).cycle)
  {
    hide Chunk;
  }

  lemma SendFacts(c: Cycle, m: Message)
    ensures SameRequestSide(c, Send(c, m).cycle)
  {
    hide SendStart, SendBody;
    if c.disconnected {
    } else if !c.started {
      if m.ResponseStart? {
        StartFactsOf(c, m.status, m.reason, m.headers);
        hide SameRequestSide;
      }
    } else if !c.complete {
      if m.ResponseBody? {
        BodyFactsOf(c, m.body, m.more);
        hide SameRequestSide;
      }
    }
  }

  lemma StillMatches(s: Conn, e: Event, k: nat, c: Cycle, d: Cycle, p: Parsed)
    requires Changes(s, e, k, c, d) && !e.DataReceived? && ResponseOk(c) && Matches(c, p)
    ensures Matches(d, p)
  {
    hide Send, StartOk, AcceptedOk, RefusedOk, Interim;
    if e.AppSends? { SendFacts(c, e.message); }
    if e.Sends500? { SendFacts(c, START_500); }
    if e.Ends500? { SendFacts(c, BODY_500); }
  }

  lemma StepFrame(s: Conn, e: Event)
    requires Shape(s) && Enabled(s, e) && !e.DataReceived?
    ensures |Step(s, e).cycles| == |s.cycles| && Step(s, e).parsing == s.parsing
  {
    hide Send, Flow.Resume;
    match e {
      case AppSends(i, m) => AfterSendShape(s, i, Send(s.cycles[i], m));
      case Sends500(i) =>
        var r := Send(s.cycles[i], START_500);
        AfterSendShape(s, i, r);
        AfterSendShape(s, i, r.(cycle := r.cycle.(phase := Finishing500)));
      case Ends500(i) => AfterSendShape(s, i, Send(s.cycles[i], BODY_500));
      case _ =>
    }
  }

  lemma StepParses(s: Conn, e: Event, ps: seq<Parsed>)
    requires Inv(s) && Shape(s) && Enabled(s, e) && Parses(s, ps)
    ensures Parses(Step(s, e), if e.DataReceived? then ParseAll(ps, e.callbacks) else ps)
  {
    if e.DataReceived? {
      hide Inv, Feed, InOrder, ParseAll;
      assert Parses(s.(timer := NoTimer), ps) by { hide Matches; }
      FeedParses(s.(timer := NoTimer), e.callbacks, ps);
    } else {
      hide Step, Enabled, Matches, Changes, Shape;
      StepFrame(s, e);
      forall k | 0 <= k < |ps| ensures Matches(Step(s, e).cycles[k], ps[k]) {
        StepCycle(s, e, k);
        CycleIsOk(s, k);
        StillMatches(s, e, k, s.cycles[k], Step(s, e).cycles[k], ps[k]);
      }
    }
  }

  lemma CycleIsOk(s: Conn, k: nat)
    requires Inv(s) && k < |s.cycles|
    ensures ResponseOk(s.cycles[k]) && RequestOk(s.cycles[k], s.parsing && k == |s.cycles| - 1)
  {
    hide ResponseOk, RequestOk, Wires, Fifo;
  }

  lemma {:induction false} RunParses(s: Conn, es: seq<Event>, ps: seq<Parsed>)
    requires Shape(s) && Inv(s) && Runs(s, es) && Parses(s, ps)
    ensures Parses(Run(s, es), Requests(ps, es))
    decreases |es|
  {
    if es != [] {
      hide Inv, Step, Enabled, Shape, Parses, ParseAll;
      StepKeepsShape(s, es[0]);
      StepParses(s, es[0], ps);
      StepKeepsInv(s, es[0]);
      RunParses(Step(s, es[0]), es[1..], if es[0].DataReceived? then ParseAll(ps, es[0].callbacks) else ps);
    }
  }

  /** There is one cycle for each request that the parser has reported, in order, with its method, its default headers
      and its body; the interim response is owed exactly to a request that asks for it and has not been answered. */
  lemma CyclesAreRequests(es: seq<Event>)
    requires Runs(FRESH, es)
    ensures var s, ps := Run(FRESH, es), Requests([], es);
            && |s.cycles| == |ps| && (s.parsing <==> ps != [] && !ps[|ps| - 1].ended)
            && (forall k :: 0 <= k < |ps| ==>
                  var c, p := s.cycles[k], ps[k];
                  && c.isHead == p.isHead && c.defaults == p.defaults && c.delivered == p.data
                  && (!c.complete ==> (c.moreBody <==> !p.ended))
                  && (c.waiting100 <==> p.expect100 && !c.started && !c.continued))
  {
    hide Inv, Runs, Run, Requests;
    FreshInv();
    assert Parses(FRESH, []);
    RunParses(FRESH, es, []);
    hide Matches;
    forall k | 0 <= k < |Requests([], es)| ensures Matches(Run(FRESH, es).cycles[k], Requests([], es)[k]) { }
  }

  // ---------- new cycles ----------

  /** Nothing has been received or sent yet. */
  predicate Blank(c: Cycle) {
    && c.returned == "" && c.finals == 0 && c.bodies == [] && c.accepted.None? && !c.started && !c.complete
    && !c.disconnected
  }

  lemma AddedIsBlank(s: Conn, cb: Callback)
    requires cb.HeadersComplete?
    ensures var t := OnCallback(s, cb); |t.cycles| == |s.cycles| + 1 && Blank(t.cycles[|s.cycles|])
  {
    hide Flow.Pause;
  }

  lemma {:induction false} NewInFeed(s: Conn, cbs: seq<Callback>, k: nat)
    requires InOrder(s.parsing, cbs) && (s.parsing ==> s.cycles != []) && |s.cycles| <= k < |Feed(s, cbs).cycles|
    ensures Blank(Feed(s, cbs).cycles[k])
    decreases |cbs|
  {
    if cbs != [] {
      CallbackFrame(s, cbs[0]);
      var t := OnCallback(s, cbs[0]);
      if k < |t.cycles| {
        assert cbs[0].HeadersComplete? && k == |s.cycles| by { OnlyHeadersAdd(s, cbs[0]); }
        AddedIsBlank(s, cbs[0]);
        hide OnCallback;
        FeedCycle(t, cbs[1..], k);
      } else {
        hide OnCallback;
        NewInFeed(t, cbs[1..], k);
      }
    }
  }

  lemma OnlyHeadersAdd(s: Conn, cb: Callback)
    requires cb.HeadersComplete? || s.cycles != []
    ensures |OnCallback(s, cb).cycles| == |s.cycles| + if cb.HeadersComplete? then 1 else 0
  {
    hide Flow.Pause;
  }

  lemma NewInStep(s: Conn, e: Event, k: nat)
    requires Shape(s) && Enabled(s, e) && |s.cycles| <= k < |Step(s, e).cycles|
    ensures e.DataReceived? && Blank(Step(s, e).cycles[k])
  {
    if e.DataReceived? {
      hide Feed, InOrder;
      NewInFeed(s.(timer := NoTimer), e.callbacks, k);
    } else {
      StepFrame(s, e);
    }
  }

  // ---------- what the application receives ----------

  /** What `receive` returns: data and whether there is more, or None for a disconnect. */
  function Returns(c: Cycle): Option<(Bytes, bool)> {
    if c.disconnected || c.complete then None else Some((c.body, c.moreBody))
  }

  /** Everything that the receives of the application of request `k` have returned, in order. */
  ghost function Received(s: Conn, es: seq<Event>, k: nat): seq<(Bytes, bool)>
    requires Shape(s) && Runs(s, es)
    decreases |es|
  {
    if es == [] then []
    else
      StepKeepsShape(s, es[0]);
      var rest := Received(Step(s, es[0]), es[1..], k);
      if es[0] == ReceiveEnds(k) && Returns(s.cycles[k]).Some? then [Returns(s.cycles[k]).value] + rest else rest
  }

  function Datas(got: seq<(Bytes, bool)>): (r: seq<Bytes>)
    ensures |r| == |got|
  {
    seq(|got|, i requires 0 <= i < |got| => got[i].0)
  }

  predicate EndsOnce(got: seq<(Bytes, bool)>) { forall i :: 0 <= i < |got| - 1 ==> got[i].1 }

  predicate SaidEnd(got: seq<(Bytes, bool)>) { got != [] && !got[|got| - 1].1 }

  predicate CycleTells(c: Cycle, got: seq<(Bytes, bool)>) {
    EndsOnce(got) && c.returned == Concat(Datas(got)) && c.finals == if SaidEnd(got) then 1 else 0
  }

  predicate Tells(s: Conn, k: nat, got: seq<(Bytes, bool)>) {
    if k < |s.cycles| then CycleTells(s.cycles[k], got) else got == []
  }

  lemma OneMore(got: seq<(Bytes, bool)>, one: (Bytes, bool))
    ensures Concat(Datas(got + [one])) == Concat(Datas(got)) + one.0
  {
    assert Datas(got + [one]) == Datas(got) + [one.0];
    ConcatOne(Datas(got), one.0);
  }

  lemma NothingReceived()
    ensures Concat(Datas([])) == ""
  {
    assert Datas([]) == [];
  }

  lemma TookTells(c: Cycle, open: bool, got: seq<(Bytes, bool)>)
    requires RequestOk(c, open) && c.eventSet && CycleTells(c, got)
    ensures CycleTells(Took(c), if Returns(c).Some? then got + [Returns(c).value] else got)
  {
    hide Concat, Datas;
    if Returns(c).Some? { OneMore(got, Returns(c).value); }
  }

  lemma ReceiveTells(s: Conn, k: nat, got: seq<(Bytes, bool)>)
    requires Inv(s) && Shape(s) && Enabled(s, ReceiveEnds(k)) && Tells(s, k, got)
    ensures k < |s.cycles|
    ensures Tells(Step(s, ReceiveEnds(k)), k,
                  if Returns(s.cycles[k]).Some? then got + [Returns(s.cycles[k]).value] else got)
  {
    CycleIsOk(s, k);
    StepCycle(s, ReceiveEnds(k), k);
    hide Inv, CycleTells, ResponseOk, RequestOk, Step, Shape;
    TookTells(s.cycles[k], s.parsing && k == |s.cycles| - 1, got);
  }

  lemma OtherTells(s: Conn, e: Event, k: nat, got: seq<(Bytes, bool)>)
    requires Shape(s) && Enabled(s, e) && e != ReceiveEnds(k) && Tells(s, k, got)
    ensures Tells(Step(s, e), k, got)
  {
    hide Step, Enabled, Shape, Concat, Datas, EndsOnce, SaidEnd, Send, Begun;
    if k < |s.cycles| {
      StepCycle(s, e, k);
      var c := s.cycles[k];
      if e.AppSends? { SendFacts(c, e.message); }
      if e.Sends500? { SendFacts(c, START_500); }
      if e.Ends500? { SendFacts(c, BODY_500); }
      if e.ReceiveBegins? { BegunTells(c, c.waiting100 && !s.closing); }
    } else if k < |Step(s, e).cycles| {
      NewInStep(s, e, k);
      NothingReceived();
      NothingSaid();
    }
  }

  lemma NothingSaid()
    ensures !SaidEnd([]) && EndsOnce([])
  {
  }

  lemma BegunTells(c: Cycle, go: bool)
    ensures Begun(c, go).returned == c.returned && Begun(c, go).finals == c.finals
  {
  }

  lemma {:induction false} RunTells(s: Conn, es: seq<Event>, k: nat, got: seq<(Bytes, bool)>)
    requires Shape(s) && Inv(s) && Runs(s, es) && Tells(s, k, got)
    ensures Tells(Run(s, es), k, got + Received(s, es, k))
    decreases |es|
  {
    hide Inv, Step, Enabled, Shape, Tells, Returns;
    if es == [] {
      assert got + [] == got;
    } else {
      var e := es[0];
      StepKeepsShape(s, e);
      StepKeepsInv(s, e);
      var rest := Received(Step(s, e), es[1..], k);
      if e == ReceiveEnds(k) {
        ReceiveTells(s, k, got);
        var next := if Returns(s.cycles[k]).Some? then got + [Returns(s.cycles[k]).value] else got;
        RunTells(Step(s, e), es[1..], k, next);
        assert next + rest == got + Received(s, es, k);
      } else {
        OtherTells(s, e, k, got);
        RunTells(Step(s, e), es[1..], k, got);
      }
    }
  }

  /** While the response is in progress, what the parser has delivered of the request body is what the application has
      received of it and what is buffered, and an application that has not been told everything is woken; "no more
      body" is said at most once and last, with the last byte, when the parser has left the request. */
  lemma UploadReachesApplication(es: seq<Event>, k: nat)
    requires Runs(FRESH, es) && k < |Run(FRESH, es).cycles|
    ensures k < |Requests([], es)|
    ensures var c, p, got := Run(FRESH, es).cycles[k], Requests([], es)[k], Received(FRESH, es, k);
            && (!c.complete ==> p.data == Concat(Datas(got)) + c.body && (c.moreBody <==> !p.ended))
            && (!c.complete && !c.disconnected && (c.body != "" || (p.ended && !SaidEnd(got))) ==> c.eventSet)
            && EndsOnce(got)
            && (SaidEnd(got) ==> p.data == Concat(Datas(got)) && p.ended)
  {
    hide Inv, Runs, Run, Requests, Received, Concat, Datas, SaidEnd, EndsOnce;
    CyclesAreRequests(es);
    FreshInv();
    RunKeepsInv(FRESH, es);
    assert Tells(FRESH, k, []);
    RunTells(FRESH, es, k, []);
    assert [] + Received(FRESH, es, k) == Received(FRESH, es, k);
    CycleIsOk(Run(FRESH, es), k);
    hide ResponseOk;
    RequestBodyConserved(es, k);
    EarlierEnded(es, k);
  }

  /** A request that is not the one being parsed has been seen to its end. */
  lemma EarlierEnded(es: seq<Event>, k: nat)
    requires Runs(FRESH, es) && k < |Requests([], es)|
    ensures k < |Requests([], es)| - 1 ==> Requests([], es)[k].ended
  {
    RunEnded(FRESH, es, []);
  }

  predicate AllButLastEnded(ps: seq<Parsed>) { forall k :: 0 <= k < |ps| - 1 ==> ps[k].ended }

  lemma {:induction false} ParseEnded(parsing: bool, cbs: seq<Callback>, ps: seq<Parsed>)
    requires InOrder(parsing, cbs) && AllButLastEnded(ps) && (parsing <==> ps != [] && !ps[|ps| - 1].ended)
    ensures AllButLastEnded(ParseAll(ps, cbs))
    decreases |cbs|
  {
    if cbs != [] { ParseEnded(!cbs[0].MessageComplete?, cbs[1..], ParseOne(ps, cbs[0])); }
  }

  lemma {:induction false} RunEnded(s: Conn, es: seq<Event>, ps: seq<Parsed>)
    requires Shape(s) && Inv(s) && Runs(s, es) && Parses(s, ps) && AllButLastEnded(ps)
    ensures AllButLastEnded(Requests(ps, es))
    decreases |es|
  {
    if es != [] {
      hide Inv, Step, Shape, Matches, ParseAll, AllButLastEnded;
      StepKeepsShape(s, es[0]);
      StepParses(s, es[0], ps);
      StepKeepsInv(s, es[0]);
      if es[0].DataReceived? { ParseEnded(s.parsing, es[0].callbacks, ps); }
      RunEnded(Step(s, es[0]), es[1..], if es[0].DataReceived? then ParseAll(ps, es[0].callbacks) else ps);
    }
  }
}
