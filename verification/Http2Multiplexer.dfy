/** The invariant of the HTTP/2 connection: every frame, every step of an application and every way of ending
    keeps the map of streams, the request count, the drain, read backpressure and the keep-alive timer in step. */
module Http2Multiplexer {
  import opened Text
  import opened Http2Spec
  import opened Http2Streams
  import Flow

  predicate StreamOk(c: Cycle) {
    && OutOk(c.out)
    && (c.phase != Ended ==> Unreset(c.out))
    && (c.onResponse <==> !c.out.complete && c.phase != Ended)
    && (c.peerReset ==> c.disconnected)
  }

  predicate StreamsOk(s: Conn) { forall id :: id in s.streams ==> StreamOk(s.streams[id]) }

  function Pending(s: Conn): set<nat> { set id | id in s.streams && s.streams[id].onResponse }

  /** The map holds exactly the streams not completed, not reset by the peer and not finished by their task. */
  ghost predicate MapOk(s: Conn) {
    forall id :: id in s.cycles <==> id in s.streams && s.streams[id].onResponse && !s.streams[id].peerReset
  }

  /** Every request seen is counted once its `on_response` fires, and each fires once. */
  predicate CountOk(s: Conn) { s.total + |Pending(s)| == |s.streams| }

  predicate FlowOk(s: Conn) {
    && Flow.Mirrors(s.flow)
    && (forall id :: id in s.cycles ==> Overfull(s, id) ==> s.flow.paused)
  }

  /** What `OnStreamClosed` restores after a stream leaves the map. */
  predicate Drained(s: Conn) {
    && (s.shutdownRequested && s.cycles == {} ==> s.closing)
    && (!s.closing && s.cycles == {} ==> !s.flow.paused)
  }

  predicate TimerOk(s: Conn) { s.timer == Fired ==> s.closing }

  ghost predicate Core(s: Conn) { StreamsOk(s) && MapOk(s) && CountOk(s) && FlowOk(s) && TimerOk(s) }

  ghost predicate Inv(s: Conn) { Core(s) && Drained(s) }

  /** Between reads an open, empty connection has its keep-alive timer armed. */
  predicate Rested(s: Conn) { s.hasRead && !s.closing && s.cycles == {} ==> s.timer == Armed }

  // ---------- closing a stream ----------

  lemma ResumeOk(s: Conn)
    requires FlowOk(s)
    ensures var t := ResumeIfIdle(s); FlowOk(t) && t == s.(flow := t.flow)
    ensures s.cycles == {} || !s.flow.paused ==> !ResumeIfIdle(s).flow.paused
  {
    Flow.StillMirrors(s.flow);
    if exists id :: id in s.cycles && Overfull(s, id) {} else {}
  }

  lemma Untouched(s: Conn, t: Conn)
    requires Core(s) && t.streams == s.streams && t.cycles == s.cycles && t.total == s.total
    requires FlowOk(t) && TimerOk(t)
    ensures Core(t) && Pending(t) == Pending(s)
  {
  }

  lemma StreamClosed(s: Conn)
    requires Core(s)
    ensures var t := OnStreamClosed(s);
            Core(t) && (s.closing || (Drained(t) && (!t.closing && t.cycles == {} ==> t.timer == Armed)))
    ensures var t := OnStreamClosed(s);
            t == s.(flow := t.flow, timer := t.timer, closing := t.closing) && (s.closing ==> t == s)
  {
    hide StreamsOk, MapOk, CountOk, FlowOk, ResumeIfIdle;
    ResumeOk(s);
    var t := OnStreamClosed(s);
    if s.closing {} else { FlowKept(ResumeIfIdle(s), t); }
    Untouched(s, t);
  }

  lemma FlowKept(s: Conn, t: Conn)
    requires FlowOk(s) && t.streams == s.streams && t.cycles == s.cycles && t.flow == s.flow
    ensures FlowOk(t)
  {
  }

  lemma ClosingDrains(s: Conn)
    requires s.closing
    ensures Drained(s) && Rested(s) && TimerOk(s)
  {
  }

  // ---------- changing one stream ----------

  lemma Put(s: Conn, id: nat, d: Cycle, t: Conn)
    requires StreamsOk(s) && id in s.streams && StreamOk(d) && t.streams == s.streams[id := d]
    ensures StreamsOk(t) && |t.streams| == |s.streams|
    ensures Pending(t) == if d.onResponse then Pending(s) + {id} else Pending(s) - {id}
  {
    hide StreamOk;
    assert t.streams.Keys == s.streams.Keys;
    assert |t.streams| == |t.streams.Keys| == |s.streams|;
  }

  lemma FlowPut(s: Conn, id: nat, d: Cycle, t: Conn)
    requires FlowOk(s) && id in s.streams && t.streams == s.streams[id := d] && t.cycles <= s.cycles
    requires Flow.Mirrors(t.flow) && (t.flow == s.flow || t.flow.paused)
    requires id in t.cycles && |d.body| > Flow.HIGH_WATER_LIMIT ==> t.flow.paused || |s.streams[id].body| >= |d.body|
    ensures FlowOk(t)
  {
    hide Flow.Mirrors;
    forall k | k in t.cycles && Overfull(t, k) ensures t.flow.paused {
      if k == id { assert id in s.cycles; } else { assert Overfull(s, k); }
    }
  }

  lemma MapPut(s: Conn, id: nat, d: Cycle, t: Conn)
    requires MapOk(s) && id in s.streams && t.streams == s.streams[id := d]
    requires t.cycles == if d.onResponse && !d.peerReset then s.cycles else s.cycles - {id}
    requires d.onResponse && !d.peerReset ==> id in s.cycles
    ensures MapOk(t)
  {
    forall k ensures k in t.cycles <==> k in t.streams && t.streams[k].onResponse && !t.streams[k].peerReset {
      if k == id {} else { assert k in t.cycles <==> k in s.cycles; }
    }
  }

  /** A stream that stays in or out of the map, and whose buffer does not outgrow the limit unpaused. */
  lemma Changed(s: Conn, id: nat, d: Cycle, t: Conn)
    requires Core(s) && id in s.streams && StreamOk(d)
    requires d.onResponse == s.streams[id].onResponse && d.peerReset == s.streams[id].peerReset
    requires t == s.(streams := s.streams[id := d], flow := t.flow) && Flow.Mirrors(t.flow)
    requires t.flow == s.flow || t.flow.paused
    requires id in s.cycles && |d.body| > Flow.HIGH_WATER_LIMIT ==> t.flow.paused || |s.streams[id].body| >= |d.body|
    ensures Core(t)
  {
    hide StreamOk, Flow.Mirrors;
    Put(s, id, d, t);
    FlowPut(s, id, d, t);
    assert Pending(t) == Pending(s);
    assert id in s.cycles <==> d.onResponse && !d.peerReset;
    hide StreamsOk, FlowOk, Pending, MapOk;
    if d.onResponse && !d.peerReset {} else { assert s.cycles == s.cycles - {id}; }
    MapPut(s, id, d, t);
  }

  /** A stream leaves the map and, unless the peer reset it, is counted. */
  lemma Left(s: Conn, id: nat, d: Cycle, t: Conn)
    requires Core(s) && id in s.streams && StreamOk(d)
    requires s.streams[id].onResponse && (d.onResponse ==> d.peerReset)
    requires |d.body| <= |s.streams[id].body|
    requires t == s.(streams := s.streams[id := d], cycles := s.cycles - {id},
                     total := if d.onResponse then s.total else s.total + 1)
    ensures Core(t)
  {
    hide StreamOk, Flow.Mirrors;
    Put(s, id, d, t);
    assert Flow.Mirrors(s.flow);
    FlowPut(s, id, d, t);
    assert id in Pending(s);
    assert Pending(t) == if d.onResponse then Pending(s) else Pending(s) - {id};
    hide StreamsOk, FlowOk, Pending, MapOk;
    MapPut(s, id, d, t);
  }

  /** Once a stream is out of the map the rest is `OnStreamClosed`. */
  lemma Closes(s: Conn)
    requires Core(s)
    ensures Inv(OnStreamClosed(s)) && Rested(OnStreamClosed(s))
  {
    hide Core, OnStreamClosed;
    StreamClosed(s);
    if s.closing { ClosingDrains(s); }
  }

  // ---------- the steps of an application ----------

  /** `OnStreamClosed` looks at the map and the buffers only. */
  lemma PhaseIgnored(s: Conn, id: nat, d: Cycle)
    requires id in s.streams && d.body == s.streams[id].body
    ensures OnStreamClosed(s).streams == s.streams
    ensures OnStreamClosed(s).(streams := s.streams[id := d]) == OnStreamClosed(s.(streams := s.streams[id := d]))
  {
    var t := s.(streams := s.streams[id := d]);
    forall k ensures Overfull(t, k) <==> Overfull(s, k) { if k == id {} else {} }
    hide Overfull;
    if exists k :: k in s.cycles && Overfull(s, k) { } else { }
    assert ResumeIfIdle(t) == ResumeIfIdle(s).(streams := t.streams);
  }

  function Retired(s: Conn, id: nat): Conn
    requires id in s.streams
  {
    s.(total := s.total + 1, cycles := s.cycles - {id},
       streams := s.streams[id := s.streams[id].(onResponse := false, phase := Ended)])
  }

  lemma FinishIs(s: Conn, id: nat)
    requires id in s.streams
    ensures Finish(s, id) == if s.streams[id].onResponse then OnStreamClosed(Retired(s, id))
                             else s.(streams := s.streams[id := s.streams[id].(phase := Ended)])
  {
    hide OnStreamClosed;
    var c := s.streams[id];
    if c.onResponse {
      var s1 := s.(total := s.total + 1, cycles := s.cycles - {id},
          streams := s.streams[id := c.(onResponse := false)]);
      var d := c.(onResponse := false, phase := Ended);
      PhaseIgnored(s1, id, d);
      assert s1.streams[id := d] == s.streams[id := d];
      assert s1.(streams := s1.streams[id := d]) == Retired(s, id);
    }
  }

  lemma Ending(c: Cycle)
    requires StreamOk(c)
    ensures StreamOk(c.(onResponse := false, phase := Ended))
  {
  }

  /** The task of a stream ends, having possibly changed its cycle to `c` just before. */
  lemma FinishOk(s: Conn, id: nat, c: Cycle)
    requires Inv(s) && Rested(s) && id in s.streams
    requires StreamOk(c.(onResponse := false, phase := Ended))
    requires var b := s.streams[id]; c.body == b.body && c.onResponse == b.onResponse && c.peerReset == b.peerReset
    ensures var t := Finish(s.(streams := s.streams[id := c]), id); Inv(t) && Rested(t)
  {
    hide StreamOk, StreamsOk, MapOk, CountOk, FlowOk, TimerOk, OnStreamClosed, Finish;
    var s1 := s.(streams := s.streams[id := c]);
    FinishIs(s1, id);
    var d := c.(onResponse := false, phase := Ended);
    assert s1.streams[id := d] == s.streams[id := d];
    if c.onResponse {
      Left(s, id, d, Retired(s1, id));
      Closes(Retired(s1, id));
    } else {
      assert d == c.(phase := Ended);
      MirrorsOf(s);
      Changed(s, id, d, Finish(s1, id));
    }
  }

  lemma FinishPlain(s: Conn, id: nat)
    requires Inv(s) && Rested(s) && id in s.streams
    ensures Inv(Finish(s, id)) && Rested(Finish(s, id))
  {
    hide StreamOk, StreamsOk, MapOk, CountOk, FlowOk, TimerOk, Drained, Finish;
    StreamOf(s, id);
    Ending(s.streams[id]);
    FinishOk(s, id, s.streams[id]);
    assert s.(streams := s.streams[id := s.streams[id]]) == s;
  }

  lemma StreamOf(s: Conn, id: nat)
    requires StreamsOk(s) && id in s.streams
    ensures StreamOk(s.streams[id])
  {
  }

  lemma MirrorsOf(s: Conn)
    requires FlowOk(s)
    ensures Flow.Mirrors(s.flow)
  {
  }

  /** A step that touches neither the map, the buffers, the flow nor the timer. */
  lemma Minor(s: Conn, id: nat, d: Cycle)
    requires Inv(s) && Rested(s) && id in s.streams && StreamOk(d)
    requires var c := s.streams[id]; |d.body| <= |c.body| && d.onResponse == c.onResponse && d.peerReset == c.peerReset
    ensures var t := s.(streams := s.streams[id := d]); Inv(t) && Rested(t)
  {
    hide StreamOk, StreamsOk, MapOk, CountOk, FlowOk, TimerOk;
    MirrorsOf(s);
    Changed(s, id, d, s.(streams := s.streams[id := d]));
  }

  lemma SendCompletes(c: Out, m: Message)
    requires OutOk(c)
    ensures var r := Send(c, m);
            && (r.out.complete && !r.raised ==> !c.complete)
            && (!r.out.complete || r.raised ==> r.out.complete == c.complete)
  {
    hide LastLength, Gather, Clean, Orderly;
  }

  lemma SendStreamOk(c: Cycle, m: Message)
    requires StreamOk(c) && c.phase != Ended
    ensures var r := Send(c.out, m); var done := r.out.complete && !r.raised;
            && StreamOk(c.(out := r.out, eventSet := c.eventSet || done, onResponse := c.onResponse && !done))
            && (done ==> c.onResponse)
  {
    hide Send, OutOk, Unreset;
    SendOk(c.out, m);
    SendCompletes(c.out, m);
  }

  function Answered(s: Conn, id: nat, out: Out): Conn
    requires id in s.streams
  {
    s.(total := s.total + 1, cycles := s.cycles - {id},
       streams := s.streams[id := s.streams[id].(out := out, eventSet := true, onResponse := false)])
  }

  lemma AppSendsIs(s: Conn, id: nat, m: Message)
    requires id in s.streams && !s.streams[id].disconnected && s.streams[id].onResponse
    requires var r := Send(s.streams[id].out, m); r.out.complete && !r.raised
    ensures AppSends(s, id, m) == OnStreamClosed(Answered(s, id, Send(s.streams[id].out, m).out))
  {
    hide Send, OnStreamClosed;
    var c := s.streams[id];
    var out := Send(c.out, m).out;
    assert s.streams[id := c.(out := out, eventSet := true)][id := c.(out := out, eventSet := true,
        onResponse := false)]
        == Answered(s, id, out).streams;
  }

  /** A message that does not complete the response changes what its stream has sent. */
  lemma AppSendsPart(s: Conn, id: nat, m: Message)
    requires id in s.streams && !s.streams[id].disconnected
    requires var r := Send(s.streams[id].out, m); !(r.out.complete && !r.raised)
    ensures AppSends(s, id, m) == s.(streams := s.streams[id := s.streams[id].(out := Send(s.streams[id].out, m).out)])
  {
    hide Send;
  }

  lemma AppSendsOk(s: Conn, id: nat, m: Message)
    requires Inv(s) && Rested(s) && id in s.streams && s.streams[id].phase != Ended
    ensures var t := AppSends(s, id, m); Inv(t) && Rested(t)
    ensures var t := AppSends(s, id, m); t.streams.Keys == s.streams.Keys && t.streams[id].phase == s.streams[id].phase
  {
    hide StreamOk, StreamsOk, MapOk, CountOk, FlowOk, TimerOk, Drained, OnStreamClosed, Send, Respond;
    var c := s.streams[id];
    if !c.disconnected {
      hide AppSends;
      StreamOf(s, id);
      SendStreamOk(c, m);
      var r := Send(c.out, m);
      if r.out.complete && !r.raised {
        AppSendsIs(s, id, m);
        var t := Answered(s, id, r.out);
        Left(s, id, t.streams[id], t);
        Closes(t);
        PhaseIgnored(t, id, t.streams[id]);
      } else {
        AppSendsPart(s, id, m);
        Minor(s, id, c.(out := r.out));
      }
    }
  }

  lemma ResetOk(c: Out)
    requires OutOk(c) && Unreset(c)
    ensures OutOk(c.(calls := c.calls + [Reset]))
  {
    var d := c.(calls := c.calls + [Reset]);
    FollowOne(c.calls, Reset);
    hide Follow, Concat;
    assert Follow(d.calls) == Follow(c.calls).(reset := true);
    if Clean(c) {} else {}
  }

  lemma AbortOk(c: Cycle)
    requires StreamOk(c) && c.phase != Ended
    ensures StreamOk(c.(out := c.out.(calls := c.out.calls + [Reset]), disconnected := true, onResponse := false,
        phase := Ended))
  {
    hide OutOk, Unreset;
    ResetOk(c.out);
  }

  lemma AppEndsOk(s: Conn, id: nat, how: Outcome)
    requires Inv(s) && Rested(s) && InPhase(s, id, Running)
    ensures var t := AppEnds(s, id, how); Inv(t) && Rested(t)
  {
    hide StreamOk, StreamsOk, MapOk, CountOk, FlowOk, TimerOk, Drained, Finish;
    var c := s.streams[id];
    StreamOf(s, id);
    if (how == Raised && !c.out.started) || (how == ReturnedNone && !c.out.started && !c.disconnected) {
      assert StreamOk(c.(phase := Starting500)) by { PhaseOk(c, Starting500); }
      Minor(s, id, c.(phase := Starting500));
    } else if how == ReturnedNone && (c.out.complete || c.disconnected) {
      FinishPlain(s, id);
    } else if s.closing {
      FinishPlain(s, id);
    } else {
      AbortOk(c);
      FinishOk(s, id, c.(out := c.out.(calls := c.out.calls + [Reset]), disconnected := true));
    }
  }

  lemma PhaseOk(c: Cycle, p: Phase)
    requires StreamOk(c) && c.phase != Ended && p != Ended
    ensures StreamOk(c.(phase := p))
  {
  }

  lemma Sends500Ok(s: Conn, id: nat)
    requires Inv(s) && Rested(s) && InPhase(s, id, Starting500)
    ensures var t := Step(s, Sends500(id)); Inv(t) && Rested(t)
  {
    hide StreamOk, StreamsOk, MapOk, CountOk, FlowOk, TimerOk, Drained, Finish, Send;
    AppSendsOk(s, id, START_500);
    hide AppSends;
    var s1 := AppSends(s, id, START_500);
    if SendRaises(s, id, START_500) {
      FinishPlain(s1, id);
    } else {
      StreamOf(s1, id);
      PhaseOk(s1.streams[id], Finishing500);
      Minor(s1, id, s1.streams[id].(phase := Finishing500));
    }
  }

  lemma ReceiveOk(c: Cycle, eventSet: bool, receiving: bool, body: Bytes)
    requires StreamOk(c)
    ensures StreamOk(c.(eventSet := eventSet, receiving := receiving, body := body))
  {
  }

  lemma ReceiveBeginOk(s: Conn, id: nat)
    requires Inv(s) && Rested(s) && id in s.streams
    ensures var t := ReceiveBegin(s, id); Inv(t) && Rested(t)
  {
    hide StreamOk, StreamsOk, MapOk, CountOk, FlowOk, TimerOk, ResumeIfIdle;
    var c := s.streams[id];
    if c.disconnected || c.out.complete {
    } else {
      StreamOf(s, id);
      ReceiveOk(c, c.eventSet, true, c.body);
      var t := s.(streams := s.streams[id := c.(receiving := true)]);
      Minor(s, id, c.(receiving := true));
      ResumeOk(t);
      assert TimerOk(ResumeIfIdle(t)) by { SameTimer(t, ResumeIfIdle(t)); }
      Untouched(t, ResumeIfIdle(t));
    }
  }

  lemma SameTimer(s: Conn, t: Conn)
    requires TimerOk(s) && t.timer == s.timer && t.closing == s.closing
    ensures TimerOk(t)
  {
  }

  lemma ReceiveEndOk(s: Conn, id: nat)
    requires Inv(s) && Rested(s) && id in s.streams
    ensures var t := ReceiveEnd(s, id); Inv(t) && Rested(t)
  {
    hide StreamOk, StreamsOk, MapOk, CountOk, FlowOk, TimerOk, Drained;
    var c := s.streams[id];
    var body := if c.disconnected || c.out.complete then c.body else "";
    StreamOf(s, id);
    ReceiveOk(c, false, false, body);
    Minor(s, id, c.(eventSet := false, receiving := false, body := body));
  }

  // ---------- frames ----------

  lemma AddedCount(s: Conn, id: nat, c: Cycle, t: Conn)
    requires CountOk(s) && id !in s.streams && c.onResponse
        && t == s.(streams := s.streams[id := c], cycles := t.cycles)
    ensures CountOk(t)
  {
    assert t.streams.Keys == s.streams.Keys + {id};
    assert |t.streams| == |t.streams.Keys| == |s.streams| + 1;
    assert Pending(t) == Pending(s) + {id};
    assert id !in Pending(s);
  }

  lemma AddedMap(s: Conn, id: nat, c: Cycle, t: Conn)
    requires MapOk(s) && id !in s.streams && c.onResponse && !c.peerReset
    requires t.streams == s.streams[id := c] && t.cycles == s.cycles + {id}
    ensures MapOk(t) && id in t.cycles
  {
    forall k ensures k in t.cycles <==> k in t.streams && t.streams[k].onResponse && !t.streams[k].peerReset {
      if k == id {} else { assert k in t.cycles <==> k in s.cycles; }
    }
  }

  lemma AddedFlow(s: Conn, id: nat, c: Cycle, t: Conn)
    requires FlowOk(s) && MapOk(s) && id !in s.streams && c.body == ""
    requires t == s.(streams := s.streams[id := c], cycles := s.cycles + {id})
    ensures FlowOk(t)
  {
    hide Flow.Mirrors;
    forall k | k in t.cycles && Overfull(t, k) ensures t.flow.paused { assert k in s.cycles && Overfull(s, k); }
  }

  lemma Added(s: Conn, id: nat, c: Cycle)
    requires Inv(s) && id !in s.streams && StreamOk(c) && c.onResponse && !c.peerReset && c.body == ""
    ensures Inv(s.(streams := s.streams[id := c], cycles := s.cycles + {id}))
  {
    hide StreamOk;
    var t := s.(streams := s.streams[id := c], cycles := s.cycles + {id});
    assert StreamsOk(t);
    hide StreamsOk, CountOk, MapOk, FlowOk;
    AddedCount(s, id, c, t);
    AddedMap(s, id, c, t);
    AddedFlow(s, id, c, t);
  }

  /** A frame for a stream in the map that stays there. */
  lemma Filled(s: Conn, id: nat, d: Cycle, t: Conn)
    requires Inv(s) && id in s.cycles && id in s.streams && StreamOk(d)
    requires d.onResponse == s.streams[id].onResponse && d.peerReset == s.streams[id].peerReset
    requires t == s.(streams := s.streams[id := d], flow := t.flow) && Flow.Mirrors(t.flow)
    requires t.flow == s.flow || t.flow.paused
    requires |d.body| > Flow.HIGH_WATER_LIMIT ==> t.flow.paused || |s.streams[id].body| >= |d.body|
    ensures Inv(t)
  {
    hide StreamOk, StreamsOk, MapOk, CountOk, FlowOk, TimerOk;
    Changed(s, id, d, t);
  }

  lemma ResetByPeer(c: Cycle)
    requires StreamOk(c) && c.onResponse
    ensures !c.out.complete && StreamOk(c.(peerReset := true, disconnected := true, eventSet := true))
  {
  }

  lemma DataOk(c: Cycle, body: Bytes, moreBody: bool)
    requires StreamOk(c)
    ensures StreamOk(c.(body := body, moreBody := moreBody, eventSet := true))
  {
  }

  lemma MemberOf(s: Conn, id: nat)
    requires MapOk(s)
    ensures id in s.cycles <==> id in s.streams && s.streams[id].onResponse && !s.streams[id].peerReset
  {
  }

  lemma HandleOk(s: Conn, f: Frame)
    requires Inv(s) && (f.Request? ==> f.id !in s.streams)
    ensures Inv(Handle(s, f))
    ensures Handle(s, f).streams.Keys == s.streams.Keys + (if f.Request? then {f.id} else {})
  {
    hide StreamOk, StreamsOk, MapOk, CountOk, FlowOk, OnStreamClosed, NewOut;
    if f.Data? || f.EndOfMessage? || f.RstStream? {
      MemberOf(s, f.id);
      MirrorsOf(s);
      Flow.StillMirrors(s.flow);
      if f.id in s.streams { StreamOf(s, f.id); }
    }
    match f {
      case Request(id, isHead, wantsTrailers, defaults) =>
        NewOk(defaults, isHead, wantsTrailers);
        NewStreamOk(defaults, isHead, wantsTrailers);
        Added(s, id, NewCycle(NewOut(defaults, isHead, wantsTrailers)));
      case Data(id, data) =>
        if Live(s, id) {
          var c := s.streams[id];
          DataOk(c, c.body + data, c.moreBody);
          Filled(s, id, c.(body := c.body + data, eventSet := true), Handle(s, f));
        }
      case EndOfMessage(id) =>
        if Live(s, id) {
          var c := s.streams[id];
          DataOk(c, c.body, false);
          Filled(s, id, c.(moreBody := false, eventSet := true), Handle(s, f));
        }
      case RstStream(id) =>
        if id in s.cycles {
          var c := s.streams[id];
          ResetByPeer(c);
          var d := c.(peerReset := true, disconnected := true, eventSet := true);
          var t := s.(cycles := s.cycles - {id}, streams := s.streams[id := d]);
          Left(s, id, d, t);
          Closes(t);
          PhaseIgnored(t, id, d);
        }
      case GoAway =>
        assert FlowOk(Handle(s, f)) by { FlowKept(s, Handle(s, f)); }
        Untouched(s, Handle(s, f));
      case OtherFrame =>
    }
  }

  lemma NewStreamOk(defaults: seq<(Bytes, Bytes)>, isHead: bool, wantsTrailers: bool)
    ensures StreamOk(NewCycle(NewOut(defaults, isHead, wantsTrailers)))
  {
    NewOk(defaults, isHead, wantsTrailers);
  }

  lemma FreshTail(used: set<nat>, frames: seq<Frame>)
    requires frames != [] && FreshIds(used, frames)
    ensures var f := frames[0];
            && (f.Request? ==> f.id !in used)
            && FreshIds(used + (if f.Request? then {f.id} else {}), frames[1..])
  {
    assert used + {} == used;
  }

  lemma {:induction false} HandleAllOk(s: Conn, frames: seq<Frame>)
    requires Inv(s) && FreshIds(s.streams.Keys, frames)
    ensures Inv(HandleAll(s, frames))
    decreases |frames|
  {
    if frames != [] {
      hide Inv, Handle, FreshIds;
      FreshTail(s.streams.Keys, frames);
      HandleOk(s, frames[0]);
      HandleAllOk(Handle(s, frames[0]), frames[1..]);
    }
  }

  lemma FeedOk(s: Conn, frames: seq<Frame>, broken: bool)
    requires Inv(s) && FreshIds(s.streams.Keys, frames)
    ensures var t := Feed(s, frames, broken); Inv(t) && Rested(t)
  {
    hide StreamsOk, MapOk, CountOk, FlowOk, HandleAll, FreshIds;
    var s0 := s.(timer := NoTimer);
    FlowKept(s, s0);
    Untouched(s, s0);
    HandleAllOk(s0, frames);
    var s1 := HandleAll(s0, frames);
    var t := Feed(s, frames, broken);
    FlowKept(s1, t);
    Untouched(s1, t);
  }

  // ---------- ending the connection ----------

  /** A step that touches no stream and no flow. */
  lemma OnlyFlags(s: Conn, t: Conn)
    requires Inv(s) && Rested(s)
    requires t == s.(closing := t.closing, shutdownRequested := t.shutdownRequested, timer := t.timer)
    requires t.closing || (t.timer == s.timer && !s.closing && (t.shutdownRequested ==> t.cycles != {}))
    ensures Inv(t) && Rested(t)
  {
    hide StreamsOk, MapOk, CountOk, FlowOk;
    FlowKept(s, t);
    Untouched(s, t);
  }

  lemma LostOk(c: Cycle)
    requires StreamOk(c)
    ensures StreamOk(Lost(c))
  {
  }

  lemma LoseOk(s: Conn)
    requires Inv(s)
    ensures var t := Lose(s); Inv(t) && Rested(t) && t.streams.Keys == s.streams.Keys
  {
    hide StreamOk, Flow.Mirrors;
    var t := Lose(s);
    forall id | id in t.streams ensures StreamOk(t.streams[id]) { LostOk(s.streams[id]); }
    assert t.streams.Keys == s.streams.Keys;
    assert |t.streams| == |t.streams.Keys| == |s.streams|;
    assert Pending(t) == Pending(s);
    hide Pending;
    forall k | k in t.cycles && Overfull(t, k) ensures t.flow.paused { assert Overfull(s, k); }
    forall k ensures k in t.cycles <==> k in t.streams && t.streams[k].onResponse && !t.streams[k].peerReset {
      assert k in t.cycles <==> k in s.cycles;
    }
    ClosingDrains(t);
  }

  // ---------- steps and runs ----------

  lemma StepKeepsInv(s: Conn, e: Event)
    requires Inv(s) && Rested(s) && Enabled(s, e)
    ensures Inv(Step(s, e)) && Rested(Step(s, e))
  {
    hide Inv, Rested, FreshIds, Feed, AppSends, AppEnds, Finish, ReceiveBegin, ReceiveEnd, Lose, SendRaises;
    match e {
      case DataReceived(frames, broken) => FeedOk(s, frames, broken);
      case ReceiveBegins(id) => ReceiveBeginOk(s, id);
      case ReceiveEnds(id) => ReceiveEndOk(s, id);
      case AppSent(id, m) => AppSendsOk(s, id, m);
      case AppEnded(id, how) => AppEndsOk(s, id, how);
      case Sends500(id) => Sends500Ok(s, id);
      case Ends500(id) =>
        AppSendsOk(s, id, BODY_500);
        FinishPlain(AppSends(s, id, BODY_500), id);
      case TimerFires => OnlyFlags(s, Step(s, e));
      case Shutdown => OnlyFlagsShutdown(s);
      case ConnectionLost => LoseOk(s);
    }
  }

  lemma OnlyFlagsShutdown(s: Conn)
    requires Inv(s) && Rested(s)
    ensures Inv(DoShutdown(s)) && Rested(DoShutdown(s))
  {
    hide StreamsOk, MapOk, CountOk, FlowOk;
    OnlyFlags(s, DoShutdown(s));
  }
}
