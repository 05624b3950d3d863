/** What every step of an HTTP/1.1 connection keeps: one response at a time, in request order,
    with nothing of the request bodies lost. */
module Http1Pipeline {
  import opened Text
  import opened Http1Wire
  import opened Http1Spec
  import Flow

  // ---------- one cycle ----------

  function Interim(c: Cycle): Bytes { if c.continued then CONTINUE else "" }

  /** An accepted start message: what it wrote and what framing it chose follow from its headers. */
  predicate StartOk(isHead: bool, a: Accepted) {
    var sc := ScanFields(Scan(None, 0, a.keepAlive, false, [], false), a.input);
    && 100 <= a.status < 600 && OneLine(a.reason) && !sc.failed
    && a.head == Head(a.status, a.reason, HeadFields(isHead, a.status, sc))
    && a.chunked == (if DefaultsToChunked(isHead, a.status, sc) then Some(true) else sc.chunked)
    && a.declared == sc.remaining
  }

  /** The bytes after the head. */
  function Payload(c: Cycle): Bytes {
    if c.isHead then ""
    else if c.chunked == Some(true) then Chunks(c.bodies) + (if c.complete then LAST_CHUNK else "")
    else Concat(c.bodies)
  }

  predicate AcceptedOk(c: Cycle, a: Accepted) {
    && c.chunked == a.chunked
    && c.wire == Interim(c) + a.head + Payload(c)
    && (!c.isHead ==>
          if c.chunked == Some(true) then c.remaining == 0 else c.remaining + |Concat(c.bodies)| == a.declared)
    && (c.complete && !c.isHead ==> c.remaining == 0)
  }

  /** After a refused start message, bodies are written without a head. */
  predicate RefusedOk(c: Cycle) {
    c.wire == Interim(c) + Payload(c) && (!c.isHead && c.chunked == Some(true) ==> c.remaining == 0)
  }

  predicate ResponseOk(c: Cycle) {
    && (c.waiting100 ==> !c.started && !c.continued)
    && (c.complete ==> c.started)
    && (!c.started ==>
          c.chunked.None? && c.remaining == 0 && c.accepted.None? && c.bodies == [] && c.wire == Interim(c))
    && (c.accepted.Some? ==> c.started && StartOk(c.isHead, c.accepted.value) && AcceptedOk(c, c.accepted.value))
    && (c.accepted.None? && c.started ==> RefusedOk(c))
  }

  /** `open`: the parser is still inside this request. */
  predicate RequestOk(c: Cycle, open: bool) {
    && (!c.complete ==> c.delivered == c.returned + c.body && (c.moreBody <==> open))
    && (!c.moreBody ==> !open)
    && (!c.complete && !c.disconnected && c.body != "" ==> c.eventSet)
    && c.finals <= 1
    && (c.finals == 1 ==> !c.moreBody && c.returned == c.delivered && c.body == "")
    && (!c.complete && !c.disconnected && !c.moreBody ==> (c.finals == 0 <==> c.eventSet))
  }

  predicate CycleOk(c: Cycle, open: bool) {
    ResponseOk(c) && RequestOk(c, open) && (c.phase != Ended ==> c.onResponse)
  }

  predicate Untouched(c: Cycle) {
    c.phase == Queued && !c.started && !c.complete && !c.receiving && !c.continued && c.returned == ""
        && c.finals == 0 && c.wire == ""
  }

  /** The part of a cycle that sending never touches. */
  predicate SameRequest(c: Cycle, d: Cycle) {
    && d.body == c.body && d.moreBody == c.moreBody && d.delivered == c.delivered && d.returned == c.returned
    && d.finals == c.finals && d.disconnected == c.disconnected && d.phase == c.phase && d.receiving == c.receiving
    && d.onResponse == c.onResponse && d.isHead == c.isHead && d.continued == c.continued
  }

  lemma NothingPaid(c: Cycle)
    requires c.bodies == [] && !c.complete
    ensures Payload(c) == "" && Interim(c) + Payload(c) == Interim(c)
  {
  }

  lemma CommitStartOk(c: Cycle, status: nat, reason: Bytes, input: seq<Field>, sc: Scan)
    requires ResponseOk(c) && !c.started
    requires sc.chunked != Some(false) ==> sc.remaining == 0
    requires sc.keepAlive ==> c.keepAlive
    requires !sc.failed ==> 100 <= status < 600 && OneLine(reason)
    requires sc == ScanFields(Scan(None, 0, c.keepAlive, false, [], false), input)
    ensures var r := CommitStart(c, status, reason, input, sc);
            && SameRequest(c, r.cycle) && ResponseOk(r.cycle) && r.cycle.wire == c.wire + r.wrote
            && !r.cycle.complete && r.cycle.eventSet == c.eventSet && (r.cycle.keepAlive ==> c.keepAlive)
  {
    hide ScanFields, Head, HeadFields, OneLine, Payload;
    var r := CommitStart(c, status, reason, input, sc);
    NothingPaid(r.cycle);
    if !sc.failed {
      assert c.wire + r.wrote + "" == c.wire + r.wrote;
    } else {
      assert c.wire + "" == c.wire;
    }
  }

  lemma SendStartOk(c: Cycle, status: nat, reason: Bytes, headers: seq<Field>)
    requires ResponseOk(c) && !c.started && OneLine(reason)
    ensures var r := SendStart(c, status, reason, headers);
            && SameRequest(c, r.cycle) && ResponseOk(r.cycle) && r.cycle.wire == c.wire + r.wrote
            && !r.cycle.complete && r.cycle.eventSet == c.eventSet && (r.cycle.keepAlive ==> c.keepAlive)
            && !r.close && !r.respond
  {
    hide ScanFields, Head, HeadFields, OneLine, Payload;
    if 100 <= status < 600 {
      var input := c.defaults + headers;
      var sc0 := Scan(None, 0, c.keepAlive, false, [], false);
      ScanFacts(sc0, input);
      CommitStartOk(c, status, reason, input, ScanFields(sc0, input));
    } else {
      assert c.wire + "" == c.wire;
      NothingPaid(c.(started := true, waiting100 := false));
    }
  }

  lemma {:induction false} ScanFacts(sc: Scan, hs: seq<Field>)
    requires sc.chunked != Some(false) && sc.remaining == 0
    ensures var r := ScanFields(sc, hs);
            && (r.chunked != Some(false) ==> r.remaining == 0)
            && (r.keepAlive ==> sc.keepAlive)
  {
    hide PyInt, ValidField, HasToken, Lower;
    if hs != [] { ScanFacts(sc, hs[..|hs| - 1]); }
  }

  lemma SendBodyOk(c: Cycle, body: Bytes, more: bool)
    requires ResponseOk(c) && c.started && !c.complete
    ensures var r := SendBody(c, body, more);
            && SameRequest(c, r.cycle) && ResponseOk(r.cycle) && r.cycle.wire == c.wire + r.wrote
            && r.cycle.keepAlive == c.keepAlive
            && if r.cycle.complete then r.cycle.eventSet && (r.close <==> !c.keepAlive) && (r.respond <==> c.onResponse)
               else r.cycle.eventSet == c.eventSet && !r.close && !r.respond
  {
    hide StartOk, AcceptedOk, RefusedOk, Chunk, Interim;
    var r := SendBody(c, body, more);
    if r.cycle == c {
      assert c.wire + "" == c.wire;
    } else if c.accepted.Some? {
      SendBodyAccepted(c, body, more);
    } else {
      SendBodyRefused(c, body, more);
    }
  }

  lemma SendBodyRefused(c: Cycle, body: Bytes, more: bool)
    requires c.started && !c.complete && SendBody(c, body, more).cycle != c && RefusedOk(c)
    ensures RefusedOk(SendBody(c, body, more).cycle)
  {
    hide Chunk, Chunks, Concat, Payload, Interim, SendBody;
    PayloadGrows(c, body, more);
    SendBodyFacts(c, body, more);
    var r := SendBody(c, body, more);
    InterimKept(c, r.cycle);
    Assoc(Interim(c), Payload(c), r.wrote);
  }

  lemma SendBodyAccepted(c: Cycle, body: Bytes, more: bool)
    requires c.started && !c.complete && SendBody(c, body, more).cycle != c
    requires c.accepted.Some? && AcceptedOk(c, c.accepted.value)
    ensures AcceptedOk(SendBody(c, body, more).cycle, c.accepted.value)
  {
    hide Chunk, Chunks, Concat, Payload, Interim, SendBody;
    PayloadGrows(c, body, more);
    SendBodyFacts(c, body, more);
    var r := SendBody(c, body, more);
    InterimKept(c, r.cycle);
    Assoc(Interim(c) + c.accepted.value.head, Payload(c), r.wrote);
  }

  /** An accepted body: what it leaves as it was, and what it charges against the length. */
  lemma SendBodyFacts(c: Cycle, body: Bytes, more: bool)
    requires c.started && !c.complete && SendBody(c, body, more).cycle != c
    ensures var r := SendBody(c, body, more); var d := r.cycle;
            && d.chunked == c.chunked && d.isHead == c.isHead && d.continued == c.continued
            && d.wire == c.wire + r.wrote && d.bodies == c.bodies + [body]
            && (!c.isHead ==>
                  d.remaining == if c.chunked == Some(true) then c.remaining else c.remaining - |body|)
            && (d.complete ==> d.remaining == 0)
  {
    hide Chunk;
  }

  lemma InterimKept(c: Cycle, d: Cycle)
    requires c.continued == d.continued
    ensures Interim(c) == Interim(d)
  {
  }

  lemma ChunksOne(bodies: seq<Bytes>, b: Bytes)
    ensures Chunks(bodies + [b]) == Chunks(bodies) + Chunk(b)
  {
    hide Chunk;
    assert (bodies + [b])[..|bodies|] == bodies;
  }

  lemma PayloadGrows(c: Cycle, body: Bytes, more: bool)
    requires c.started && !c.complete && SendBody(c, body, more).cycle != c
    requires !c.isHead && c.chunked == Some(true) ==> c.remaining == 0
    ensures var r := SendBody(c, body, more); Payload(r.cycle) == Payload(c) + r.wrote
    ensures Concat(c.bodies + [body]) == Concat(c.bodies) + body
  {
    hide Chunk;
    var r := SendBody(c, body, more);
    ConcatOne(c.bodies, body);
    ChunksOne(c.bodies, body);
    hide Chunks, Concat;
    var end := if more then "" else LAST_CHUNK;
    Assoc(Chunks(c.bodies), Chunk(body), end);
    Assoc("", "", "");
    Assoc(Chunks(c.bodies), "", "");
  }

  /** `send` keeps the cycle in order and reports exactly what it did to the wire and the response. */
  lemma SendOk(c: Cycle, m: Message, open: bool)
    requires CycleOk(c, open) && (m.ResponseStart? ==> OneLine(m.reason))
    ensures var r := Send(c, m);
            && CycleOk(r.cycle, open)
            && r.cycle.wire == c.wire + r.wrote
            && r.cycle.phase == c.phase && r.cycle.receiving == c.receiving
            && (r.cycle.keepAlive ==> c.keepAlive)
            && (c.complete ==> r.cycle == c && r.wrote == "" && !r.respond && !r.close)
            && (!r.cycle.complete ==> !r.respond && !r.close)
            && (!c.complete && r.cycle.complete ==> (r.close <==> !c.keepAlive) && (r.respond <==> c.onResponse))
  {
    hide SendStart, SendBody, StartOk, AcceptedOk, Interim, OneLine;
    if c.disconnected || (!c.started && !m.ResponseStart?) || c.complete || (c.started && !m.ResponseBody?) {
      assert c.wire + "" == c.wire;
    } else if !c.started {
      SendStartOk(c, m.status, m.reason, m.headers);
    } else {
      SendBodyOk(c, m.body, m.more);
    }
  }

  // ---------- the connection ----------

  function Wires(cs: seq<Cycle>): Bytes {
    if cs == [] then "" else Wires(cs[..|cs| - 1]) + cs[|cs| - 1].wire
  }

  /** How many cycles have been started. */
  function Started(s: Conn): int { |s.cycles| - |s.pipeline| }

  predicate Fifo(s: Conn) {
    var n := Started(s);
    && n >= 0
    && s.launched == seq(n, i => i)
    && (forall j :: 0 <= j < |s.pipeline| ==> s.pipeline[j] == |s.cycles| - 1 - j)
    && (forall k :: 0 <= k < n ==> s.cycles[k].phase != Queued)
    && (forall k :: n <= k < |s.cycles| ==> Untouched(s.cycles[k]))
    && (forall k :: 0 <= k < n - 1 ==> s.cycles[k].complete)
    && (n == 0 ==> s.cycles == [])
    && (s.pipeline != [] && s.cycles[n - 1].complete ==> s.closing)
  }

  predicate TimerOk(s: Conn) {
    && (s.timer == Armed ==> s.pipeline == [] && s.cycles != [] && s.cycles[|s.cycles| - 1].complete)
    && (s.timer == Fired ==> s.closing)
  }

  predicate ShutdownOk(s: Conn) {
    s.shutdownAt.Some? ==>
      var n := s.shutdownAt.value;
      && Started(s) <= n <= |s.cycles|
      && if n == 0 || s.cycles[n - 1].complete then s.closing else !s.cycles[n - 1].keepAlive
  }

  predicate CyclesOk(s: Conn) {
    forall k :: 0 <= k < |s.cycles| ==> CycleOk(s.cycles[k], s.parsing && k == |s.cycles| - 1)
  }

  ghost predicate Inv(s: Conn) {
    && Fifo(s) && TimerOk(s) && ShutdownOk(s) && CyclesOk(s)
    && s.wire == Wires(s.cycles)
    && Flow.Mirrors(s.flow)
    && (s.parsing ==> s.cycles != [])
  }

  lemma {:induction false} WiresUpdate(cs: seq<Cycle>, i: nat, c: Cycle, w: Bytes)
    requires i < |cs| && c.wire == cs[i].wire + w
    requires w != "" ==> forall k :: i < k < |cs| ==> cs[k].wire == ""
    ensures Wires(cs[i := c]) == Wires(cs) + w
  {
    var last := |cs| - 1;
    if i == last {
      assert cs[i := c][..last] == cs[..last];
      assert Wires(cs[..last]) + (cs[last].wire + w) == Wires(cs) + w;
    } else {
      WiresUpdate(cs[..last], i, c, w);
      assert cs[i := c][..last] == cs[..last][i := c];
      if w == "" { assert Wires(cs[..last]) + w == Wires(cs[..last]); }
    }
  }

  /** A step that only rewrites cycle `i`, keeping its place in the queue. */
  lemma UpdateCycle(s: Conn, i: nat, c: Cycle, w: Bytes)
    requires Inv(s) && i < Started(s)
    requires CycleOk(c, s.parsing && i == |s.cycles| - 1)
    requires c.phase != Queued && c.complete == s.cycles[i].complete
    requires c.keepAlive ==> s.cycles[i].keepAlive
    requires c.wire == s.cycles[i].wire + w && (w != "" ==> !c.complete)
    ensures Inv(s.(cycles := s.cycles[i := c], wire := s.wire + w))
  {
    hide ResponseOk, RequestOk, Wires;
    WiresUpdate(s.cycles, i, c, w);
  }

  lemma RunningIsStarted(s: Conn, i: nat)
    requires Inv(s) && i < |s.cycles| && s.cycles[i].phase != Queued
    ensures i < Started(s) && CycleOk(s.cycles[i], s.parsing && i == |s.cycles| - 1)
  {
  }

  lemma WithFlow(s: Conn, f: Flow.Reads)
    requires Inv(s) && Flow.Mirrors(f)
    ensures Inv(s.(flow := f))
  {
    hide CycleOk, Wires, Flow.Mirrors, Untouched;
  }

  lemma Closing(s: Conn)
    requires Inv(s)
    ensures Inv(s.(closing := true))
  {
    hide CycleOk, Wires;
  }

  /** Rewriting the request side of a cycle leaves its response in order. */
  lemma SameResponse(c: Cycle, d: Cycle)
    requires ResponseOk(c)
    requires d == c.(phase := d.phase, onResponse := d.onResponse, body := d.body, moreBody := d.moreBody,
                     eventSet := d.eventSet, delivered := d.delivered, returned := d.returned, finals := d.finals,
                     receiving := d.receiving, disconnected := d.disconnected, keepAlive := d.keepAlive)
    ensures ResponseOk(d) && d.wire + "" == c.wire == d.wire
  {
    hide StartOk, Chunks, Concat;
  }

  lemma PhaseOnly(c: Cycle, p: Phase, respond: bool, open: bool)
    requires CycleOk(c, open) && (p != Ended ==> respond)
    ensures CycleOk(c.(phase := p, onResponse := respond), open)
  {
    SameResponse(c, c.(phase := p, onResponse := respond));
    hide ResponseOk;
  }

  lemma KeepsEnd(s: Conn, i: nat)
    requires Inv(s) && i < Started(s)
    ensures Inv(End(s, i))
  {
    hide CycleOk, Wires;
    var c := s.cycles[i];
    PhaseOnly(c, Ended, false, s.parsing && i == |s.cycles| - 1);
    Assoc(c.wire, "", "");
    Assoc(s.wire, "", "");
    UpdateCycle(s, i, c.(phase := Ended, onResponse := false), "");
  }

  lemma BeginOk(c: Cycle, go: bool, open: bool)
    requires CycleOk(c, open) && (go ==> c.waiting100)
    ensures CycleOk(Begun(c, go), open) && (go ==> !c.complete)
  {
    var d := Begun(c, go);
    if go {
      Assoc(CONTINUE, "", "");
      hide StartOk, AcceptedOk;
    } else {
      Assoc(c.wire, "", "");
      assert d == c.(receiving := !c.disconnected && !c.complete);
      SameResponse(c, d);
      hide ResponseOk;
    }
  }

  lemma BegunFacts(c: Cycle, go: bool)
    ensures var d := Begun(c, go);
            && d.wire == c.wire + (if go then CONTINUE else "") && d.phase == c.phase && d.complete == c.complete
            && d.keepAlive == c.keepAlive
  {
  }

  lemma KeepsReceiveBegin(s: Conn, i: nat)
    requires Inv(s) && Enabled(s, ReceiveBegins(i))
    ensures Inv(ReceiveBegin(s, i))
  {
    hide CycleOk, Wires, Begun, Flow.Mirrors, Flow.Resume, Untouched;
    var c := s.cycles[i];
    var go := c.waiting100 && !s.closing;
    RunningIsStarted(s, i);
    BeginOk(c, go, s.parsing && i == |s.cycles| - 1);
    BegunFacts(c, go);
    UpdateCycle(s, i, Begun(c, go), if go then CONTINUE else "");
    Flow.StillMirrors(s.flow);
    hide Inv, Fifo, TimerOk, ShutdownOk, CyclesOk;
    WithFlow(s.(cycles := s.cycles[i := Begun(c, go)], wire := s.wire + (if go then CONTINUE else "")),
             if !c.disconnected && !c.complete then Flow.Resume(s.flow) else s.flow);
  }

  lemma EndOk(c: Cycle, open: bool)
    requires CycleOk(c, open) && c.eventSet
    ensures var d := c.(eventSet := false, receiving := false);
            CycleOk(if c.disconnected || c.complete then d
                    else d.(body := "", returned := d.returned + d.body,
                            finals := d.finals + if d.moreBody then 0 else 1), open)
  {
    var d := c.(eventSet := false, receiving := false);
    SameResponse(c, d);
    SameResponse(c, d.(body := "", returned := d.returned + d.body, finals := d.finals + if d.moreBody then 0 else 1));
    hide ResponseOk;
    Assoc(d.returned + d.body, "", "");
  }

  lemma KeepsReceiveEnd(s: Conn, i: nat)
    requires Inv(s) && Enabled(s, ReceiveEnds(i))
    ensures Inv(ReceiveEnd(s, i))
  {
    hide CycleOk, Wires;
    var c := s.cycles[i];
    EndOk(c, s.parsing && i == |s.cycles| - 1);
    Assoc(c.wire, "", "");
    Assoc(s.wire, "", "");
    UpdateCycle(s, i, ReceiveEnd(s, i).cycles[i], "");
  }

  /** What `send` may report about a cycle in place `i` (see SendOk). */
  ghost predicate Reported(s: Conn, i: nat, r: Sent)
    requires i < |s.cycles|
  {
    var c := s.cycles[i];
    && CycleOk(r.cycle, s.parsing && i == |s.cycles| - 1)
    && r.cycle.wire == c.wire + r.wrote
    && r.cycle.phase != Queued
    && (r.cycle.keepAlive ==> c.keepAlive)
    && (c.complete ==> r.cycle.complete && r.wrote == "" && !r.respond && !r.close)
    && (!r.cycle.complete ==> !r.respond && !r.close)
    && (!c.complete && r.cycle.complete ==> (r.close <==> !c.keepAlive) && r.respond)
  }

  lemma KeepsAfterSend(s: Conn, i: nat, r: Sent)
    requires Inv(s) && i < Started(s) && Reported(s, i, r)
    ensures Inv(AfterSend(s, i, r)) && i < Started(AfterSend(s, i, r))
    ensures AfterSend(s, i, r).cycles[i].phase == r.cycle.phase
  {
    hide CycleOk, Wires;
    if r.cycle.complete == s.cycles[i].complete {
      UpdateCycle(s, i, r.cycle, r.wrote);
    } else {
      KeepsCompletion(s, i, r);
    }
  }

  /** The response of the open cycle ends and no request is started: the transport is closing or none is queued. */
  lemma CompletedLast(s: Conn, i: nat, r: Sent)
    requires Inv(s) && i < Started(s) && Reported(s, i, r)
    requires !s.cycles[i].complete && r.cycle.complete && (s.closing || r.close || s.pipeline == [])
    ensures Inv(AfterSend(s, i, r))
  {
    hide CycleOk, Wires, Flow.Mirrors, Flow.Resume, Untouched;
    assert i == Started(s) - 1;
    WiresUpdate(s.cycles, i, r.cycle, r.wrote) by { WaitingAreSilent(s); }
    Flow.StillMirrors(s.flow);
    var s1 := s.(cycles := s.cycles[i := r.cycle], wire := s.wire + r.wrote, closing := s.closing || r.close,
                 total := s.total + 1);
    var t := AfterSend(s, i, r);
    if s1.closing {
      assert t == s1;
    } else {
      assert t == s1.(timer := Armed, flow := Flow.Resume(s.flow));
    }
    assert Fifo(t);
    assert CyclesOk(t);
  }

  lemma WaitingAreSilent(s: Conn)
    requires Inv(s)
    ensures forall k :: Started(s) <= k < |s.cycles| ==> s.cycles[k].wire == ""
  {
    hide CycleOk, Wires;
  }

  /** The response of the open cycle ends and the next queued request starts. */
  lemma CompletedNext(s: Conn, i: nat, r: Sent)
    requires Inv(s) && i < Started(s) && Reported(s, i, r)
    requires !s.cycles[i].complete && r.cycle.complete && !s.closing && !r.close && s.pipeline != []
    ensures Inv(AfterSend(s, i, r))
  {
    hide CycleOk, Wires, Flow.Mirrors, Flow.Resume, Untouched;
    var n := Started(s);
    assert i == n - 1;
    WiresUpdate(s.cycles, i, r.cycle, r.wrote) by { WaitingAreSilent(s); }
    Flow.StillMirrors(s.flow);
    var k := |s.pipeline| - 1;
    var t := s.(cycles := s.cycles[i := r.cycle], wire := s.wire + r.wrote, closing := false,
                total := s.total + 1, timer := NoTimer, flow := Flow.Resume(s.flow), pipeline := s.pipeline[..k]);
    assert s.pipeline[k] == n;
    assert AfterSend(s, i, r) == Launch(t, n);
    LaunchNext(t, n);
  }

  lemma CompletedShape(s: Conn, i: nat, r: Sent)
    requires Fifo(s) && i < Started(s) && s.cycles != []
    ensures Started(AfterSend(s, i, r)) >= Started(s) && i < |AfterSend(s, i, r).cycles|
    ensures AfterSend(s, i, r).cycles[i].phase == r.cycle.phase
  {
    hide Untouched, Flow.Resume;
    if s.pipeline != [] { assert s.pipeline[|s.pipeline| - 1] == Started(s); }
  }

  /** The response of the open cycle ends: the next queued request starts, or the timer does. */
  lemma KeepsCompletion(s: Conn, i: nat, r: Sent)
    requires Inv(s) && i < Started(s) && Reported(s, i, r)
    requires !s.cycles[i].complete && r.cycle.complete
    ensures Inv(AfterSend(s, i, r)) && Started(AfterSend(s, i, r)) >= Started(s)
    ensures AfterSend(s, i, r).cycles[i].phase == r.cycle.phase
  {
    hide Inv, Reported, AfterSend, Fifo;
    FifoOf(s);
    CompletedShape(s, i, r);
    if s.closing || r.close || s.pipeline == [] {
      CompletedLast(s, i, r);
    } else {
      CompletedNext(s, i, r);
    }
  }

  lemma FifoOf(s: Conn)
    requires Inv(s)
    ensures Fifo(s)
  {
  }

  /** All of the invariant except that the oldest waiting cycle `n` has not been started. */
  lemma LaunchNext(s: Conn, n: nat)
    requires n + |s.pipeline| + 1 == |s.cycles|
    requires s.launched == seq(n, i => i)
    requires forall j :: 0 <= j < |s.pipeline| ==> s.pipeline[j] == |s.cycles| - 1 - j
    requires forall k :: 0 <= k < n ==> s.cycles[k].phase != Queued && s.cycles[k].complete
    requires forall k :: n <= k < |s.cycles| ==> Untouched(s.cycles[k])
    requires s.timer == NoTimer && CyclesOk(s) && s.wire == Wires(s.cycles) && Flow.Mirrors(s.flow)
    requires s.shutdownAt.Some? ==> n < s.shutdownAt.value <= |s.cycles| && !s.cycles[s.shutdownAt.value - 1].keepAlive
    ensures Inv(Launch(s, n))
  {
    var t, c := Launch(s, n), s.cycles[n];
    var d := c.(phase := Running);
    assert ResponseOk(d) by { SameResponse(c, d); }
    assert CycleOk(d, s.parsing && n == |s.cycles| - 1) && !d.complete;
    hide CycleOk;
    Assoc(c.wire, "", "");
    WiresUpdate(s.cycles, n, d, "");
    hide Wires;
    Assoc(s.wire, "", "");
    assert t.launched == seq(n + 1, i => i);
  }

  lemma KeepsSend(s: Conn, i: nat, m: Message)
    requires Inv(s) && i < |s.cycles| && s.cycles[i].phase != Queued && s.cycles[i].phase != Ended
    requires m.ResponseStart? ==> OneLine(m.reason)
    ensures i < Started(s) && Reported(s, i, Send(s.cycles[i], m))
    ensures Send(s.cycles[i], m).cycle.phase == s.cycles[i].phase
  {
    hide Wires, Send;
    SendOk(s.cycles[i], m, s.parsing && i == |s.cycles| - 1);
    hide ResponseOk, RequestOk, OneLine;
  }

  /** The start of a 500 response that is not refused. */
  lemma ReportedStart500(s: Conn, i: nat)
    requires Inv(s) && Enabled(s, Sends500(i)) && !Send(s.cycles[i], START_500).raised
    ensures var r := Send(s.cycles[i], START_500);
            i < Started(s) && Reported(s, i, r.(cycle := r.cycle.(phase := Finishing500)))
  {
    hide Send, Wires, ResponseOk, RequestOk;
    KeepsSend(s, i, START_500);
    var r := Send(s.cycles[i], START_500);
    assert CycleOk(r.cycle, s.parsing && i == |s.cycles| - 1);
    PhaseOnly(r.cycle, Finishing500, true, s.parsing && i == |s.cycles| - 1);
  }

  lemma KeepsSends500(s: Conn, i: nat)
    requires Inv(s) && Enabled(s, Sends500(i))
    ensures Inv(Step(s, Sends500(i)))
  {
    hide Send, Wires, ResponseOk, RequestOk, AfterSend;
    KeepsSend(s, i, START_500);
    var r := Send(s.cycles[i], START_500);
    if r.raised {
      KeepsAfterSend(s, i, r);
      KeepsEnd(AfterSend(s, i, r), i);
    } else {
      ReportedStart500(s, i);
      KeepsAfterSend(s, i, r.(cycle := r.cycle.(phase := Finishing500)));
    }
  }

  lemma KeepsAppEnds(s: Conn, i: nat, how: Outcome)
    requires Inv(s) && Enabled(s, AppEnded(i, how))
    ensures Inv(AppEnds(s, i, how))
  {
    var c := s.cycles[i];
    assert c.onResponse;
    hide CycleOk, Wires, Fifo, TimerOk, ShutdownOk, CyclesOk;
    assert i < Started(s) && CycleOk(c, s.parsing && i == |s.cycles| - 1) by { RunningIsStarted(s, i); }
    if (how == Raised && !c.started) || (how == ReturnedNone && !c.started && !c.disconnected) {
      PhaseOnly(c, Starting500, true, s.parsing && i == |s.cycles| - 1);
      Assoc(c.wire, "", "");
      Assoc(s.wire, "", "");
      UpdateCycle(s, i, c.(phase := Starting500), "");
    } else {
      KeepsEnd(s, i);
      Closing(End(s, i));
    }
  }

  /** Changing flags of the latest cycle, started or not. */
  lemma UpdateLast(s: Conn, d: Cycle)
    requires Inv(s) && s.cycles != []
    requires var c := s.cycles[|s.cycles| - 1];
             && CycleOk(d, s.parsing) && d.complete == c.complete && d.wire == c.wire && d.phase == c.phase
             && (Untouched(c) ==> Untouched(d)) && (d.keepAlive ==> c.keepAlive)
    ensures Inv(s.(cycles := s.cycles[|s.cycles| - 1 := d]))
  {
    hide CycleOk, Wires;
    Assoc(d.wire, "", "");
    Assoc(s.wire, "", "");
    WiresUpdate(s.cycles, |s.cycles| - 1, d, "");
  }

  lemma KeepsShutdown(s: Conn)
    requires Inv(s)
    ensures Inv(DoShutdown(s))
  {
    hide CycleOk, Wires, Flow.Mirrors, Untouched;
    var n := |s.cycles|;
    if n > 0 && !s.cycles[n - 1].complete {
      KeepAliveOff(s.cycles[n - 1], s.parsing);
      UpdateLast(s, s.cycles[n - 1].(keepAlive := false));
      ShutdownNoted(s.(cycles := s.cycles[n - 1 := s.cycles[n - 1].(keepAlive := false)]));
    } else {
      ShutdownNoted(s);
    }
  }

  lemma ShutdownNoted(s: Conn)
    requires Inv(s)
    ensures var n := |s.cycles|; var t := s.(shutdownAt := if s.shutdownAt.None? then Some(n) else s.shutdownAt);
            if n == 0 || s.cycles[n - 1].complete then Inv(t.(closing := true))
            else !s.cycles[n - 1].keepAlive ==> Inv(t)
  {
    hide CycleOk, Wires, Flow.Mirrors, Untouched;
  }

  lemma KeepAliveOff(c: Cycle, open: bool)
    requires CycleOk(c, open)
    ensures CycleOk(c.(keepAlive := false), open) && (Untouched(c) ==> Untouched(c.(keepAlive := false)))
  {
    SameResponse(c, c.(keepAlive := false));
    hide ResponseOk;
  }

  lemma Disconnect(c: Cycle, open: bool)
    requires CycleOk(c, open)
    ensures CycleOk(c.(disconnected := c.disconnected || !c.complete, eventSet := true), open)
  {
    SameResponse(c, c.(disconnected := c.disconnected || !c.complete, eventSet := true));
    hide ResponseOk;
  }

  lemma KeepsLose(s: Conn, clean: bool)
    requires Inv(s)
    ensures Inv(Lose(s, clean))
  {
    hide CycleOk, Wires, Untouched;
    if s.cycles == [] {
      LossNoted(s, clean);
    } else {
      LatestIsOk(s);
      var c := s.cycles[|s.cycles| - 1];
      var d := c.(disconnected := c.disconnected || !c.complete, eventSet := true);
      Disconnect(c, s.parsing);
      StillUntouched(c, d);
      hide Inv;
      UpdateLast(s, d);
      LossNoted(s.(cycles := s.cycles[|s.cycles| - 1 := d]), clean);
    }
  }

  lemma LossNoted(s: Conn, clean: bool)
    requires Inv(s)
    ensures Inv(s.(closing := true, timer := if clean then NoTimer else s.timer))
  {
    hide CycleOk, Wires, Flow.Mirrors, Untouched;
  }

  lemma LatestIsOk(s: Conn)
    requires Inv(s) && s.cycles != []
    ensures CycleOk(s.cycles[|s.cycles| - 1], s.parsing)
  {
    hide CycleOk, Wires;
  }

  lemma StillUntouched(c: Cycle, d: Cycle)
    requires d == c.(disconnected := d.disconnected, eventSet := d.eventSet)
    ensures Untouched(c) ==> Untouched(d)
  {
  }
}
