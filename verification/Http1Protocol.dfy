/** HttpToolsProtocol and RequestResponseCycle of httptools_impl.py, field by field. Each object carries a
    ghost value `abs`, the state that Http1Spec speaks of; `Valid` ties the fields to it, and every method
    moves `abs` by the specification's function for that piece of code. */
module Http1Protocol {
  import opened Text
  import opened Http1Wire
  import opened Http1Spec
  import Http1Runs
  import Flow

  class RequestResponseCycle {
    const transport: Flow.Transport
    const flow: Flow.FlowControl
    const defaultHeaders: seq<Field>
    const isHead: bool  // scope["method"] == "HEAD"

    var onResponse: HttpToolsProtocol?  // null once it has been replaced by a no-op
    const index: nat  // its place among the requests of the connection
    var disconnected: bool
    var keepAlive: bool
    var waitingFor100Continue: bool
    var body: Bytes
    var moreBody: bool
    var messageEvent: bool
    var responseStarted: bool
    var responseComplete: bool
    var chunkedEncoding: Option<bool>
    var expectedContentLength: int
    ghost var abs: Cycle

    ghost predicate Valid()
      reads this
    {
      && abs.defaults == defaultHeaders && abs.isHead == isHead && (abs.onResponse <==> onResponse != null)
      && abs.disconnected == disconnected && abs.keepAlive == keepAlive && abs.waiting100 == waitingFor100Continue
      && abs.body == body && abs.moreBody == moreBody && abs.eventSet == messageEvent
      && abs.started == responseStarted && abs.complete == responseComplete
      && abs.chunked == chunkedEncoding && abs.remaining == expectedContentLength
    }

    ghost predicate Belongs(p: HttpToolsProtocol)
      reads this`onResponse
    {
      transport == p.transport && flow == p.flow && (onResponse == null || onResponse == p)
    }

    constructor (transport: Flow.Transport, flow: Flow.FlowControl, defaultHeaders: seq<Field>, isHead: bool,
                 keepAlive: bool, expect100Continue: bool, onResponse: HttpToolsProtocol, index: nat)
      ensures Valid() && abs == NewCycle(defaultHeaders, isHead, keepAlive, expect100Continue)
      ensures this.transport == transport && this.flow == flow && this.onResponse == onResponse && this.index == index
    {
      this.index := index;
      this.transport, this.flow, this.defaultHeaders, this.isHead := transport, flow, defaultHeaders, isHead;
      this.onResponse, this.keepAlive, waitingFor100Continue := onResponse, keepAlive, expect100Continue;
      disconnected, body, moreBody, messageEvent := false, "", true, false;
      responseStarted, responseComplete, chunkedEncoding, expectedContentLength := false, false, None, 0;
      abs := NewCycle(defaultHeaders, isHead, keepAlive, expect100Continue);
    }

    /** What the fields say of the response. */
    lemma Flags()
      requires Valid()
      ensures responseStarted == abs.started && responseComplete == abs.complete
    {
    }

    /** A step of the history that no field shows. */
    ghost method Note(d: Cycle)
      requires Valid() && SameResponse(abs, d)
      requires Now(d, abs.onResponse, abs.waiting100, abs.disconnected,
                   abs.keepAlive, abs.body, abs.moreBody, abs.eventSet)
      modifies this`abs
      ensures Valid() && abs == d
    {
      abs := d;
    }

    /** More of the request body; returns how much is waiting. */
    method Deliver(data: Bytes, ghost d: Cycle) returns (waiting: nat)
      requires Valid() && SameResponse(abs, d)
      requires Now(d, abs.onResponse, abs.waiting100, abs.disconnected,
                   abs.keepAlive, abs.body + data, abs.moreBody, true)
      modifies this`body, this`messageEvent, this`abs
      ensures Valid() && abs == d && waiting == |d.body|
    {
      body := body + data;
      messageEvent := true;
      abs := d;
      waiting := |body|;
    }

    method EndOfBody(ghost d: Cycle)
      requires Valid() && SameResponse(abs, d)
      requires Now(d, abs.onResponse, abs.waiting100, abs.disconnected, abs.keepAlive, abs.body, false, true)
      modifies this`moreBody, this`messageEvent, this`abs
      ensures Valid() && abs == d
    {
      moreBody := false;
      messageEvent := true;
      abs := d;
    }

    method Disconnect(ghost d: Cycle)
      requires Valid() && SameResponse(abs, d)
      requires Now(d, abs.onResponse, abs.waiting100, abs.disconnected || !abs.complete,
                   abs.keepAlive, abs.body, abs.moreBody, true)
      modifies this`disconnected, this`messageEvent, this`abs
      ensures Valid() && abs == d
    {
      if !responseComplete { disconnected := true; }
      messageEvent := true;
      abs := d;
    }

    ghost function Scanned(closeSeen: bool, fields: seq<Field>, failed: bool): Scan
      reads this
    {
      Scan(chunkedEncoding, expectedContentLength, keepAlive, closeSeen, fields, failed)
    }

    /** The body of the header loop. */
    method TakeHeader(h: Field, closeSeen: bool, ghost fields: seq<Field>) returns (raised: bool, closes: bool)
      modifies this`chunkedEncoding, this`expectedContentLength, this`keepAlive
      ensures var next := ScanField(old(Scanned(closeSeen, fields, false)), h);
              && raised == next.failed && closes == next.closeSeen
              && Scanned(closes, next.fields, raised) == next
              && (!raised ==> next.fields == fields + [Field(Lower(h.name), h.value)])
    {
      closes := closeSeen;
      if !ValidField(h) { return true, closes; }
      var name := Lower(h.name);
      if name == "content-length" && chunkedEncoding.None? {
        var parsed := PyInt(h.value);
        if parsed.None? { return true, closes; }
        expectedContentLength := parsed.value;
        chunkedEncoding := Some(false);
      } else if name == "transfer-encoding" && Lower(h.value) == "chunked" {
        expectedContentLength := 0;
        chunkedEncoding := Some(true);
      } else if name == "connection" && HasToken(h.value, "close") {
        keepAlive := false;
        closes := true;
      }
      raised := false;
    }

    /** The header loop of `send`, with the lines it appends to the content. */
    method TakeHeaders(input: seq<Field>) returns (raised: bool, content: seq<Bytes>, closeSeen: bool)
      modifies this`chunkedEncoding, this`expectedContentLength, this`keepAlive
      ensures var sc := ScanFields(old(Scanned(false, [], false)), input);
              && raised == sc.failed && Scanned(closeSeen, sc.fields, raised) == sc
              && (!raised ==> Concat(content) == FieldLines(sc.fields))
    {
      hide ScanField, Concat, FieldLines, FieldLine;
      content, closeSeen := [], false;
      ghost var init, sc := Scanned(false, [], false), Scanned(false, [], false);
      NoFields();
      assert input[..0] == [];
      for i := 0 to |input|
        invariant sc == ScanFields(init, input[..i]) == Scanned(closeSeen, sc.fields, false)
        invariant Concat(content) == FieldLines(sc.fields)
      {
        assert input[..i + 1][..i] == input[..i];
        var h := input[i];
        ghost var next := ScanField(sc, h);
        raised, closeSeen := TakeHeader(h, closeSeen, sc.fields);
        if raised {
          FailureSticks(init, input, i + 1);
          return true, content, closeSeen;
        }
        AppendField(content, sc.fields, Field(Lower(h.name), h.value));
        content := content + [FieldLine(Field(Lower(h.name), h.value))];
        sc := next;
      }
      assert input[..|input|] == input;
      raised := false;
    }

    /** The fields that the server adds after the header loop. */
    method AddOwnFields(status: nat, lines: seq<Bytes>, closeSeen: bool, ghost sc: Scan) returns (content: seq<Bytes>)
      requires Concat(lines) == FieldLines(sc.fields) && closeSeen == sc.closeSeen
      requires keepAlive == sc.keepAlive && chunkedEncoding == sc.chunked
      modifies this`chunkedEncoding
      ensures Concat(content) == FieldLines(HeadFields(isHead, status, sc))
      ensures chunkedEncoding == if DefaultsToChunked(isHead, status, sc) then Some(true) else sc.chunked
    {
      hide Concat, FieldLines, FieldLine;
      content := lines;
      ghost var fields := sc.fields;
      if !keepAlive && !closeSeen {
        AppendField(content, fields, CLOSE_FIELD);
        content := content + [FieldLine(CLOSE_FIELD)];
        fields := fields + [CLOSE_FIELD];
      }
      if chunkedEncoding.None? && !isHead && status != 204 && status != 304 {
        AppendField(content, fields, CHUNKED_FIELD);
        chunkedEncoding := Some(true);
        content := content + [FieldLine(CHUNKED_FIELD)];
        fields := fields + [CHUNKED_FIELD];
      }
      assert fields == HeadFields(isHead, status, sc);
    }

    /** The header loop and the server's own fields. */
    method HeaderLines(status: nat, input: seq<Field>) returns (raised: bool, lines: seq<Bytes>)
      modifies this`chunkedEncoding, this`expectedContentLength, this`keepAlive
      ensures var sc := ScanFields(old(Scanned(false, [], false)), input);
              && raised == sc.failed && expectedContentLength == sc.remaining && keepAlive == sc.keepAlive
              && chunkedEncoding ==
                   (if !sc.failed && DefaultsToChunked(isHead, status, sc) then Some(true) else sc.chunked)
              && (!raised ==> Concat(lines) == FieldLines(HeadFields(isHead, status, sc)))
    {
      hide ScanFields, Concat, FieldLines, HeadFields, DefaultsToChunked;
      ghost var sc := ScanFields(Scanned(false, [], false), input);
      var closeSeen;
      raised, lines, closeSeen := TakeHeaders(input);
      if !raised { lines := AddOwnFields(status, lines, closeSeen, sc); }
    }

    /** Status line and header lines, for a status that exists. */
    method HeadContent(status: nat, reason: Bytes, input: seq<Field>) returns (raised: bool, content: Bytes)
      requires Valid() && !abs.started
      modifies this
      ensures var c := old(abs);
              var r := CommitStart(c, status, reason, input,
                                   ScanFields(Scan(c.chunked, c.remaining, c.keepAlive, false, [], false), input));
              abs == r.cycle && raised == r.raised && content == r.wrote
      ensures Valid() && onResponse == old(onResponse)
    {
      hide ScanFields, Concat, FieldLines, HeadFields, CommitStart, StatusLine, DefaultsToChunked, CRLF;
      ghost var c := abs;
      ghost var sc := ScanFields(Scan(c.chunked, c.remaining, c.keepAlive, false, [], false), input);
      Committed(c, status, reason, input, sc);
      responseStarted := true;
      waitingFor100Continue := false;
      var lines;
      raised, lines := HeaderLines(status, input);
      content := if raised then "" else StatusLine(status, reason) + Concat(lines) + CRLF;
      abs := CommitStart(c, status, reason, input, sc).cycle;
    }

    /** The head, written in one piece. */
    method WriteHead(status: nat, reason: Bytes, input: seq<Field>) returns (raised: bool)
      requires Valid() && !abs.started
      modifies this, transport`written
      ensures var c := old(abs);
              var r := CommitStart(c, status, reason, input,
                                   ScanFields(Scan(c.chunked, c.remaining, c.keepAlive, false, [], false), input));
              abs == r.cycle && transport.written == old(transport.written) + r.wrote && raised == r.raised
      ensures Valid() && onResponse == old(onResponse)
    {
      hide ScanFields, Valid, Head, HeadFields, DefaultsToChunked;
      var content;
      raised, content := HeadContent(status, reason, input);
      if raised { Assoc(transport.written, "", ""); } else { transport.Write(content); }
    }

    /** The branch of `send` that starts the response. */
    method StartResponse(status: nat, reason: Bytes, headers: seq<Field>) returns (raised: bool)
      requires Valid() && !abs.started
      modifies this, transport`written
      ensures var r := SendStart(old(abs), status, reason, headers);
              abs == r.cycle && transport.written == old(transport.written) + r.wrote && raised == r.raised
      ensures Valid() && onResponse == old(onResponse)
    {
      hide CommitStart;
      if status < 100 || status >= 600 {
        responseStarted := true;
        waitingFor100Continue := false;
        abs := abs.(started := true, waiting100 := false);
        Assoc(transport.written, "", "");
        return true;
      }
      raised := WriteHead(status, reason, defaultHeaders + headers);
    }

    /** The branch of `send` that writes the body; `done` says that it was the last of it. */
    method WriteBody(data: Bytes, more: bool) returns (raised: bool, done: bool)
      requires Valid() && responseStarted && !responseComplete
      modifies this, transport`written
      ensures var r := SendBody(old(abs), data, more);
              && abs == r.cycle && transport.written == old(transport.written) + r.wrote && raised == r.raised
              && done == (r.cycle.complete) && (done ==> r.close == !keepAlive && r.respond == (onResponse != null))
              && (!done ==> !r.close && !r.respond)
      ensures Valid() && onResponse == old(onResponse)
    {
      hide Chunk;
      ghost var c := abs;
      done := false;
      Assoc(transport.written, "", "");
      if isHead {
        expectedContentLength := 0;
      } else if chunkedEncoding == Some(true) {
        var content := if data != "" then Chunk(data) else "";
        if !more { content := content + LAST_CHUNK; }
        assert data == "" ==> Chunk(data) == "" by { EmptyChunk(); }
        Assoc(Chunk(data), "", "");
        transport.Write(content);
      } else {
        if |data| > expectedContentLength { return true, false; }
        expectedContentLength := expectedContentLength - |data|;
        transport.Write(data);
      }
      abs := SendBody(c, data, more).cycle;
      if !more {
        if expectedContentLength != 0 { return true, false; }
        responseComplete := true;
        messageEvent := true;
        done := true;
      }
      raised := false;
    }

    /** The cycle is one of the connection's. */
    ghost predicate In(p: HttpToolsProtocol)
      reads p`cycles
    {
      index < |p.cycles| && p.cycles[index] == this
    }

    /** `send`, from where the wait for a writable transport ends. */
    method Send(m: Message, ghost p: HttpToolsProtocol) returns (raised: bool)
      requires p.Valid() && In(p)
      modifies p, transport, flow`readPaused, p.cycles
      ensures p.Valid() && p.cycles == old(p.cycles)
      ensures p.abs == AfterSend(old(p.abs), index, Http1Spec.Send(old(abs), m))
      ensures raised == Http1Spec.Send(old(abs), m).raised
    {
      hide HttpToolsProtocol.CyclesOk, HttpToolsProtocol.QueueOk, Flow.Mirrors, SendStart, SendBody,
           Http1Spec.OnResponseComplete, Flow.FlowControl.State, Flow.FlowControl.Valid;
      p.At(index);
      p.Latest();
      SendFrame(p.abs, index, m);
      if disconnected { return false; }
      if !responseStarted {
        if !m.ResponseStart? { return true; }
        raised := StartResponse(m.status, m.reason, m.headers);
        p.abs := AfterSend(p.abs, index, Http1Spec.Send(old(abs), m));
        p.CyclesKept(index);
        p.QueueKept();
      } else if !responseComplete {
        if !m.ResponseBody? { return true; }
        raised := FinishBody(m.body, m.more, p);
      } else {
        return true;
      }
    }

    /** `send` for a body message, up to the call of `on_response`. */
    method WriteAndClose(data: Bytes, more: bool, ghost p: HttpToolsProtocol) returns (raised: bool, done: bool)
      requires p.Valid() && In(p) && responseStarted && !responseComplete
      modifies p`abs, this, transport`written, transport`closing
      ensures p.Valid() && p.cycles == old(p.cycles) && onResponse == old(onResponse)
      ensures var r := SendBody(old(abs), data, more);
              && p.abs == Sending(old(p.abs), index, r) && raised == r.raised
              && (r.respond <==> done && onResponse != null)
    {
      hide HttpToolsProtocol.CyclesOk, HttpToolsProtocol.QueueOk, Flow.Mirrors, SendBody, Valid, Shape,
           Flow.FlowControl.State, Flow.FlowControl.Valid;
      p.At(index);
      ghost var r := SendBody(abs, data, more);
      Flags();
      raised, done := WriteBody(data, more);
      if done && !keepAlive { transport.Close(); }
      p.abs := Sending(p.abs, index, r);
      p.CyclesKept(index);
      p.QueueKept();
    }

    /** `send` for a body message: the write, and the end of the response if this is the last of it. */
    method FinishBody(data: Bytes, more: bool, ghost p: HttpToolsProtocol) returns (raised: bool)
      requires p.Valid() && In(p) && responseStarted && !responseComplete
      modifies p, transport, flow`readPaused, p.cycles
      ensures p.Valid() && p.cycles == old(p.cycles)
      ensures p.abs == AfterSend(old(p.abs), index, SendBody(old(abs), data, more))
      ensures raised == SendBody(old(abs), data, more).raised
    {
      hide HttpToolsProtocol.Valid, HttpToolsProtocol.CyclesOk, HttpToolsProtocol.QueueOk, SendBody, Valid,
           Http1Spec.OnResponseComplete;
      p.Connected(index);
      p.InShape();
      var done;
      raised, done := WriteAndClose(data, more, p);
      p.Connected(index);
      if done && onResponse != null { onResponse.OnResponseComplete(); }
    }

    /** The interim response, if the client waits for it. */
    method SayContinue(ghost d: Cycle)
      requires Valid() && SameResponse(abs, d)
      requires Now(d, abs.onResponse, abs.waiting100 && transport.closing, abs.disconnected,
                   abs.keepAlive, abs.body, abs.moreBody, abs.eventSet)
      modifies this`waitingFor100Continue, this`abs, transport`written
      ensures Valid() && abs == d
      ensures transport.written ==
                old(transport.written) + (if old(abs).waiting100 && !transport.closing then CONTINUE else "")
    {
      if waitingFor100Continue && !transport.closing {
        transport.Write(CONTINUE);
        waitingFor100Continue := false;
      } else {
        Assoc(transport.written, "", "");
      }
      abs := d;
    }

    /** `self.flow.resume_reading()` */
    method ResumeReading(ghost p: HttpToolsProtocol)
      requires p.Valid() && flow == p.flow && transport == p.transport
      modifies p`abs, transport`calls, flow`readPaused
      ensures p.Valid() && p.abs == old(p.abs).(flow := Flow.Resume(old(p.abs).flow))
    {
      hide HttpToolsProtocol.CyclesOk, HttpToolsProtocol.QueueOk, Flow.Mirrors;
      flow.ResumeReading();
      p.abs := p.abs.(flow := Flow.Resume(p.abs.flow));
      p.NoCycleChanged();
      p.QueueKept();
    }

    /** The part of `receive` before its wait that leaves reads alone. */
    method StartReceiving(ghost p: HttpToolsProtocol)
      requires p.Valid() && In(p)
      modifies p`abs, this`waitingFor100Continue, this`abs, transport`written
      ensures p.Valid()
      ensures p.abs == Http1Spec.ReceiveBegin(old(p.abs), index).(flow := old(p.abs).flow)
    {
      hide HttpToolsProtocol.CyclesOk, HttpToolsProtocol.QueueOk, Flow.Mirrors, Http1Spec.ReceiveBegin,
           Now, SameResponse, OnlyCycle, Flow.FlowControl.State, Flow.FlowControl.Valid, Valid, Shape;
      p.At(index);
      ReceiveFrame(p.abs, index);
      p.abs := Http1Spec.ReceiveBegin(p.abs, index).(flow := p.abs.flow);
      SayContinue(p.abs.cycles[index]);
      p.CyclesKept(index);
      p.QueueKept();
    }

    /** `receive`, up to the wait for the message event. */
    method ReceiveBegin(ghost p: HttpToolsProtocol)
      requires p.Valid() && In(p)
      modifies p`abs, this`waitingFor100Continue, this`abs, transport`written, transport`calls, flow`readPaused
      ensures p.Valid() && p.cycles == old(p.cycles) && p.abs == Http1Spec.ReceiveBegin(old(p.abs), index)
    {
      hide HttpToolsProtocol.Valid, HttpToolsProtocol.CyclesOk, HttpToolsProtocol.QueueOk, Flow.Resume, Now,
           SameResponse, OnlyCycle, Http1Spec.ReceiveBegin;
      p.Connected(index);
      ReceiveFrame(p.abs, index);
      var resumes := !disconnected && !responseComplete;
      StartReceiving(p);
      if resumes { ResumeReading(p); }
    }

    method TakeMessage(ghost d: Cycle) returns (message: Option<(Bytes, bool)>)
      requires Valid() && SameResponse(abs, d)
      requires Now(d, abs.onResponse, abs.waiting100, abs.disconnected,
                   abs.keepAlive, if abs.disconnected || abs.complete then abs.body else "", abs.moreBody, false)
      modifies this`messageEvent, this`body, this`abs
      ensures Valid() && abs == d
      ensures var c := old(abs);
              message == if c.disconnected || c.complete then None else Some((c.body, c.moreBody))
    {
      messageEvent := false;
      if disconnected || responseComplete {
        message := None;
      } else {
        message := Some((body, moreBody));
        body := "";
      }
      abs := d;
    }

    /** `receive`, once the message event is set: the event returned, or None for a disconnect. */
    method ReceiveEnd(ghost p: HttpToolsProtocol) returns (message: Option<(Bytes, bool)>)
      requires p.Valid() && In(p)
      modifies p`abs, this
      ensures p.Valid() && p.cycles == old(p.cycles) && p.abs == Http1Spec.ReceiveEnd(old(p.abs), index)
      ensures var c := old(abs);
              message == if c.disconnected || c.complete then None else Some((c.body, c.moreBody))
    {
      hide HttpToolsProtocol.CyclesOk, HttpToolsProtocol.QueueOk, Flow.Mirrors, Valid,
           Now, SameResponse, OnlyCycle, SameScalars, Took, Flow.FlowControl.State, Flow.FlowControl.Valid;
      p.At(index);
      p.Latest();
      TookFrame(abs);
      OneFrame(p.abs, index, Took(abs));
      message := TakeMessage(Took(abs));
      p.abs := p.abs.(cycles := p.abs.cycles[index := abs]);
      p.OneChanged(index);
    }

    method CloseTransport(ghost p: HttpToolsProtocol)
      requires p.Valid() && transport == p.transport
      modifies p`abs, transport`closing
      ensures p.Valid() && p.abs == old(p.abs).(closing := true)
    {
      hide HttpToolsProtocol.CyclesOk, HttpToolsProtocol.QueueOk, Flow.Mirrors,
           Flow.FlowControl.State, Flow.FlowControl.Valid;
      transport.Close();
      p.abs := p.abs.(closing := true);
      p.NoCycleChanged();
      p.QueueKept();
    }

    /** `self.on_response = lambda: None` */
    method DropCallback(ghost d: Cycle)
      requires Valid() && SameResponse(abs, d)
      requires Now(d, false, abs.waiting100, abs.disconnected, abs.keepAlive, abs.body, abs.moreBody, abs.eventSet)
      modifies this`onResponse, this`abs
      ensures Valid() && abs == d && onResponse == null
    {
      onResponse := null;
      abs := d;
    }

    /** The `finally` of `run_asgi`. */
    method Finish(ghost p: HttpToolsProtocol)
      requires p.Valid() && In(p)
      modifies p`abs, this
      ensures p.Valid() && p.cycles == old(p.cycles) && p.abs == End(old(p.abs), index)
    {
      hide HttpToolsProtocol.CyclesOk, HttpToolsProtocol.QueueOk, Flow.Mirrors, End, Valid, Now, SameResponse,
           OnlyCycle, Flow.FlowControl.State, Flow.FlowControl.Valid;
      p.At(index);
      p.Latest();
      EndFrame(p.abs, index);
      p.abs := End(p.abs, index);
      DropCallback(p.abs.cycles[index]);
      p.CyclesKept(index);
      p.QueueKept();
    }

    /** `run_asgi` once the application has ended; `fails` says that a 500 response is still to be sent. */
    method AppEnds(how: Outcome, ghost p: HttpToolsProtocol) returns (fails: bool)
      requires p.Valid() && In(p)
      modifies p`abs, this, transport`closing
      ensures p.Valid() && p.cycles == old(p.cycles) && p.abs == Http1Spec.AppEnds(old(p.abs), index, how)
      ensures fails <==> p.abs.cycles[index].phase == Starting500
    {
      hide HttpToolsProtocol.CyclesOk, HttpToolsProtocol.QueueOk, Flow.Mirrors, End, Http1Spec.AppEnds,
           Flow.FlowControl.State, Flow.FlowControl.Valid;
      p.At(index);
      p.Latest();
      AppEndsIs(p.abs, index, how);
      EndFrame(p.abs, index);
      fails := !responseStarted && (how == Raised || (how == ReturnedNone && !disconnected));
      if fails {
        Reach(Starting500, p);
      } else {
        var quiet := how == ReturnedNone && (responseComplete || disconnected);
        Finish(p);
        if !quiet { CloseTransport(p); }
      }
    }

    /** How far the task that runs the application has come is history. */
    ghost method Reach(phase: Phase, p: HttpToolsProtocol)
      requires p.Valid() && In(p)
      modifies p`abs, this`abs
      ensures p.Valid() && p.cycles == old(p.cycles) && old(abs) == old(p.abs).cycles[index]
      ensures abs == old(abs).(phase := phase)
      ensures p.abs == old(p.abs).(cycles := old(p.abs).cycles[index := abs])
    {
      hide HttpToolsProtocol.CyclesOk, HttpToolsProtocol.QueueOk, Flow.Mirrors, Now, SameResponse, OnlyCycle,
           SameScalars, Flow.FlowControl.State, Flow.FlowControl.Valid, HttpToolsProtocol.ScalarsOk, Valid;
      p.At(index);
      p.Connected(index);
      PhaseFrame(abs, phase);
      OneFrame(p.abs, index, abs.(phase := phase));
      Note(abs.(phase := phase));
      p.abs := p.abs.(cycles := p.abs.cycles[index := abs]);
      p.OneChanged(index);
    }

    /** `send_500_response` up to the end of its first `send`; if that raises, `run_asgi` ends. */
    method Sends500(ghost p: HttpToolsProtocol)
      requires p.Valid() && In(p) && index < |p.abs.cycles| && Shape(p.abs) && Enabled(p.abs, Event.Sends500(index))
      modifies p, transport, flow`readPaused, p.cycles
      ensures p.Valid() && p.cycles == old(p.cycles) && p.abs == Step(old(p.abs), Event.Sends500(index))
    {
      hide HttpToolsProtocol.Valid, HttpToolsProtocol.CyclesOk, HttpToolsProtocol.QueueOk, Valid, Http1Spec.Send,
           AfterSend, Http1Spec.End;
      p.Connected(index);
      ghost var s := p.abs;
      var raised := Send(START_500, p);
      if raised {
        Finish(p);
      } else {
        NoResponseYet(s.cycles[index]);
        PhaseAfterSend(s, index, Http1Spec.Send(s.cycles[index], START_500), Finishing500);
        Reach(Finishing500, p);
      }
    }

    /** The second `send` of `send_500_response`, and the `finally`. */
    method Ends500(ghost p: HttpToolsProtocol)
      requires p.Valid() && In(p) && index < |p.abs.cycles| && Shape(p.abs) && Enabled(p.abs, Event.Ends500(index))
      modifies p, transport, flow`readPaused, p.cycles
      ensures p.Valid() && p.cycles == old(p.cycles) && p.abs == Step(old(p.abs), Event.Ends500(index))
    {
      hide HttpToolsProtocol.Valid, HttpToolsProtocol.CyclesOk, HttpToolsProtocol.QueueOk, Valid, Http1Spec.Send,
           AfterSend, Http1Spec.End;
      p.Connected(index);
      var _ := Send(BODY_500, p);
      Finish(p);
    }
  }

  lemma NoResponseYet(c: Cycle)
    ensures !Http1Spec.Send(c, START_500).respond
  {
    hide ScanFields, Head, HeadFields;
  }

  lemma PhaseAfterSend(s: Conn, i: nat, r: Sent, phase: Phase)
    requires Shape(s) && i < |s.cycles| && !r.respond
    ensures var t := AfterSend(s, i, r);
            && i < |t.cycles|
            && AfterSend(s, i, r.(cycle := r.cycle.(phase := phase)))
                 == t.(cycles := t.cycles[i := t.cycles[i].(phase := phase)])
  {
  }

  /** The effect of a `send` up to the call of `on_response`. */
  ghost function Sending(s: Conn, i: nat, r: Sent): Conn
    requires i < |s.cycles|
  {
    s.(cycles := s.cycles[i := r.cycle], wire := s.wire + r.wrote, closing := s.closing || r.close)
  }

  /** A `send` that does nothing leaves the connection alone; a start message changes one cycle. */
  lemma SendFrame(s: Conn, i: nat, m: Message)
    requires i < |s.cycles| && Shape(s)
    ensures var c := s.cycles[i]; var r := Send(c, m);
            && (c.disconnected || (if c.started then c.complete || !m.ResponseBody? else !m.ResponseStart?) ==>
                  AfterSend(s, i, r) == s)
            && (!c.started && !c.disconnected && m.ResponseStart? ==>
                  && r == SendStart(c, m.status, m.reason, m.headers)
                  && AfterSend(s, i, r) == Sending(s, i, r) && !r.close)
  {
    Assoc(s.wire, "", "");
    assert s.cycles[i := s.cycles[i]] == s.cycles;
  }

  lemma EmptyChunk()
    ensures Chunk("") == ""
  {
  }

  /** The branches of a start message whose status exists. */
  lemma Committed(c: Cycle, status: nat, reason: Bytes, input: seq<Field>, sc: Scan)
    ensures var r := CommitStart(c, status, reason, input, sc);
            && r.raised == sc.failed && !r.close && !r.respond
            && r.wrote == (if sc.failed then ""
                           else StatusLine(status, reason) + FieldLines(HeadFields(c.isHead, status, sc)) + CRLF)
            && r.cycle.started && !r.cycle.waiting100 && r.cycle.remaining == sc.remaining
            && r.cycle.keepAlive == sc.keepAlive
            && r.cycle.chunked ==
                 (if !sc.failed && DefaultsToChunked(c.isHead, status, sc) then Some(true) else sc.chunked)
            && r.cycle.defaults == c.defaults && r.cycle.isHead == c.isHead && r.cycle.onResponse == c.onResponse
            && r.cycle.disconnected == c.disconnected && r.cycle.body == c.body && r.cycle.moreBody == c.moreBody
            && r.cycle.eventSet == c.eventSet && r.cycle.complete == c.complete
  {
    hide StatusLine, FieldLines, HeadFields;
    if sc.failed {} else {}
  }

  lemma {:induction false} FailureSticks(sc: Scan, hs: seq<Field>, k: nat)
    requires k <= |hs| && ScanFields(sc, hs[..k]).failed
    ensures ScanFields(sc, hs) == ScanFields(sc, hs[..k])
  {
    hide ValidField, PyInt, HasToken, Lower;
    if k == |hs| {
      assert hs[..k] == hs;
    } else {
      var front := hs[..|hs| - 1];
      assert front[..k] == hs[..k];
      FailureSticks(sc, front, k);
    }
  }

  lemma NoFields()
    ensures Concat([]) == FieldLines([])
  {
  }

  lemma AppendField(content: seq<Bytes>, fs: seq<Field>, f: Field)
    requires Concat(content) == FieldLines(fs)
    ensures Concat(content + [FieldLine(f)]) == FieldLines(fs + [f])
  {
    hide FieldLine;
    ConcatOne(content, FieldLine(f));
    assert (fs + [f])[..|fs|] == fs;
  }

  /** The two values agree on the fields that hold the response. */
  ghost predicate SameResponse(c: Cycle, d: Cycle) {
    && d.defaults == c.defaults && d.isHead == c.isHead && d.started == c.started && d.complete == c.complete
    && d.chunked == c.chunked && d.remaining == c.remaining
  }

  /** The other fields of `d`. */
  ghost predicate Now(d: Cycle, onResponse: bool, waiting100: bool, disconnected: bool, keepAlive: bool,
                      body: Bytes, moreBody: bool, eventSet: bool) {
    && d.onResponse == onResponse && d.waiting100 == waiting100 && d.disconnected == disconnected
    && d.keepAlive == keepAlive && d.body == body && d.moreBody == moreBody && d.eventSet == eventSet
  }

  /** Nothing but cycle `i` differs, and the scalars of the connection. */
  ghost predicate OnlyCycle(s: Conn, t: Conn, i: int) {
    && |t.cycles| == |s.cycles| && (forall k :: 0 <= k < |s.cycles| && k != i ==> t.cycles[k] == s.cycles[k])
    && t.pipeline == s.pipeline
  }

  ghost predicate SameScalars(s: Conn, t: Conn) {
    t.closing == s.closing && t.timer == s.timer && t.flow == s.flow && t.total == s.total && t.wire == s.wire
  }

  lemma LaunchFrame(s: Conn, i: nat)
    requires i < |s.cycles|
    ensures var t := Launch(s, i);
            && OnlyCycle(s, t, i) && SameScalars(s, t) && t.parsing == s.parsing
            && SameResponse(s.cycles[i], t.cycles[i])
            && var c := s.cycles[i]; Now(t.cycles[i], c.onResponse, c.waiting100, c.disconnected,
                                         c.keepAlive, c.body, c.moreBody, c.eventSet)
  {
  }

  lemma BodyFrame(s: Conn, data: Bytes)
    requires s.parsing && s.cycles != []
    ensures var n := |s.cycles| - 1; var t := OnBody(s, data); var c, d := s.cycles[n], t.cycles[n];
            && OnlyCycle(s, t, n) && SameScalars(s, t.(flow := s.flow)) && t.parsing && SameResponse(c, d)
            && (if c.complete then t.flow == s.flow && Now(d, c.onResponse, c.waiting100, c.disconnected,
                                                           c.keepAlive, c.body, c.moreBody, c.eventSet)
                else && Now(d, c.onResponse, c.waiting100, c.disconnected,
                            c.keepAlive, c.body + data, c.moreBody, true)
                     && t.flow == if |d.body| > Flow.HIGH_WATER_LIMIT then Flow.Pause(s.flow) else s.flow)
  {
    if s.cycles[|s.cycles| - 1].complete {} else {}
  }

  lemma BodyFlow(s: Conn, data: Bytes)
    ensures s.parsing && s.cycles != [] ==>
              var t := OnBody(s, data); var c := t.cycles[|t.cycles| - 1];
              t.flow == if !c.complete && |c.body| > Flow.HIGH_WATER_LIMIT then Flow.Pause(s.flow) else s.flow
  {
    hide Flow.Pause;
    if s.parsing && s.cycles != [] {
      if s.cycles[|s.cycles| - 1].complete {} else {}
    }
  }

  lemma FinishFrame(s: Conn)
    requires s.parsing && s.cycles != []
    ensures var n := |s.cycles| - 1; var t := OnMessageComplete(s); var c, d := s.cycles[n], t.cycles[n];
            && OnlyCycle(s, t, n) && SameScalars(s, t) && SameResponse(c, d)
            && Now(d, c.onResponse, c.waiting100, c.disconnected,
                   c.keepAlive, c.body, c.complete && c.moreBody, c.eventSet || !c.complete)
  {
    if s.cycles[|s.cycles| - 1].complete {} else {}
  }

  lemma ReceiveFrame(s: Conn, i: nat)
    requires i < |s.cycles|
    ensures var t := ReceiveBegin(s, i); var c, d := s.cycles[i], t.cycles[i];
            var go := c.waiting100 && !s.closing;
            && OnlyCycle(s, t, i) && SameResponse(c, d)
            && Now(d, c.onResponse, c.waiting100 && s.closing, c.disconnected,
                   c.keepAlive, c.body, c.moreBody, c.eventSet)
            && t.parsing == s.parsing && t.closing == s.closing && t.timer == s.timer && t.total == s.total
            && t.wire == s.wire + (if go then CONTINUE else "")
            && t.flow == (if !c.disconnected && !c.complete then Flow.Resume(s.flow) else s.flow)
  {
    Assoc(s.wire, "", "");
    if s.cycles[i].waiting100 && !s.closing {} else {}
  }

  lemma TookFrame(c: Cycle)
    ensures var d := Took(c);
            && SameResponse(c, d)
            && Now(d, c.onResponse, c.waiting100, c.disconnected,
                   c.keepAlive, if c.disconnected || c.complete then c.body else "", c.moreBody, false)
  {
    if c.disconnected || c.complete {} else {}
  }

  /** One cycle changes, the rest of the connection does not. */
  lemma OneFrame(s: Conn, i: nat, d: Cycle)
    requires i < |s.cycles|
    ensures var t := s.(cycles := s.cycles[i := d]);
            OnlyCycle(s, t, i) && SameScalars(s, t) && |t.cycles| == |s.cycles| && t.pipeline == s.pipeline
                && t.cycles[i] == d
  {
  }

  lemma EndFrame(s: Conn, i: nat)
    requires i < |s.cycles|
    ensures var t := End(s, i); var c, d := s.cycles[i], t.cycles[i];
            && OnlyCycle(s, t, i) && SameScalars(s, t) && t.parsing == s.parsing
            && SameResponse(c, d) && d.phase == Ended
            && Now(d, false, c.waiting100, c.disconnected, c.keepAlive, c.body, c.moreBody, c.eventSet)
  {
  }

  lemma PhaseFrame(c: Cycle, phase: Phase)
    ensures SameResponse(c, c.(phase := phase))
    ensures Now(c.(phase := phase), c.onResponse, c.waiting100, c.disconnected, c.keepAlive,
                c.body, c.moreBody, c.eventSet)
  {
  }

  lemma AppEndsIs(s: Conn, i: nat, how: Outcome)
    requires i < |s.cycles|
    ensures var c := s.cycles[i];
            AppEnds(s, i, how) ==
              if !c.started && (how == Raised || (how == ReturnedNone && !c.disconnected)) then
                s.(cycles := s.cycles[i := c.(phase := Starting500)])
              else if how == ReturnedNone && (c.complete || c.disconnected) then End(s, i)
              else End(s, i).(closing := true)
  {
  }

  lemma ShutdownFrame(s: Conn)
    ensures var n := |s.cycles| - 1; var t := DoShutdown(s);
            && SameScalars(s, t.(closing := s.closing)) && t.parsing == s.parsing
            && if n < 0 || s.cycles[n].complete then t.closing && t.cycles == s.cycles && t.pipeline == s.pipeline
               else && t.closing == s.closing && OnlyCycle(s, t, n) && SameResponse(s.cycles[n], t.cycles[n])
                    && var c := s.cycles[n]; Now(t.cycles[n], c.onResponse, c.waiting100, c.disconnected,
                                                 false, c.body, c.moreBody, c.eventSet)
  {
    if s.cycles != [] && !s.cycles[|s.cycles| - 1].complete {} else {}
  }

  lemma LoseFrame(s: Conn, clean: bool)
    ensures var n := |s.cycles| - 1; var t := Lose(s, clean);
            && t.closing && t.timer == (if clean then NoTimer else s.timer)
            && SameScalars(s, t.(closing := s.closing, timer := s.timer)) && t.parsing == s.parsing
            && if n < 0 then t.cycles == s.cycles && t.pipeline == s.pipeline
               else && OnlyCycle(s, t, n) && SameResponse(s.cycles[n], t.cycles[n])
                    && var c := s.cycles[n]; Now(t.cycles[n], c.onResponse, c.waiting100, c.disconnected || !c.complete,
                                                 c.keepAlive, c.body, c.moreBody, true)
  {
    if s.cycles == [] {} else {}
  }

  class HttpToolsProtocol {
    const transport: Flow.Transport
    const flow: Flow.FlowControl
    var cycle: RequestResponseCycle?
    var pipeline: seq<RequestResponseCycle>
    var timeoutKeepAliveTask: Timer
    var totalRequests: nat
    var cycles: seq<RequestResponseCycle>  // every cycle made on this connection; in the source, their tasks hold them
    ghost var abs: Conn

    ghost predicate ScalarsOk()
      reads this, transport, flow
    {
      && flow.transport == transport && flow.Valid() && abs.flow == flow.State()
      && abs.closing == transport.closing && abs.wire == transport.written
      && abs.timer == timeoutKeepAliveTask && abs.total == totalRequests
    }

    ghost predicate CyclesOk()
      reads this`cycles, this`abs, cycles
    {
      && |cycles| == |abs.cycles|
      && (forall k :: 0 <= k < |cycles| ==> cycles[k].index == k && cycles[k].Belongs(this))
      && (forall k :: 0 <= k < |cycles| ==> cycles[k].Valid() && cycles[k].abs == abs.cycles[k])
    }

    ghost predicate QueueOk()
      reads this`cycle, this`cycles, this`pipeline, this`abs
    {
      && |cycles| == |abs.cycles| && Shape(abs)
      && cycle == (if cycles == [] then null else cycles[|cycles| - 1])
      && |pipeline| == |abs.pipeline|
      && (forall j :: 0 <= j < |pipeline| ==> pipeline[j] == cycles[abs.pipeline[j]])
    }

    ghost predicate Valid()
      reads this, transport, flow, cycles
    {
      ScalarsOk() && CyclesOk() && QueueOk()
    }

    /** Only cycle `i` has changed, to what `abs` now says. */
    twostate lemma CyclesKept(i: nat)
      requires old(CyclesOk()) && cycles == old(cycles) && i < |cycles|
      requires OnlyCycle(old(abs), abs, i)
      requires forall c :: c in cycles && c != cycles[i] ==> unchanged(c)
      requires cycles[i].Valid() && cycles[i].abs == abs.cycles[i] && cycles[i].Belongs(this)
      ensures CyclesOk()
    {
      forall k | 0 <= k < |cycles|
        ensures cycles[k].index == k && cycles[k].Belongs(this) && cycles[k].Valid() && cycles[k].abs == abs.cycles[k]
      {
        assert cycles[k] in cycles && old(cycles[k].index) == k;
      }
    }

    twostate lemma QueueKept()
      requires old(QueueOk()) && cycles == old(cycles) && cycle == old(cycle) && pipeline == old(pipeline)
      requires |abs.cycles| == |old(abs.cycles)| && abs.pipeline == old(abs.pipeline)
      requires abs.parsing ==> old(abs.parsing)
      ensures QueueOk()
    {
    }

    /** Only cycle `i` has changed, and `abs` says so. */
    twostate lemma OneChanged(i: nat)
      requires old(Valid()) && cycles == old(cycles) && i < |cycles| && |cycles| == |old(abs.cycles)|
      requires unchanged(flow) && unchanged(transport)
          && unchanged(`cycle, `pipeline, `timeoutKeepAliveTask, `totalRequests)
      requires abs == old(abs).(cycles := old(abs.cycles)[i := cycles[i].abs])
      requires forall c :: c in cycles && c != cycles[i] ==> unchanged(c)
      requires cycles[i].Valid() && cycles[i].Belongs(this)
      ensures Valid()
    {
      hide RequestResponseCycle.Valid, CyclesOk, QueueOk, Flow.FlowControl.Valid, Flow.FlowControl.State;
      CyclesKept(i);
      QueueKept();
    }

    lemma Latest()
      requires CyclesOk() && QueueOk()
      ensures |cycles| == |abs.cycles| && Shape(abs)
      ensures if cycles == [] then cycle == null
              else && cycle == cycles[|cycles| - 1] && cycle.Valid() && cycle.abs == abs.cycles[|cycles| - 1]
                   && cycle.Belongs(this) && cycle.responseComplete == cycle.abs.complete
    {
    }

    lemma Connected(i: nat)
      requires Valid() && i < |cycles|
      ensures |cycles| == |abs.cycles| && cycles[i].Valid() && cycles[i].abs == abs.cycles[i] && cycles[i].Belongs(this)
    {
      hide ScalarsOk, QueueOk;
    }

    lemma InShape()
      requires Valid()
      ensures Shape(abs)
    {
      hide ScalarsOk, CyclesOk;
    }

    lemma At(i: nat)
      requires CyclesOk() && i < |cycles|
      ensures i < |abs.cycles| && cycles[i].Valid() && cycles[i].abs == abs.cycles[i] && cycles[i].Belongs(this)
    {
    }

    constructor (transport: Flow.Transport)
      requires !transport.closing && transport.written == "" && transport.calls == []
      ensures Valid() && abs == FRESH && cycles == [] && this.transport == transport && fresh(flow)
    {
      this.transport := transport;
      var f := new Flow.FlowControl(transport);
      flow := f;
      cycle, pipeline, timeoutKeepAliveTask, totalRequests := null, [], NoTimer, 0;
      cycles, abs := [], FRESH;
    }

    /** The cycles are as they were. */
    twostate lemma NoCycleChanged()
      requires old(CyclesOk()) && cycles == old(cycles) && abs.cycles == old(abs.cycles)
      requires forall c :: c in cycles ==> unchanged(c)
      ensures CyclesOk()
    {
      forall k | 0 <= k < |cycles|
        ensures cycles[k].index == k && cycles[k].Belongs(this) && cycles[k].Valid() && cycles[k].abs == abs.cycles[k]
      {
        assert cycles[k] in cycles;
      }
    }

    method UnsetKeepAliveIfRequired()
      requires Valid()
      modifies this`timeoutKeepAliveTask, this`abs
      ensures Valid() && abs == old(abs).(timer := NoTimer)
    {
      hide CyclesOk, QueueOk;
      if timeoutKeepAliveTask != NoTimer { timeoutKeepAliveTask := NoTimer; }
      abs := abs.(timer := NoTimer);
      NoCycleChanged();
      QueueKept();
    }

    /** The task that runs the application for a cycle is created. */
    method StartAsgiTask(c: RequestResponseCycle, ghost i: nat)
      requires Valid() && i < |cycles| && c == cycles[i]
      modifies this`abs, c`abs
      ensures Valid() && abs == Launch(old(abs), i)
    {
      hide Launch, CyclesOk, QueueOk, Flow.Mirrors;
      At(i);
      LaunchFrame(abs, i);
      abs := Launch(abs, i);
      c.abs := abs.cycles[i];
      CyclesKept(i);
      QueueKept();
    }

    method CountRequest()
      requires Valid()
      modifies this`totalRequests, this`abs
      ensures Valid() && abs == old(abs).(total := old(abs).total + 1)
    {
      hide CyclesOk, QueueOk, Flow.Mirrors;
      totalRequests := totalRequests + 1;
      abs := abs.(total := abs.total + 1);
      NoCycleChanged();
      QueueKept();
    }

    method ResumeReading()
      requires Valid()
      modifies this`abs, transport`calls, flow`readPaused
      ensures Valid() && abs == old(abs).(flow := Flow.Resume(old(abs).flow))
    {
      hide CyclesOk, QueueOk, Flow.Mirrors;
      flow.ResumeReading();
      abs := abs.(flow := Flow.Resume(abs.flow));
      NoCycleChanged();
      QueueKept();
    }

    method ArmKeepAlive()
      requires Valid()
      modifies this`abs, this`timeoutKeepAliveTask
      ensures Valid() && abs == old(abs).(timer := Armed)
    {
      hide CyclesOk, QueueOk, Flow.Mirrors;
      timeoutKeepAliveTask := Armed;
      abs := abs.(timer := Armed);
      NoCycleChanged();
      QueueKept();
    }

    /** `self.pipeline.pop()` */
    method PopPipeline() returns (c: RequestResponseCycle, ghost i: nat)
      requires Valid() && pipeline != []
      modifies this`pipeline, this`abs
      ensures Valid() && i < |cycles| && c == cycles[i] && i == old(abs).pipeline[|old(abs).pipeline| - 1]
      ensures abs == old(abs).(pipeline := old(abs).pipeline[..|old(abs).pipeline| - 1])
    {
      hide CyclesOk, Flow.Mirrors;
      c, i := pipeline[|pipeline| - 1], abs.pipeline[|pipeline| - 1];
      pipeline := pipeline[..|pipeline| - 1];
      abs := abs.(pipeline := abs.pipeline[..|pipeline|]);
      NoCycleChanged();
    }

    method OnResponseComplete()
      requires Valid()
      modifies this, transport`calls, flow`readPaused, cycles
      ensures Valid() && abs == Http1Spec.OnResponseComplete(old(abs)) && cycles == old(cycles)
    {
      hide CyclesOk, Flow.Mirrors, Launch;
      CountRequest();
      if !transport.closing {
        UnsetKeepAliveIfRequired();
        ResumeReading();
        if pipeline != [] {
          var c;
          ghost var i;
          c, i := PopPipeline();
          StartAsgiTask(c, i);
        } else {
          ArmKeepAlive();
        }
      }
    }

    /** A new cycle joins the others. */
    twostate lemma CycleAdded()
      requires old(CyclesOk()) && |cycles| == |old(cycles)| + 1 && cycles[..|old(cycles)|] == old(cycles)
      requires abs.cycles == old(abs.cycles) + [cycles[|old(cycles)|].abs]
      requires forall c :: c in old(cycles) ==> unchanged(c)
      requires var c := cycles[|old(cycles)|]; c.Valid() && c.Belongs(this) && c.index == |old(cycles)|
      ensures CyclesOk()
    {
      hide RequestResponseCycle.Valid;
      forall k | 0 <= k < |cycles|
        ensures cycles[k].index == k && cycles[k].Belongs(this) && cycles[k].Valid() && cycles[k].abs == abs.cycles[k]
      {
        if k < |old(cycles)| {
          assert cycles[k] == cycles[..|old(cycles)|][k] == old(cycles)[k] && cycles[k] in old(cycles);
        }
      }
    }

    /** A new `self.cycle`. */
    method MakeCycle(isHead: bool, keepAlive: bool, expect100Continue: bool, defaultHeaders: seq<Field>)
      requires Valid()
      modifies this`cycle, this`cycles, this`abs
      ensures Valid() && cycle != null && fresh(cycle) && cycles == old(cycles) + [cycle]
      ensures abs == old(abs).(parsing := true, cycles := old(abs).cycles +
                               [NewCycle(defaultHeaders, isHead, keepAlive, expect100Continue)])
    {
      hide NewCycle, Flow.Mirrors, Flow.FlowControl.State, Flow.FlowControl.Valid, CyclesOk, RequestResponseCycle.Valid;
      var c := new RequestResponseCycle(transport, flow, defaultHeaders, isHead, keepAlive, expect100Continue,
          this, |cycles|);
      cycle := c;
      cycles := cycles + [c];
      abs := abs.(cycles := abs.cycles + [c.abs], parsing := true);
      CycleAdded();
    }

    /** `self.pipeline.appendleft(...)` behind a paused transport */
    method Enqueue()
      requires Valid() && cycle != null
      modifies this`pipeline, this`abs, transport`calls, flow`readPaused
      ensures Valid()
      ensures abs == old(abs).(flow := Flow.Pause(old(abs).flow), pipeline := [|cycles| - 1] + old(abs).pipeline)
    {
      hide CyclesOk, Flow.Mirrors;
      flow.PauseReading();
      pipeline := [cycle] + pipeline;
      abs := abs.(flow := Flow.Pause(abs.flow), pipeline := [|cycles| - 1] + abs.pipeline);
      NoCycleChanged();
    }

    method OnHeadersComplete(isHead: bool, keepAlive: bool, expect100Continue: bool, defaultHeaders: seq<Field>)
      requires Valid()
      modifies this, transport`calls, flow`readPaused
      ensures Valid()
      ensures abs == Http1Spec.OnHeadersComplete(old(abs),
                       NewCycle(defaultHeaders, isHead, keepAlive, expect100Continue))
      ensures cycle != null && fresh(cycle) && cycles == old(cycles) + [cycle]
    {
      hide CyclesOk, Flow.Mirrors, Launch, NewCycle;
      Latest();
      var start := cycle == null || cycle.responseComplete;
      MakeCycle(isHead, keepAlive, expect100Continue, defaultHeaders);
      if start { StartAsgiTask(cycle, |cycles| - 1); } else { Enqueue(); }
    }

    /** The body goes to the latest cycle; returns how much is waiting there. */
    method TakeBody(data: Bytes) returns (waiting: nat)
      requires Valid() && abs.parsing
      modifies this`abs, cycles
      ensures Valid() && cycles == old(cycles) && abs == Http1Spec.OnBody(old(abs), data).(flow := old(abs).flow)
      ensures abs.cycles != [] && waiting == (var c := abs.cycles[|abs.cycles| - 1]; if c.complete then 0 else |c.body|)
    {
      hide CyclesOk, QueueOk, Http1Spec.OnBody, Flow.Mirrors, RequestResponseCycle.Valid, Now, SameResponse, OnlyCycle,
           Flow.FlowControl.Valid, Flow.FlowControl.State;
      ghost var n := |cycles| - 1;
      Latest();
      BodyFrame(abs, data);
      abs := Http1Spec.OnBody(abs, data).(flow := abs.flow);
      if cycle.responseComplete {
        cycle.Note(abs.cycles[n]);
        waiting := 0;
      } else {
        waiting := cycle.Deliver(data, abs.cycles[n]);
      }
      CyclesKept(n);
      QueueKept();
    }

    method PauseReading()
      requires Valid()
      modifies this`abs, transport`calls, flow`readPaused
      ensures Valid() && abs == old(abs).(flow := Flow.Pause(old(abs).flow))
    {
      hide CyclesOk, QueueOk, Flow.Mirrors;
      flow.PauseReading();
      abs := abs.(flow := Flow.Pause(abs.flow));
      NoCycleChanged();
      QueueKept();
    }

    method OnBody(data: Bytes)
      requires Valid() && abs.parsing
      modifies this`abs, cycles, transport`calls, flow`readPaused
      ensures Valid() && abs == Http1Spec.OnBody(old(abs), data) && cycles == old(cycles)
    {
      hide CyclesOk, QueueOk, Flow.Pause, Flow.Mirrors, Http1Spec.OnBody, Flow.FlowControl.Valid,
          Flow.FlowControl.State;
      Latest();
      BodyFlow(abs, data);
      var waiting := TakeBody(data);
      if waiting > Flow.HIGH_WATER_LIMIT { PauseReading(); }
    }

    method OnMessageComplete()
      requires Valid() && abs.parsing
      modifies this`abs, cycles
      ensures Valid() && abs == Http1Spec.OnMessageComplete(old(abs)) && cycles == old(cycles)
    {
      hide CyclesOk, QueueOk, Http1Spec.OnMessageComplete, Flow.Mirrors, RequestResponseCycle.Valid,
           SameResponse, OnlyCycle;
      ghost var n := |cycles| - 1;
      Latest();
      FinishFrame(abs);
      abs := Http1Spec.OnMessageComplete(abs);
      if cycle.responseComplete {
        cycle.Note(abs.cycles[n]);
      } else {
        cycle.EndOfBody(abs.cycles[n]);
      }
      CyclesKept(n);
      QueueKept();
    }

    /** One callback of the parser. */
    method Callback(cb: Http1Spec.Callback)
      requires Valid() && cb.HeadersComplete? == !abs.parsing
      modifies this, transport`calls, flow`readPaused, cycles
      ensures Valid() && abs == OnCallback(old(abs), cb)
      ensures old(cycles) <= cycles && forall k :: |old(cycles)| <= k < |cycles| ==> fresh(cycles[k])
    {
      hide CyclesOk, ScalarsOk;
      match cb {
        case HeadersComplete(isHead, keepAlive, expect100, defaults) =>
          OnHeadersComplete(isHead, keepAlive, expect100, defaults);
        case Body(data) => OnBody(data);
        case MessageComplete => OnMessageComplete();
      }
    }

    /** `data_received`: the parser makes its callbacks for one read, in order. */
    method DataReceived(callbacks: seq<Http1Spec.Callback>)
      requires Valid() && InOrder(abs.parsing, callbacks)
      modifies this, transport`calls, flow`readPaused, cycles
      ensures Valid() && abs == Feed(old(abs).(timer := NoTimer), callbacks)
      ensures forall k :: 0 <= k < |cycles| ==> cycles[k] in old(cycles) || fresh(cycles[k])
    {
      hide CyclesOk, ScalarsOk, QueueOk, OnCallback;
      Latest();
      UnsetKeepAliveIfRequired();
      ghost var s := abs;
      for i := 0 to |callbacks|
        invariant Valid() && InOrder(abs.parsing, callbacks[i..]) && (abs.parsing ==> abs.cycles != [])
        invariant Feed(s, callbacks) == Feed(abs, callbacks[i..])
        invariant forall k :: 0 <= k < |cycles| ==> cycles[k] in old(cycles) || fresh(cycles[k])
      {
        ghost var before := abs;
        assert callbacks[i..][0] == callbacks[i] && callbacks[i..][1..] == callbacks[i + 1..];
        Callback(callbacks[i]);
        Http1Runs.CallbackFrame(before, callbacks[i]);
      }
      assert callbacks[|callbacks|..] == [];
    }

    method Shutdown()
      requires Valid()
      modifies this`abs, cycles, transport`closing
      ensures Valid() && abs == DoShutdown(old(abs)) && cycles == old(cycles)
    {
      hide CyclesOk, QueueOk, DoShutdown, Flow.Mirrors, Flow.FlowControl.State, Flow.FlowControl.Valid, OnlyCycle;
      ghost var n := |cycles| - 1;
      Latest();
      ShutdownFrame(abs);
      abs := DoShutdown(abs);
      if cycle == null || cycle.responseComplete {
        transport.Close();
        NoCycleChanged();
      } else {
        cycle.abs := abs.cycles[n];
        cycle.keepAlive := false;
        CyclesKept(n);
      }
      QueueKept();
    }

    /** The latest cycle, if there is one, is told of the loss. */
    method DisconnectLatest()
      requires Valid()
      modifies this`abs, cycles
      ensures Valid() && cycles == old(cycles)
      ensures abs == Lose(old(abs), true).(closing := old(abs).closing, timer := old(abs).timer)
    {
      hide CyclesOk, QueueOk, Lose, Flow.Mirrors, RequestResponseCycle.Valid,
           Flow.FlowControl.State, Flow.FlowControl.Valid, Now, SameResponse, OnlyCycle;
      ghost var n := |cycles| - 1;
      Latest();
      LoseFrame(abs, true);
      abs := Lose(abs, true).(closing := abs.closing, timer := abs.timer);
      if cycle != null {
        cycle.Disconnect(abs.cycles[n]);
        CyclesKept(n);
      } else {
        NoCycleChanged();
      }
      QueueKept();
    }

    method CloseTransport()
      requires Valid()
      modifies this`abs, transport`closing
      ensures Valid() && abs == old(abs).(closing := true)
    {
      hide CyclesOk, QueueOk, Flow.Mirrors, Flow.FlowControl.State, Flow.FlowControl.Valid;
      transport.Close();
      abs := abs.(closing := true);
      NoCycleChanged();
      QueueKept();
    }

    method ResumeWriting()
      requires Valid()
      modifies flow`writePaused, flow`isWritable
      ensures Valid() && abs == old(abs)
    {
      hide CyclesOk, QueueOk, Flow.Mirrors;
      flow.ResumeWriting();
      NoCycleChanged();
      QueueKept();
    }

    method ConnectionLost(clean: bool)
      requires Valid()
      modifies this`abs, this`timeoutKeepAliveTask, cycles, transport`closing, flow`writePaused, flow`isWritable
      ensures Valid() && abs == Lose(old(abs), clean) && cycles == old(cycles)
    {
      hide Valid;
      DisconnectLatest();
      ResumeWriting();
      CloseTransport();  // by asyncio if not by the handler: a lost transport is closing
      if clean { UnsetKeepAliveIfRequired(); }
    }

    method TimeoutKeepAliveHandler()
      requires Valid() && abs.timer == Armed
      modifies this, transport`closing
      ensures Valid() && abs == Step(old(abs), TimerFires) && cycles == old(cycles)
    {
      hide CyclesOk, QueueOk;
      timeoutKeepAliveTask := Fired;  // the handle stays in place once it has fired
      if !transport.closing { transport.Close(); }
      abs := abs.(timer := Fired, closing := true);
      NoCycleChanged();
      QueueKept();
    }

    // ---------- whole runs ----------

    /** One event of the environment: the method that handles it is called. */
    method Perform(e: Event)
      requires Valid() && Shape(abs) && Enabled(abs, e)
      modifies this, transport, flow, cycles
      ensures Valid() && abs == Step(old(abs), e)
      ensures forall k :: 0 <= k < |cycles| ==> cycles[k] in old(cycles) || fresh(cycles[k])
    {
      hide Valid, CyclesOk, QueueOk, ScalarsOk, RequestResponseCycle.Valid, Feed, Http1Spec.Send, AfterSend, AppEnds,
           Http1Spec.End, Http1Spec.ReceiveBegin, Http1Spec.ReceiveEnd, DoShutdown, Lose, Shape, InOrder;
      Counted();
      match e {
        case DataReceived(callbacks) => DataReceived(callbacks);
        case ReceiveBegins(i) => cycles[i].ReceiveBegin(this);
        case ReceiveEnds(i) => var _ := cycles[i].ReceiveEnd(this);
        case AppSends(i, m) => var _ := cycles[i].Send(m, this);
        case AppEnded(i, how) => var _ := cycles[i].AppEnds(how, this);
        case Sends500(i) => cycles[i].Sends500(this);
        case Ends500(i) => cycles[i].Ends500(this);
        case TimerFires => TimeoutKeepAliveHandler();
        case Shutdown => Shutdown();
        case ConnectionLost(clean) => ConnectionLost(clean);
      }
    }

    lemma Counted()
      requires Valid()
      ensures |cycles| == |abs.cycles|
      ensures forall k :: 0 <= k < |cycles| ==> cycles[k].index == k && cycles[k].abs == abs.cycles[k]
      ensures forall k :: 0 <= k < |cycles| ==> cycles[k].Belongs(this)
    {
    }

    /** Any run of the connection that the environment allows, event by event. */
    method Serve(es: seq<Event>)
      requires Valid() && Shape(abs) && Http1Runs.Runs(abs, es)
      modifies this, transport, flow, cycles
      ensures Valid() && abs == Http1Runs.Run(old(abs), es)
    {
      hide Valid, Shape, Enabled, Step;
      assert es[0..] == es;
      for k := 0 to |es|
        invariant Valid() && Shape(abs) && Http1Runs.Runs(abs, es[k..])
        invariant Http1Runs.Run(abs, es[k..]) == Http1Runs.Run(old(abs), es)
        invariant forall k :: 0 <= k < |cycles| ==> cycles[k] in old(cycles) || fresh(cycles[k])
      {
        assert es[k..][0] == es[k] && es[k..][1..] == es[k + 1..];
        Http1Runs.StepKeepsShape(abs, es[k]);
        Perform(es[k]);
      }
      assert es[|es|..] == [];
    }
  }
}
