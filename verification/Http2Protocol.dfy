/** ZttpH2Protocol and RequestResponseCycle of zttp_h2_impl.py, field by field. Each object carries a ghost
    value `abs`, the state that Http2Spec speaks of; `Valid` ties the fields to it, and every method moves
    `abs` by the specification's function for that piece of code. The calls made on the library's stream are
    recorded; the bytes that the library turns them into are not part of this model. */
module Http2Protocol {
  import opened Text
  import opened Http2Spec
  import Http2Multiplexer
  import Http2Runs
  import Flow

  class RequestResponseCycle {
    const streamId: nat
    const transport: Flow.Transport
    const flow: Flow.FlowControl
    const defaultHeaders: seq<(Bytes, Bytes)>
    const isHead: bool         // scope["method"] == "HEAD"
    const wantsTrailers: bool  // scope["headers"] has "te: trailers"

    const resumeReading: ZttpH2Protocol  // whose method the callback is
    var onResponse: ZttpH2Protocol?      // null once it has been replaced by a no-op
    var disconnected: bool
    var body: Bytes
    var moreBody: bool
    var messageEvent: bool
    var responseStarted: bool
    var responseComplete: bool
    var bodyComplete: bool
    var trailersExpected: bool
    var trailers: seq<(Bytes, Bytes)>
    var bodyless: bool
    var expectedContentLength: Option<int>
    var stream: seq<Call>  // the calls made on `zttp.Stream`
    ghost var abs: Cycle

    /** The response fields hold `o`. */
    ghost predicate Shows(o: Out)
      reads this`responseStarted, this`responseComplete, this`bodyComplete, this`trailersExpected, this`trailers
      reads this`bodyless, this`expectedContentLength, this`stream
    {
      && o.defaults == defaultHeaders && o.isHead == isHead && o.wantsTrailers == wantsTrailers
      && o.started == responseStarted && o.complete == responseComplete && o.bodyComplete == bodyComplete
      && o.trailersExpected == trailersExpected && o.trailers == trailers && o.bodyless == bodyless
      && o.remaining == expectedContentLength && o.calls == stream
    }

    predicate Staged()
      reads this`responseStarted, this`responseComplete, this`bodyComplete, this`expectedContentLength
    {
      && (responseComplete ==> bodyComplete) && (bodyComplete ==> responseStarted)
      && (!responseStarted ==> expectedContentLength.None?)
    }

    ghost predicate Valid()
      reads this
    {
      && Shows(abs.out) && Staged()
      && abs.disconnected == disconnected && abs.body == body && abs.moreBody == moreBody
      && abs.eventSet == messageEvent && (abs.onResponse <==> onResponse != null)
    }

    ghost predicate Belongs(p: ZttpH2Protocol)
      reads this`onResponse
    {
      transport == p.transport && flow == p.flow && resumeReading == p && (onResponse == null || onResponse == p)
    }

    /** The cycle is one of the connection's. */
    ghost predicate In(p: ZttpH2Protocol)
      reads p`streams
    {
      streamId in p.streams && p.streams[streamId] == this
    }

    constructor (streamId: nat, transport: Flow.Transport, flow: Flow.FlowControl, defaultHeaders: seq<(Bytes, Bytes)>,
                 isHead: bool, wantsTrailers: bool, protocol: ZttpH2Protocol)
      ensures Valid() && abs == NewCycle(NewOut(defaultHeaders, isHead, wantsTrailers))
      ensures this.streamId == streamId && this.transport == transport && this.flow == flow
      ensures onResponse == resumeReading == protocol
    {
      this.streamId, this.transport, this.flow := streamId, transport, flow;
      this.defaultHeaders, this.isHead, this.wantsTrailers := defaultHeaders, isHead, wantsTrailers;
      resumeReading, onResponse := protocol, protocol;
      disconnected, body, moreBody, messageEvent := false, "", true, false;
      responseStarted, responseComplete, bodyComplete, trailersExpected := false, false, false, false;
      trailers, bodyless, expectedContentLength, stream := [], false, None, [];
      abs := NewCycle(NewOut(defaultHeaders, isHead, wantsTrailers));
    }

    /** The header loop: `expected_content_length` takes the last number, and the headers are those passed on. */
    method TakeHeaders(headers: seq<(Bytes, Bytes)>) returns (raised: bool, fields: seq<(Bytes, Bytes)>)
      requires expectedContentLength.None?
      modifies this`expectedContentLength
      ensures LastLength(headers).0 == expectedContentLength && LastLength(headers).1 == raised
      ensures !raised ==> fields == HeadersOf(headers)
    {
      hide Lower, PyInt, Forbidden;
      assert headers[..0] == [];
      fields := [];
      for i := 0 to |headers|
        invariant LastLength(headers[..i]).0 == expectedContentLength && !LastLength(headers[..i]).1
        invariant fields == HeadersOf(headers[..i])
      {
        assert headers[..i + 1][..i] == headers[..i];
        var name, value := Lower(headers[i].0), headers[i].1;
        LengthIsForwarded(value);
        if !Forbidden(name) && (name == "te" ==> Strip(Lower(value), IsSpace) == "trailers") {
          if name == "content-length" {
            var n := PyInt(value);
            if n.None? {
              FailureSticks(headers, i + 1);
              return true, fields;
            }
            expectedContentLength := n;
          }
          fields := fields + [(name, value)];
        }
      }
      assert headers[..|headers|] == headers;
      raised := false;
    }

    /** The start message's fields and headers. */
    method WriteHead(m: Message) returns (raised: bool)
      requires m.ResponseStart? && expectedContentLength.None?
      modifies this`responseStarted, this`trailersExpected, this`expectedContentLength, this`bodyless, this`stream
      ensures responseStarted && trailersExpected == m.trailers
      ensures var (length, failed) := LastLength(defaultHeaders + m.headers);
              var none := isHead || m.status == 204 || m.status == 304 || m.status < 200;
              && raised == failed
              && bodyless == (if failed then old(bodyless) else none)
              && expectedContentLength == (if !failed && none then None else length)
              && stream == if failed then old(stream) else old(stream) + [ResponseTo(m, defaultHeaders)]
    {
      hide LastLength, HeadersOf;
      responseStarted := true;
      trailersExpected := m.trailers;
      var fields;
      raised, fields := TakeHeaders(defaultHeaders + m.headers);
      if !raised {
        bodyless := isHead || m.status == 204 || m.status == 304 || m.status < 200;
        if bodyless { expectedContentLength := None; }
        stream := stream + [SendResponse(m.status, fields)];
      }
    }

    method StartResponse(m: Message) returns (raised: bool)
      requires Valid() && !responseStarted && m.ResponseStart?
      modifies this`responseStarted, this`trailersExpected, this`expectedContentLength, this`bodyless, this`stream,
          this`abs
      ensures Valid() && raised == SendStart(old(abs).out, m).raised
      ensures abs == old(abs).(out := SendStart(old(abs).out, m).out)
    {
      hide LastLength, SendStart, HeadersOf;
      ghost var r := SendStart(abs.out, m);
      StartFrame(abs.out, m);
      raised := WriteHead(m);
      assert Shows(r.out) && Staged();
      abs := abs.(out := r.out);
    }

    /** A body message against the declared length. */
    method Charge(data: Bytes) returns (tooLong: bool, content: Bytes)
      modifies this`expectedContentLength
      ensures content == if bodyless then "" else data
      ensures tooLong == (!bodyless && old(expectedContentLength).Some? && |data| > old(expectedContentLength).value)
      ensures expectedContentLength == if bodyless || tooLong
          || old(expectedContentLength).None? then old(expectedContentLength)
                                       else Some(old(expectedContentLength).value - |data|)
    {
      tooLong, content := false, data;
      if bodyless {
        content := "";
      } else if expectedContentLength.Some? {
        if |content| > expectedContentLength.value { return true, content; }
        expectedContentLength := Some(expectedContentLength.value - |content|);
      }
    }

    /** The write of a body message, and the end of the body if it is the last. */
    method WriteContent(content: Bytes, more: bool) returns (raised: bool)
      modifies this`bodyComplete, this`responseComplete, this`stream
      ensures raised == (!more && expectedContentLength.Some? && expectedContentLength.value != 0)
      ensures bodyComplete == (old(bodyComplete) || (!more && !raised))
      ensures responseComplete == (old(responseComplete) || (!more && !raised && !trailersExpected))
      ensures var written := if content == "" then old(stream) else old(stream) + [SendData(content)];
              stream == if more || raised || trailersExpected then written else written + [EndMessage([])]
    {
      if content != "" { stream := stream + [SendData(content)]; }
      raised := false;
      if !more {
        if expectedContentLength.Some? && expectedContentLength.value != 0 { return true; }
        bodyComplete := true;
        if !trailersExpected {
          stream := stream + [EndMessage([])];
          responseComplete := true;
        }
      }
    }

    method ChargeAndWrite(data: Bytes, more: bool) returns (raised: bool)
      requires Shows(abs.out) && Staged() && responseStarted && !bodyComplete && !responseComplete
      modifies this`expectedContentLength, this`bodyComplete, this`responseComplete, this`stream
      ensures var r := SendBody(abs.out, data, more); Shows(r.out) && Staged() && raised == r.raised
    {
      hide SendBody;
      BodyFrame(abs.out, data, more);
      ghost var r := SendBody(abs.out, data, more);
      var tooLong, content := Charge(data);
      if tooLong {
        assert r == Sent(abs.out, true);
        return true;
      }
      raised := WriteContent(content, more);
      assert r.out.calls == stream;
      assert r.out.remaining == expectedContentLength && r.raised == raised;
    }

    method WriteBody(data: Bytes, more: bool) returns (raised: bool)
      requires Valid() && responseStarted && !bodyComplete && !responseComplete
      modifies this`expectedContentLength, this`bodyComplete, this`responseComplete, this`stream, this`abs
      ensures Valid() && raised == SendBody(old(abs).out, data, more).raised
      ensures abs == old(abs).(out := SendBody(old(abs).out, data, more).out)
    {
      hide SendBody, Shows, Staged;
      raised := ChargeAndWrite(data, more);
      abs := abs.(out := SendBody(abs.out, data, more).out);
    }

    /** The trailers loop. */
    method GatherTrailers(headers: seq<(Bytes, Bytes)>) returns (raised: bool)
      modifies this`trailers
      ensures var (gathered, failed) := Gather(headers, wantsTrailers);
              raised == failed && trailers == old(trailers) + gathered
    {
      hide Gather, Dropped, Lower;
      GatherNothing(headers, wantsTrailers);
      ghost var gathered: seq<(Bytes, Bytes)> := [];
      for i := 0 to |headers|
        invariant trailers == old(trailers) + gathered
        invariant Gather(headers, wantsTrailers).0 == gathered + Gather(headers[i..], wantsTrailers).0
        invariant Gather(headers, wantsTrailers).1 == Gather(headers[i..], wantsTrailers).1
      {
        GatherStep(headers, i, wantsTrailers);
        var name := Lower(headers[i].0);
        if name != "" && name[0] == ':' { return true; }
        if !Dropped(name) && wantsTrailers {
          trailers := trailers + [(name, headers[i].1)];
          gathered := gathered + [(name, headers[i].1)];
        }
      }
      raised := false;
    }

    method WriteTrailers(headers: seq<(Bytes, Bytes)>, more: bool) returns (raised: bool)
      requires Valid() && bodyComplete && !responseComplete
      modifies this`trailers, this`responseComplete, this`stream, this`abs
      ensures Valid() && raised == SendTrailers(old(abs).out, headers, more).raised
      ensures abs == old(abs).(out := SendTrailers(old(abs).out, headers, more).out)
    {
      hide Gather, SendTrailers;
      TrailersFrame(abs.out, headers, more);
      ghost var o := abs.out;
      raised := GatherTrailers(headers);
      if !raised && !more {
        stream := stream + [EndMessage(trailers)];
        responseComplete := true;
      }
      abs := abs.(out := SendTrailers(o, headers, more).out);
    }

    method SendHint(links: seq<Bytes>)
      requires Valid()
      modifies this`stream, this`abs
      ensures Valid()
      ensures abs == old(abs).(out := old(abs).out.(calls := old(abs).out.calls + [SendInformational(links)]))
    {
      stream := stream + [SendInformational(links)];
      abs := abs.(out := abs.out.(calls := stream));
    }

    lemma Stage()
      requires Valid()
      ensures abs.out.started == responseStarted && abs.out.complete == responseComplete
      ensures abs.out.bodyComplete == bodyComplete && Staged()
      ensures abs.disconnected == disconnected && (abs.onResponse <==> onResponse != null) && abs.body == body
    {
    }

    /** The message event is set once the response is complete. */
    method Wake()
      requires Valid()
      modifies this`messageEvent, this`abs
      ensures Valid() && abs == old(abs).(eventSet := true)
    {
      hide Shows;
      messageEvent := true;
      abs := abs.(eventSet := true);
    }

    /** The branches of `send` on a connected stream. */
    method Dispatch(m: Message) returns (raised: bool)
      requires Valid()
      modifies this
      ensures Valid() && raised == Http2Spec.Send(old(abs).out, m).raised && onResponse == old(onResponse)
      ensures abs == old(abs).(out := Http2Spec.Send(old(abs).out, m).out)
    {
      hide SendStart, SendBody, SendTrailers, Http2Spec.Send, Shows, Valid;
      SendCases(abs.out, m);
      Stage();
      raised := true;
      if m.EarlyHint? && !responseStarted {
        SendHint(m.links);
        raised := false;
      } else if !responseStarted {
        if m.ResponseStart? { raised := StartResponse(m); }
      } else if !bodyComplete {
        if m.ResponseBody? { raised := WriteBody(m.body, m.more); }
      } else if !responseComplete {
        if m.ResponseTrailers? { raised := WriteTrailers(m.headers, m.more); }
      }
    }

    /** `send` on a connected stream, up to the call of `on_response`; `done` says that the response is now complete. */
    method Answer(m: Message) returns (raised: bool, done: bool)
      requires Valid()
      modifies this
      ensures Valid() && onResponse == old(onResponse)
      ensures var r := Http2Spec.Send(old(abs).out, m);
              && raised == r.raised && done == (r.out.complete && !raised)
              && abs == old(abs).(out := r.out, eventSet := old(abs).eventSet || done)
    {
      hide Http2Spec.Send, Valid, Shows;
      raised := Dispatch(m);
      Stage();
      done := responseComplete && !raised;
      if done { Wake(); }
    }

    /** `send`, from where the wait for a writable transport ends. */
    method Send(m: Message, ghost p: ZttpH2Protocol) returns (raised: bool)
      requires p.Valid() && In(p)
      modifies p, this, transport, flow`readPaused
      ensures p.Valid() && p.streams == old(p.streams)
      ensures p.abs == AppSends(old(p.abs), streamId, m) && raised == SendRaises(old(p.abs), streamId, m)
    {
      hide ZttpH2Protocol.StreamsOk, ZttpH2Protocol.ScalarsOk, Http2Spec.Send, Http2Spec.Respond, Valid, Shows;
      p.At(streamId);
      Stage();
      if disconnected { return false; }
      var done;
      raised, done := Answer(m);
      p.abs := p.abs.(streams := p.abs.streams[streamId := abs]);
      p.OneChanged(streamId);
      if done { CallOnResponse(p); }
    }

    /** `self.on_response(...)`, which then becomes a no-op. */
    method CallOnResponse(ghost p: ZttpH2Protocol)
      requires p.Valid() && In(p)
      modifies p, this`onResponse, this`abs, transport, flow`readPaused
      ensures p.Valid() && p.streams == old(p.streams) && p.abs == Respond(old(p.abs), streamId)
      ensures abs == old(abs).(onResponse := false)
    {
      hide ZttpH2Protocol.StreamsOk, ZttpH2Protocol.ScalarsOk, Http2Spec.Respond, Shows, OnStreamClosed;
      p.At(streamId);
      RespondIs(p.abs, streamId);
      if onResponse != null {
        onResponse.OnResponseComplete(streamId);
        label L:
        onResponse := null;
        abs := abs.(onResponse := false);
        p.abs := p.abs.(streams := p.abs.streams[streamId := abs]);
        p.OneChanged@L(streamId);
      }
    }

    /** The `finally` of `run_asgi`. */
    method Finish(ghost p: ZttpH2Protocol)
      requires p.Valid() && In(p)
      modifies p, this`onResponse, this`abs, transport, flow`readPaused
      ensures p.Valid() && p.streams == old(p.streams) && p.abs == Http2Spec.Finish(old(p.abs), streamId)
    {
      hide ZttpH2Protocol.StreamsOk, ZttpH2Protocol.ScalarsOk, Http2Spec.Respond, Shows;
      p.At(streamId);
      CallOnResponse(p);
      p.At(streamId);
      MoveTo(Ended, p);
    }

    /** A step of the history of the task. */
    ghost method MoveTo(phase: Phase, p: ZttpH2Protocol)
      requires p.Valid() && In(p)
      modifies p`abs, this`abs
      ensures p.Valid() && abs == old(abs).(phase := phase)
      ensures p.abs == old(p.abs).(streams := old(p.abs).streams[streamId := abs])
    {
      hide ZttpH2Protocol.StreamsOk, ZttpH2Protocol.ScalarsOk, Shows;
      p.At(streamId);
      abs := abs.(phase := phase);
      p.abs := p.abs.(streams := p.abs.streams[streamId := abs]);
      p.OneChanged(streamId);
    }

    method ResetStream()
      requires Valid()
      modifies this`abs, this`stream, this`disconnected
      ensures Valid()
      ensures abs == old(abs).(out := old(abs).out.(calls := old(abs).out.calls + [Reset]), disconnected := true)
    {
      stream := stream + [Reset];
      disconnected := true;
      abs := abs.(out := abs.out.(calls := stream), disconnected := true);
    }

    method AbortStream(ghost p: ZttpH2Protocol)
      requires p.Valid() && In(p)
      modifies p`abs, this`abs, this`stream, this`disconnected
      ensures p.Valid() && p.abs == Http2Spec.AbortStream(old(p.abs), streamId)
    {
      hide ZttpH2Protocol.StreamsOk, Flow.FlowControl.Valid, Flow.FlowControl.State, Valid;
      p.At(streamId);
      if transport.closing { return; }
      ResetStream();
      p.abs := p.abs.(streams := p.abs.streams[streamId := abs]);
      p.OneChanged(streamId);
    }

    /** `run_asgi` once the application has ended; `fails` says that a 500 response is still to be sent. */
    method AppEnds(how: Outcome, ghost p: ZttpH2Protocol) returns (fails: bool)
      requires p.Valid() && In(p)
      modifies p, this, transport, flow`readPaused
      ensures p.Valid() && p.streams == old(p.streams) && p.abs == Http2Spec.AppEnds(old(p.abs), streamId, how)
    {
      hide ZttpH2Protocol.StreamsOk, ZttpH2Protocol.ScalarsOk, Http2Spec.Finish, Http2Spec.AbortStream, Shows, Valid;
      p.At(streamId);
      Stage();
      fails := false;
      match how {
        case Raised =>
          if !responseStarted { fails := true; } else { AbortStream(p); }
        case ReturnedValue =>
          AbortStream(p);
        case ReturnedNone =>
          if !responseStarted && !disconnected {
            fails := true;
          } else if !responseComplete && !disconnected {
            AbortStream(p);
          }
      }
      if fails { MoveTo(Starting500, p); } else { Finish(p); }
    }

    /** `send_500_response` up to the end of its first `send`; if that raises, `run_asgi` ends. */
    method Sends500(ghost p: ZttpH2Protocol)
      requires p.Valid() && In(p) && Enabled(p.abs, Event.Sends500(streamId))
      modifies p, this, transport, flow`readPaused
      ensures p.Valid() && p.streams == old(p.streams) && p.abs == Step(old(p.abs), Event.Sends500(streamId))
    {
      hide ZttpH2Protocol.StreamsOk, ZttpH2Protocol.ScalarsOk, Http2Spec.Finish, AppSends, SendRaises, Shows, Valid;
      var raised := Send(START_500, p);
      p.At(streamId);
      if raised { Finish(p); } else { MoveTo(Finishing500, p); }
    }

    /** The second `send` of `send_500_response`, and the `finally`. */
    method Ends500(ghost p: ZttpH2Protocol)
      requires p.Valid() && In(p) && Enabled(p.abs, Event.Ends500(streamId))
      modifies p, this, transport, flow`readPaused
      ensures p.Valid() && p.streams == old(p.streams) && p.abs == Step(old(p.abs), Event.Ends500(streamId))
    {
      hide ZttpH2Protocol.StreamsOk, ZttpH2Protocol.ScalarsOk, Http2Spec.Finish, AppSends, SendRaises, Shows, Valid;
      var _ := Send(BODY_500, p);
      p.At(streamId);
      Finish(p);
    }

    /** `receive`, up to the wait for the message event. */
    method ReceiveBegin(ghost p: ZttpH2Protocol)
      requires p.Valid() && In(p)
      modifies p`abs, this`abs, transport`calls, flow`readPaused
      ensures p.Valid() && p.streams == old(p.streams) && p.abs == Http2Spec.ReceiveBegin(old(p.abs), streamId)
    {
      hide ZttpH2Protocol.StreamsOk, ZttpH2Protocol.ScalarsOk, ResumeIfIdle, Shows;
      p.At(streamId);
      Stage();
      if !disconnected && !responseComplete {
        abs := abs.(receiving := true);
        p.abs := p.abs.(streams := p.abs.streams[streamId := abs]);
        p.OneChanged(streamId);
        resumeReading.ResumeReadingIfIdle();
      }
    }

    method TakeMessage() returns (message: Option<(Bytes, bool)>)
      requires Valid()
      modifies this`messageEvent, this`body, this`abs
      ensures Valid()
      ensures var c := old(abs); var over := c.disconnected || c.out.complete;
              && message == (if over then None else Some((c.body, c.moreBody)))
              && abs == c.(eventSet := false, receiving := false, body := if over then c.body else "")
    {
      hide Shows;
      Stage();
      messageEvent := false;
      abs := abs.(eventSet := false, receiving := false);
      if disconnected || responseComplete { return None; }
      message := Some((body, moreBody));
      body := "";
      abs := abs.(body := "");
    }

    /** `receive`, once the message event is set: the event returned, or None for a disconnect. */
    method ReceiveEnd(ghost p: ZttpH2Protocol) returns (message: Option<(Bytes, bool)>)
      requires p.Valid() && In(p)
      modifies p`abs, this`messageEvent, this`body, this`abs
      ensures p.Valid() && p.streams == old(p.streams) && p.abs == Http2Spec.ReceiveEnd(old(p.abs), streamId)
      ensures var c := old(abs);
              message == if c.disconnected || c.out.complete then None else Some((c.body, c.moreBody))
    {
      hide ZttpH2Protocol.StreamsOk, ZttpH2Protocol.ScalarsOk, Shows, Valid;
      p.At(streamId);
      message := TakeMessage();
      p.abs := p.abs.(streams := p.abs.streams[streamId := abs]);
      p.OneChanged(streamId);
    }

    /** More of the request body; returns how much is waiting. */
    method Deliver(data: Bytes) returns (waiting: nat)
      requires Valid()
      modifies this`body, this`messageEvent, this`abs
      ensures Valid() && abs == old(abs).(body := old(abs).body + data, eventSet := true) && waiting == |abs.body|
    {
      hide Shows;
      body := body + data;
      messageEvent := true;
      abs := abs.(body := body, eventSet := true);
      waiting := |body|;
    }

    method EndOfBody()
      requires Valid()
      modifies this`moreBody, this`messageEvent, this`abs
      ensures Valid() && abs == old(abs).(moreBody := false, eventSet := true)
    {
      hide Shows;
      moreBody := false;
      messageEvent := true;
      abs := abs.(moreBody := false, eventSet := true);
    }

    method ResetByPeer()
      requires Valid()
      modifies this`disconnected, this`messageEvent, this`abs
      ensures Valid()
      ensures var c := old(abs); var live := !c.out.complete;
              abs == c.(peerReset := true, disconnected := c.disconnected || live, eventSet := c.eventSet || live)
    {
      hide Shows;
      Stage();
      abs := abs.(peerReset := true);
      if !responseComplete {
        disconnected := true;
        messageEvent := true;
        abs := abs.(disconnected := true, eventSet := true);
      }
    }

    method Disconnect()
      requires Valid()
      modifies this`disconnected, this`messageEvent, this`abs
      ensures Valid() && abs == Lost(old(abs))
    {
      hide Shows;
      Stage();
      if !responseComplete { disconnected := true; }
      messageEvent := true;
      abs := Lost(abs);
    }
  }

  /** The branches of `send` as one would read them off the code. */
  lemma SendCases(o: Out, m: Message)
    ensures Send(o, m) ==
      if m.EarlyHint? && !o.started then Sent(o.(calls := o.calls + [SendInformational(m.links)]), false)
      else if !o.started && m.ResponseStart? then SendStart(o, m)
      else if o.started && !o.bodyComplete && m.ResponseBody? then SendBody(o, m.body, m.more)
      else if o.started && o.bodyComplete && !o.complete && m.ResponseTrailers? then SendTrailers(o, m.headers, m.more)
      else Sent(o, true)
  {
    hide SendStart, SendBody, SendTrailers;
  }

  lemma LengthIsForwarded(value: Bytes)
    ensures Forwarded("content-length", value)
  {
  }

  /** The two values agree on what a start message does not change. */
  ghost predicate SameStage(o: Out, r: Out) {
    r.defaults == o.defaults && r.isHead == o.isHead && r.wantsTrailers == o.wantsTrailers
  }

  lemma StartFrame(o: Out, m: Message)
    requires m.ResponseStart?
    ensures var r := SendStart(o, m); var (length, failed) := LastLength(o.defaults + m.headers);
            var bodyless := o.isHead || m.status == 204 || m.status == 304 || m.status < 200;
            && r.raised == failed && SameStage(o, r.out)
            && r.out.started && r.out.complete == o.complete && r.out.bodyComplete == o.bodyComplete
            && r.out.trailersExpected == m.trailers && r.out.trailers == o.trailers
            && r.out.bodyless == (if failed then o.bodyless else bodyless)
            && r.out.remaining == (if !failed && bodyless then None else length)
            && r.out.calls == (if failed then o.calls else o.calls + [ResponseTo(m, o.defaults)])
  {
    hide LastLength, HeadersOf;
    if LastLength(o.defaults + m.headers).1 {} else {}
  }

  lemma BodyFrame(o: Out, data: Bytes, more: bool)
    ensures var r := SendBody(o, data, more);
            var body := if o.bodyless then "" else data;
            var tooLong := !o.bodyless && o.remaining.Some? && |body| > o.remaining.value;
            var remaining := if !o.bodyless && o.remaining.Some? && !tooLong then Some(o.remaining.value - |body|)
                             else o.remaining;
            var short := !more && remaining.Some? && remaining.value != 0;
            var written := if body == "" then o.calls else o.calls + [SendData(body)];
            && (tooLong ==> r == Sent(o, true))
            && (!tooLong ==>
                  && r.raised == short && SameStage(o, r.out) && r.out.started == o.started
                  && r.out.trailersExpected == o.trailersExpected && r.out.trailers == o.trailers
                  && r.out.bodyless == o.bodyless && r.out.remaining == remaining
                  && r.out.bodyComplete == (!more && !short)
                  && r.out.complete == (!more && !short && !o.trailersExpected)
                  && r.out.calls == if r.out.complete then written + [EndMessage([])] else written)
  {
    var r := SendBody(o, data, more);
    var body := if o.bodyless then "" else data;
    if !o.bodyless && o.remaining.Some? && |body| > o.remaining.value {
    } else {
      assert o.calls + [] + [] == o.calls;
      if body == "" {
        assert o.calls + [] == o.calls;
      } else {
        assert o.calls + [SendData(body)] + [] == o.calls + [SendData(body)];
      }
    }
  }

  lemma TrailersFrame(o: Out, hs: seq<(Bytes, Bytes)>, more: bool)
    ensures var r := SendTrailers(o, hs, more); var (gathered, failed) := Gather(hs, o.wantsTrailers);
            && r.raised == failed && SameStage(o, r.out) && r.out.started == o.started
            && r.out.bodyComplete == o.bodyComplete && r.out.trailersExpected == o.trailersExpected
            && r.out.bodyless == o.bodyless && r.out.remaining == o.remaining
            && r.out.trailers == o.trailers + gathered && r.out.complete == (!failed && !more)
            && r.out.calls == if r.out.complete then o.calls + [EndMessage(r.out.trailers)] else o.calls
  {
    hide Gather;
    assert o.calls + [] == o.calls;
  }

  lemma GatherStep(hs: seq<(Bytes, Bytes)>, i: nat, wanted: bool)
    requires i < |hs|
    ensures var name := Lower(hs[i].0); var rest := Gather(hs[i + 1..], wanted);
            Gather(hs[i..], wanted) ==
              if name != "" && name[0] == ':' then ([], true)
              else (if Dropped(name) || !wanted then rest.0 else [(name, hs[i].1)] + rest.0, rest.1)
  {
    hide Lower, Dropped;
    assert hs[i..][0] == hs[i] && hs[i..][1..] == hs[i + 1..];
  }

  lemma GatherNothing(hs: seq<(Bytes, Bytes)>, wanted: bool)
    ensures hs[0..] == hs && Gather(hs[|hs|..], wanted) == ([], false)
  {
  }

  lemma RespondIs(s: Conn, id: nat)
    requires id in s.streams
    ensures var c := s.streams[id];
            var t := OnStreamClosed(s.(total := s.total + 1, cycles := s.cycles - {id}));
            Respond(s, id) ==
              if c.onResponse then t.(streams := t.streams[id := c.(onResponse := false)]) else s
    ensures OnStreamClosed(s.(total := s.total + 1, cycles := s.cycles - {id})).streams == s.streams
  {
    hide OnStreamClosed;
    Http2Multiplexer.PhaseIgnored(s.(total := s.total + 1, cycles := s.cycles - {id}), id,
        s.streams[id].(onResponse := false));
  }

  lemma {:induction false} FailureSticks(hs: seq<(Bytes, Bytes)>, k: nat)
    requires k <= |hs| && LastLength(hs[..k]).1
    ensures LastLength(hs) == LastLength(hs[..k])
  {
    hide Lower, PyInt;
    if k == |hs| {
      assert hs[..k] == hs;
    } else {
      var front := hs[..|hs| - 1];
      assert front[..k] == hs[..k];
      FailureSticks(front, k);
    }
  }

  class ZttpH2Protocol {
    const transport: Flow.Transport
    const flow: Flow.FlowControl
    var cycles: map<nat, RequestResponseCycle>
    var shutdownRequested: bool
    var timeoutKeepAliveTask: Timer
    var totalRequests: nat
    // Every cycle made on this connection; in the source, their tasks hold them.
    var streams: map<nat, RequestResponseCycle>
    ghost var abs: Conn

    ghost predicate ScalarsOk()
      reads this, transport, flow
    {
      && flow.transport == transport && flow.Valid() && abs.flow == flow.State()
      && abs.closing == transport.closing && abs.shutdownRequested == shutdownRequested
      && abs.timer == timeoutKeepAliveTask && abs.total == totalRequests
    }

    ghost predicate StreamsOk()
      reads this`streams, this`abs, streams.Values
    {
      && streams.Keys == abs.streams.Keys
      && (forall id :: id in streams ==> streams[id] in streams.Values)
      && (forall id :: id in streams ==> streams[id].streamId == id && streams[id].Belongs(this))
      && (forall id :: id in streams ==> streams[id].Valid() && streams[id].abs == abs.streams[id])
    }

    ghost predicate MapOk()
      reads this`cycles, this`streams, this`abs
    {
      && cycles.Keys == abs.cycles
      && (forall id :: id in cycles ==> id in streams && cycles[id] == streams[id])
    }

    ghost predicate Valid()
      reads this, transport, flow, streams.Values
    {
      ScalarsOk() && StreamsOk() && MapOk()
    }

    constructor (transport: Flow.Transport)
      requires !transport.closing && transport.calls == []
      ensures Valid() && abs == FRESH && streams == map[] && this.transport == transport && fresh(flow)
    {
      this.transport := transport;
      var f := new Flow.FlowControl(transport);
      flow := f;
      cycles, shutdownRequested, timeoutKeepAliveTask, totalRequests := map[], false, NoTimer, 0;
      streams, abs := map[], FRESH;
    }

    lemma At(id: nat)
      requires Valid() && id in streams
      ensures id in abs.streams && streams[id].Valid() && streams[id].abs == abs.streams[id]
      ensures streams[id].Belongs(this) && streams[id].streamId == id && streams[id] in streams.Values
      ensures transport.closing == abs.closing
    {
    }

    /** Only the cycle of stream `id` has changed, to what `abs` now says. */
    twostate lemma StreamKept(id: nat)
      requires old(StreamsOk()) && streams == old(streams) && id in streams
      requires abs.streams.Keys == old(abs.streams).Keys
      requires forall k :: k in streams && k != id ==> abs.streams[k] == old(abs.streams)[k]
      requires forall c :: c in streams.Values && c != streams[id] ==> unchanged(c)
      requires streams[id].Valid() && streams[id].abs == abs.streams[id] && streams[id].Belongs(this)
      ensures StreamsOk()
    {
      forall k | k in streams
        ensures streams[k] in streams.Values && streams[k].streamId == k && streams[k].Belongs(this)
        ensures streams[k].Valid() && streams[k].abs == abs.streams[k]
      {
        assert streams[k] in streams.Values;
        if k != id { assert old(streams[k].streamId) == k; }
      }
    }

    /** The cycles are as they were. */
    twostate lemma NoStreamChanged()
      requires old(StreamsOk()) && streams == old(streams) && abs.streams == old(abs.streams)
      requires forall c :: c in streams.Values ==> unchanged(c)
      ensures StreamsOk()
    {
      forall k | k in streams
        ensures streams[k] in streams.Values && streams[k].streamId == k && streams[k].Belongs(this)
        ensures streams[k].Valid() && streams[k].abs == abs.streams[k]
      {
        assert streams[k] in streams.Values;
      }
    }

    /** Only the cycle of stream `id` has changed, and `abs` says so. */
    twostate lemma OneChanged(id: nat)
      requires old(Valid()) && streams == old(streams) && id in streams && unchanged(flow) && unchanged(transport)
      requires unchanged(`cycles, `shutdownRequested, `timeoutKeepAliveTask, `totalRequests)
      requires abs == old(abs).(streams := old(abs).streams[id := streams[id].abs])
      requires forall c :: c in streams.Values && c != streams[id] ==> unchanged(c)
      requires streams[id].Valid() && streams[id].Belongs(this)
      ensures Valid()
    {
      hide RequestResponseCycle.Valid, Flow.FlowControl.Valid, Flow.FlowControl.State;
      assert streams.Keys == old(abs.streams).Keys;
      StreamKept(id);
      ScalarsKept();
    }

    twostate lemma ScalarsKept()
      requires old(ScalarsOk()) && unchanged(flow) && unchanged(transport)
      requires abs == old(abs).(streams := abs.streams)
      requires unchanged(`shutdownRequested) && unchanged(`timeoutKeepAliveTask) && unchanged(`totalRequests)
      ensures ScalarsOk()
    {
    }

    method UnsetKeepAliveIfRequired()
      requires Valid()
      modifies this`timeoutKeepAliveTask, this`abs
      ensures Valid() && abs == old(abs).(timer := NoTimer)
    {
      hide StreamsOk, Flow.Mirrors;
      if timeoutKeepAliveTask != NoTimer { timeoutKeepAliveTask := NoTimer; }
      abs := abs.(timer := NoTimer);
      NoStreamChanged();
    }

    method ArmKeepAlive()
      requires Valid()
      modifies this`timeoutKeepAliveTask, this`abs
      ensures Valid() && abs == old(abs).(timer := Armed)
    {
      hide StreamsOk, Flow.Mirrors;
      timeoutKeepAliveTask := Armed;
      abs := abs.(timer := Armed);
      NoStreamChanged();
    }

    method CloseConnection()
      requires Valid()
      modifies transport`closing, this`abs
      ensures Valid() && abs == Http2Spec.CloseConnection(old(abs))
    {
      hide StreamsOk, Flow.Mirrors, Flow.FlowControl.Valid, Flow.FlowControl.State;
      if !transport.closing { transport.Close(); }
      abs := abs.(closing := true);
      NoStreamChanged();
    }

    lemma Buffered(id: nat)
      requires Valid() && id in cycles
      ensures Overfull(abs, id) <==> |cycles[id].body| > Flow.HIGH_WATER_LIMIT
    {
      At(id);
    }

    /** Whether a stream in the map is over the high-water mark. */
    method SomeOverfull() returns (found: bool)
      requires Valid()
      ensures found <==> exists id :: id in abs.cycles && Overfull(abs, id)
    {
      hide ScalarsOk, StreamsOk, Overfull, RequestResponseCycle.Valid, RequestResponseCycle.Belongs;
      var todo := cycles.Keys;
      while todo != {}
        invariant todo <= cycles.Keys
        invariant forall id :: id in cycles.Keys - todo ==> !Overfull(abs, id)
      {
        var id :| id in todo;
        Buffered(id);
        if |cycles[id].body| > Flow.HIGH_WATER_LIMIT { return true; }
        todo := todo - {id};
      }
      found := false;
    }

    method ResumeReadingIfIdle()
      requires Valid()
      modifies this`abs, transport`calls, flow`readPaused
      ensures Valid() && abs == ResumeIfIdle(old(abs))
    {
      hide StreamsOk, Flow.Mirrors, Overfull;
      var found := SomeOverfull();
      if found { return; }
      flow.ResumeReading();
      abs := abs.(flow := Flow.Resume(abs.flow));
      NoStreamChanged();
    }

    method OnStreamClosed()
      requires Valid()
      modifies this`abs, this`timeoutKeepAliveTask, transport`calls, transport`closing, flow`readPaused
      ensures Valid() && abs == Http2Spec.OnStreamClosed(old(abs))
    {
      hide StreamsOk, ResumeIfIdle, Flow.FlowControl.Valid, Flow.FlowControl.State;
      if transport.closing { return; }
      ghost var s := abs;
      ResumeReadingIfIdle();
      assert abs == s.(flow := abs.flow) by { Resumes(s); }
      UnsetKeepAliveIfRequired();
      assert cycles == map[] <==> abs.cycles == {};
      if cycles == map[] {
        if shutdownRequested {
          CloseConnection();
          return;
        }
        ArmKeepAlive();
      }
    }

    method OnResponseComplete(streamId: nat)
      requires Valid()
      modifies this`abs, this`cycles, this`totalRequests, this`timeoutKeepAliveTask
      modifies transport`calls, transport`closing, flow`readPaused
      ensures Valid()
      ensures abs == Http2Spec.OnStreamClosed(old(abs).(total := old(abs).total + 1,
          cycles := old(abs).cycles - {streamId}))
    {
      hide StreamsOk, Http2Spec.OnStreamClosed, Flow.FlowControl.Valid, Flow.FlowControl.State;
      totalRequests := totalRequests + 1;
      cycles := cycles - {streamId};
      abs := abs.(total := abs.total + 1, cycles := abs.cycles - {streamId});
      NoStreamChanged();
      OnStreamClosed();
    }

    /** The map has the stream, and its response is not complete. */
    method Find(streamId: nat) returns (cycle: RequestResponseCycle?)
      requires Valid()
      ensures cycle != null <==> Live(abs, streamId)
      ensures cycle != null ==> streamId in cycles && cycle == cycles[streamId] == streams[streamId] && cycle.In(this)
    {
      hide ScalarsOk;
      if streamId !in cycles { return null; }
      At(streamId);
      cycle := cycles[streamId];
      if cycle.responseComplete { return null; }
    }

    method OnData(streamId: nat, data: Bytes)
      requires Valid()
      modifies this`abs, streams.Values, transport`calls, flow`readPaused
      ensures Valid() && abs == Handle(old(abs), Data(streamId, data))
    {
      hide ScalarsOk, StreamsOk, RequestResponseCycle.Valid, RequestResponseCycle.Shows;
      var cycle := Find(streamId);
      if cycle == null { return; }
      At(streamId);
      var waiting := cycle.Deliver(data);
      abs := abs.(streams := abs.streams[streamId := cycle.abs]);
      OneChanged(streamId);
      if waiting > Flow.HIGH_WATER_LIMIT { PauseReading(); }
    }

    method PauseReading()
      requires Valid()
      modifies this`abs, transport`calls, flow`readPaused
      ensures Valid() && abs == old(abs).(flow := Flow.Pause(old(abs).flow))
    {
      hide StreamsOk, Flow.Mirrors;
      flow.PauseReading();
      abs := abs.(flow := Flow.Pause(abs.flow));
      NoStreamChanged();
    }

    method OnEndOfMessage(streamId: nat)
      requires Valid()
      modifies this`abs, streams.Values
      ensures Valid() && abs == Handle(old(abs), EndOfMessage(streamId))
    {
      hide ScalarsOk, StreamsOk, RequestResponseCycle.Valid, RequestResponseCycle.Shows;
      var cycle := Find(streamId);
      if cycle == null { return; }
      At(streamId);
      cycle.EndOfBody();
      abs := abs.(streams := abs.streams[streamId := cycle.abs]);
      OneChanged(streamId);
    }

    /** `self.cycles.pop(stream_id, None)` */
    method Pop(streamId: nat)
      requires Valid()
      modifies this`cycles, this`abs
      ensures Valid() && abs == old(abs).(cycles := old(abs).cycles - {streamId})
    {
      hide StreamsOk, Flow.Mirrors, Flow.FlowControl.Valid, Flow.FlowControl.State;
      cycles := cycles - {streamId};
      abs := abs.(cycles := abs.cycles - {streamId});
      NoStreamChanged();
    }

    method MarkReset(streamId: nat, cycle: RequestResponseCycle)
      requires Valid() && streamId in streams && cycle == streams[streamId]
      modifies this`abs, cycle
      ensures Valid()
      ensures var c := old(cycle.abs); var live := !c.out.complete;
              var d := c.(peerReset := true, disconnected := c.disconnected || live, eventSet := c.eventSet || live);
              old(cycle.abs) == old(abs).streams[streamId]
                  && abs == old(abs).(streams := old(abs).streams[streamId := d])
    {
      hide ScalarsOk, StreamsOk, RequestResponseCycle.Valid, RequestResponseCycle.Shows;
      At(streamId);
      cycle.ResetByPeer();
      abs := abs.(streams := abs.streams[streamId := cycle.abs]);
      OneChanged(streamId);
    }

    method HandleRstStream(streamId: nat)
      requires Valid()
      modifies this, streams.Values, transport, flow`readPaused
      ensures Valid() && abs == HandleRst(old(abs), streamId) && streams == old(streams)
    {
      hide ScalarsOk, StreamsOk, RequestResponseCycle.Valid, RequestResponseCycle.Shows, Http2Spec.OnStreamClosed;
      if streamId !in cycles { return; }
      var cycle := cycles[streamId];
      At(streamId);
      Pop(streamId);
      MarkReset(streamId, cycle);
      OnStreamClosed();
    }

    /** A new cycle joins the others. */
    twostate lemma StreamAdded(id: nat)
      requires old(StreamsOk()) && id !in old(streams) && id in streams && streams == old(streams)[id := streams[id]]
      requires forall c :: c in old(streams.Values) ==> unchanged(c)
      requires abs.streams == old(abs.streams)[id := streams[id].abs]
      requires streams[id].Valid() && streams[id].Belongs(this) && streams[id].streamId == id
      ensures StreamsOk()
    {
      hide RequestResponseCycle.Valid;
      forall k | k in streams
        ensures streams[k] in streams.Values && streams[k].streamId == k && streams[k].Belongs(this)
        ensures streams[k].Valid() && streams[k].abs == abs.streams[k]
      {
        if k != id { assert old(streams)[k] in old(streams.Values); }
      }
    }

    method HandleRequest(streamId: nat, isHead: bool, wantsTrailers: bool, defaultHeaders: seq<(Bytes, Bytes)>)
      requires Valid() && streamId !in abs.streams
      modifies this`cycles, this`streams, this`abs
      ensures Valid() && abs == Handle(old(abs), Request(streamId, isHead, wantsTrailers, defaultHeaders))
      ensures streamId in streams && fresh(streams[streamId])
      ensures streams == old(streams)[streamId := streams[streamId]]
    {
      hide NewCycle, NewOut, Flow.Mirrors, Flow.FlowControl.State, Flow.FlowControl.Valid, RequestResponseCycle.Valid,
           RequestResponseCycle.Shows, StreamsOk;
      Keys();
      var c := new RequestResponseCycle(streamId, transport, flow, defaultHeaders, isHead, wantsTrailers, this);
      cycles := cycles[streamId := c];
      streams := streams[streamId := c];
      abs := abs.(streams := abs.streams[streamId := c.abs], cycles := abs.cycles + {streamId});
      StreamAdded(streamId);
    }

    lemma Keys()
      requires StreamsOk()
      ensures streams.Keys == abs.streams.Keys
    {
    }

    method OnGoAway()
      requires Valid()
      modifies this`shutdownRequested, this`abs, transport`closing
      ensures Valid() && abs == DoShutdown(old(abs))
    {
      hide StreamsOk, Flow.Mirrors, Flow.FlowControl.Valid, Flow.FlowControl.State;
      shutdownRequested := true;
      abs := abs.(shutdownRequested := true);
      NoStreamChanged();
      assert cycles == map[] <==> abs.cycles == {};
      if cycles == map[] { CloseConnection(); }
    }

    method Shutdown()
      requires Valid()
      modifies this`shutdownRequested, this`abs, transport`closing
      ensures Valid() && abs == DoShutdown(old(abs))
    {
      OnGoAway();
    }

    /** One event of `handle_events`. */
    method HandleEvent(f: Frame)
      requires Valid() && (f.Request? ==> f.id !in abs.streams)
      modifies this, streams.Values, transport, flow`readPaused
      ensures Valid() && abs == Handle(old(abs), f)
      ensures forall c :: c in streams.Values ==> c in old(streams.Values) || fresh(c)
    {
      hide ScalarsOk, StreamsOk, NewOut, HandleRst;
      match f {
        case Request(id, isHead, wantsTrailers, defaults) => HandleRequest(id, isHead, wantsTrailers, defaults);
        case Data(id, data) => OnData(id, data);
        case EndOfMessage(id) => OnEndOfMessage(id);
        case RstStream(id) => HandleRstStream(id);
        case GoAway => OnGoAway();
        case OtherFrame =>
      }
    }

    /** `data_received`: the library yields the events of one read, in order. */
    method DataReceived(frames: seq<Frame>, broken: bool)
      requires Valid() && FreshIds(abs.streams.Keys, frames)
      modifies this, streams.Values, transport, flow`readPaused
      ensures Valid() && abs == Feed(old(abs), frames, broken)
      ensures forall c :: c in streams.Values ==> c in old(streams.Values) || fresh(c)
    {
      hide ScalarsOk, StreamsOk, Handle;
      UnsetKeepAliveIfRequired();
      ghost var s := abs;
      for i := 0 to |frames|
        invariant Valid() && FreshIds(abs.streams.Keys, frames[i..])
        invariant HandleAll(s, frames) == HandleAll(abs, frames[i..])
        invariant forall c :: c in streams.Values ==> c in old(streams.Values) || fresh(c)
      {
        assert frames[i..][0] == frames[i] && frames[i..][1..] == frames[i + 1..];
        HandleKeys(abs, frames[i]);
        assert abs.streams.Keys + {} == abs.streams.Keys;
        HandleEvent(frames[i]);
      }
      assert frames[|frames|..] == [];
      Rearm(broken);
    }

    /** The end of a read: closed on a protocol error, timed when idle. */
    method Rearm(broken: bool)
      requires Valid()
      modifies this`timeoutKeepAliveTask, this`abs, transport`closing
      ensures Valid()
      ensures var s := old(abs).(hasRead := true);
              abs == if broken then s.(closing := true)
                     else if s.cycles == {} && s.timer == NoTimer && !s.closing then s.(timer := Armed) else s
    {
      hide StreamsOk, Flow.Mirrors, Flow.FlowControl.Valid, Flow.FlowControl.State;
      abs := abs.(hasRead := true);
      NoStreamChanged();
      assert cycles == map[] <==> abs.cycles == {};
      if broken {
        CloseTransport();
      } else if cycles == map[] && timeoutKeepAliveTask == NoTimer && !transport.closing {
        ArmKeepAlive();
      }
    }

    method CloseTransport()
      requires Valid()
      modifies this`abs, transport`closing
      ensures Valid() && abs == old(abs).(closing := true)
    {
      hide StreamsOk, Flow.Mirrors, Flow.FlowControl.Valid, Flow.FlowControl.State;
      transport.Close();
      abs := abs.(closing := true);
      NoStreamChanged();
    }

    method Disconnect(streamId: nat)
      requires Valid() && streamId in cycles
      modifies this`abs, streams.Values
      ensures Valid() && streamId in old(abs).streams
      ensures abs == old(abs).(streams := old(abs).streams[streamId := Lost(old(abs).streams[streamId])])
    {
      hide ScalarsOk, StreamsOk, RequestResponseCycle.Valid, RequestResponseCycle.Shows, Lost;
      At(streamId);
      cycles[streamId].Disconnect();
      abs := abs.(streams := abs.streams[streamId := cycles[streamId].abs]);
      OneChanged(streamId);
    }

    /** The loop of `connection_lost`. */
    method DisconnectStreams()
      requires Valid()
      modifies this`abs, streams.Values
      ensures Valid() && abs == LostBut(old(abs), {})
    {
      hide ScalarsOk, StreamsOk, Lost, LostBut;
      ghost var s := abs;
      Keys();
      var todo := cycles.Keys;
      LostNone(s);
      while todo != {}
        invariant Valid() && todo <= cycles.Keys
        invariant abs == LostBut(s, todo)
      {
        var id :| id in todo;
        assert id in s.streams;
        LostOne(s, id, todo);
        Disconnect(id);
        todo := todo - {id};
      }
    }

    method ConnectionLost()
      requires Valid()
      modifies this`abs, this`timeoutKeepAliveTask, streams.Values, transport`closing, flow`writePaused, flow`isWritable
      ensures Valid() && abs == Lose(old(abs)) && streams == old(streams)
    {
      hide StreamsOk, Flow.Mirrors, Flow.FlowControl.State, Flow.FlowControl.Valid, Lost;
      DisconnectStreams();
      ResumeWriting();
      CloseTransport();  // by asyncio if not by the handler: a lost transport is closing
      UnsetKeepAliveIfRequired();
    }

    method ResumeWriting()
      requires Valid()
      modifies flow`writePaused, flow`isWritable
      ensures Valid() && abs == old(abs)
    {
      hide StreamsOk, Flow.Mirrors;
      flow.ResumeWriting();
      NoStreamChanged();
    }

    method TimeoutKeepAliveHandler()
      requires Valid() && abs.timer == Armed
      modifies this`timeoutKeepAliveTask, this`abs, transport`closing
      ensures Valid() && abs == Step(old(abs), TimerFires)
    {
      hide StreamsOk, Flow.Mirrors, Flow.FlowControl.Valid, Flow.FlowControl.State;
      timeoutKeepAliveTask := Fired;  // the handle stays in place once it has fired
      if !transport.closing { transport.Close(); }
      abs := abs.(timer := Fired, closing := true);
      NoStreamChanged();
    }

    // ---------- whole runs ----------

    /** One event of the environment: the method that handles it is called. */
    method Perform(e: Event)
      requires Valid() && Enabled(abs, e)
      modifies this, transport, flow, streams.Values
      ensures Valid() && abs == Step(old(abs), e)
      ensures forall c :: c in streams.Values ==> c in old(streams.Values) || fresh(c)
    {
      hide ScalarsOk, StreamsOk, MapOk, RequestResponseCycle.Valid, Feed, AppSends, AppEnds, Http2Spec.Finish,
           Http2Spec.ReceiveBegin, Http2Spec.ReceiveEnd, DoShutdown, Lose, FreshIds, SendRaises;
      KeysOf();
      match e {
        case DataReceived(frames, broken) => DataReceived(frames, broken);
        case ReceiveBegins(id) => At(id); streams[id].ReceiveBegin(this);
        case ReceiveEnds(id) => At(id); var _ := streams[id].ReceiveEnd(this);
        case AppSent(id, m) => At(id); var _ := streams[id].Send(m, this);
        case AppEnded(id, how) => At(id); var _ := streams[id].AppEnds(how, this);
        case Sends500(id) => At(id); streams[id].Sends500(this);
        case Ends500(id) => At(id); streams[id].Ends500(this);
        case TimerFires => TimeoutKeepAliveHandler();
        case Shutdown => Shutdown();
        case ConnectionLost => ConnectionLost();
      }
    }

    lemma KeysOf()
      requires Valid()
      ensures streams.Keys == abs.streams.Keys
    {
      hide ScalarsOk;
      Keys();
    }

    /** Any run of the connection that the environment allows, event by event. */
    method Serve(es: seq<Event>)
      requires Valid() && Http2Runs.Runs(abs, es)
      modifies this, transport, flow, streams.Values
      ensures Valid() && abs == Http2Runs.Run(old(abs), es)
    {
      hide ScalarsOk, StreamsOk, MapOk, Enabled, Step;
      assert es[0..] == es;
      for k := 0 to |es|
        invariant Valid() && Http2Runs.Runs(abs, es[k..])
        invariant Http2Runs.Run(abs, es[k..]) == Http2Runs.Run(old(abs), es)
        invariant forall c :: c in streams.Values ==> c in old(streams.Values) || fresh(c)
      {
        assert es[k..][0] == es[k] && es[k..][1..] == es[k + 1..];
        Perform(es[k]);
      }
      assert es[|es|..] == [];
    }
  }

  lemma HandleKeys(s: Conn, f: Frame)
    ensures Handle(s, f).streams.Keys == s.streams.Keys + (if f.Request? then {f.id} else {})
  {
    hide NewOut, Overfull;
  }

  /** The streams in the map are told of a lost connection, except those in `todo`. */
  ghost function LostBut(s: Conn, todo: set<nat>): Conn {
    s.(streams := map id | id in s.streams :: if id in s.cycles
        && id !in todo then Lost(s.streams[id]) else s.streams[id])
  }

  lemma LostNone(s: Conn)
    ensures LostBut(s, s.cycles) == s
  {
    assert LostBut(s, s.cycles).streams == s.streams;
  }

  lemma LostOne(s: Conn, id: nat, todo: set<nat>)
    requires id in s.streams && id in s.cycles && id in todo
    ensures var t := LostBut(s, todo);
            && id in t.streams && t.streams[id] == s.streams[id] && t.cycles == s.cycles
            && t.(streams := t.streams[id := Lost(s.streams[id])]) == LostBut(s, todo - {id})
  {
    hide Lost;
    var t := LostBut(s, todo);
    assert t.streams[id := Lost(s.streams[id])] == LostBut(s, todo - {id}).streams;
  }

  lemma Resumes(s: Conn)
    ensures ResumeIfIdle(s) == s.(flow := ResumeIfIdle(s).flow)
  {
    hide Overfull;
  }
}
