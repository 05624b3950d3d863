/** What each event does to an HTTP/2 connection as a whole: who is told of a reset, a loss or a shutdown, when reads
    pause and resume, and what the end of an application leaves behind. */
module Http2Effects {
  import opened Text
  import opened Http2Spec
  import opened Http2Streams
  import opened Http2Multiplexer
  import opened Http2Runs
  import opened Http2Uploads
  import opened Http2Answers
  import Flow

  // ---------- frames ----------

  /** A DATA frame pauses reads exactly if it takes the buffer of a stream in flight beyond the limit. */
  lemma DataPausesExactly(s: Conn, id: nat, data: Bytes)
    ensures var t := Handle(s, Data(id, data));
            && (t.flow.paused <==> s.flow.paused ||
                                   (Live(s, id) && |s.streams[id].body| + |data| > Flow.HIGH_WATER_LIMIT))
            && t == s.(streams := t.streams, flow := t.flow) && t.streams.Keys == s.streams.Keys
            && forall k :: k in s.streams && k != id ==> t.streams[k] == s.streams[k]
  {
  }

  // ---------- a stream leaves the map ----------

  predicate SomeOverfull(s: Conn) { exists id :: id in s.cycles && Overfull(s, id) }

  /** How a connection goes on without a stream: reads resume unless one that is left is overfull, and a connection
      without any closes if it has been asked to, or else is timed. */
  predicate Settles(s: Conn, t: Conn) {
    && t.shutdownRequested == s.shutdownRequested && t.hasRead == s.hasRead
    && if s.closing then t.closing && t.flow == s.flow && t.timer == s.timer
       else
         && (t.flow.paused <==> s.flow.paused && SomeOverfull(t))
         && if t.cycles != {} then !t.closing && t.timer == NoTimer
            else if s.shutdownRequested then t.closing && t.timer == NoTimer
            else !t.closing && t.timer == Armed
  }

  lemma OverfullLike(s: Conn, t: Conn)
    ensures t.cycles == s.cycles && t.streams == s.streams ==> (SomeOverfull(t) <==> SomeOverfull(s))
  {
    if t.cycles == s.cycles && t.streams == s.streams {
      assert forall id :: Overfull(t, id) <==> Overfull(s, id);
    }
  }

  lemma ClosedSettles(s: Conn)
    ensures var t := OnStreamClosed(s); Settles(s, t) && t == s.(flow := t.flow, timer := t.timer, closing := t.closing)
  {
    OverfullLike(s, OnStreamClosed(s));
    hide Overfull;
    if SomeOverfull(s) {} else {}
  }

  /** Only what streams hold that are not in the map, or what they do not buffer, differs. */
  lemma SettlesLike(s: Conn, r: Conn, t: Conn)
    requires Settles(r, t) && s.closing == r.closing && s.flow == r.flow && s.timer == r.timer
    requires s.shutdownRequested == r.shutdownRequested && s.hasRead == r.hasRead
    ensures Settles(s, t)
  {
    hide SomeOverfull;
  }

  lemma InvMap(s: Conn)
    requires Inv(s)
    ensures MapOk(s) && StreamsOk(s)
  {
    hide MapOk, StreamsOk, CountOk, FlowOk;
  }

  lemma MappedIsOpen(s: Conn, id: nat)
    requires Inv(s)
    ensures id in s.cycles <==> id in s.streams && s.streams[id].onResponse && !s.streams[id].peerReset
    ensures id in s.cycles ==> !s.streams[id].out.complete
  {
    hide Inv, OutOk, Unreset;
    InvMap(s);
    MemberOf(s, id);
    if id in s.cycles { StreamOf(s, id); }
  }

  /** The peer's reset of a stream in flight removes it from the map and wakes its application with a disconnect; a
      stream that is not in the map is left alone, and no other stream is touched. */
  lemma ResetIsTold(s: Conn, id: nat)
    requires Inv(s)
    ensures var t := Handle(s, RstStream(id));
            if id !in s.cycles then t == s
            else
              && id in s.streams && t.cycles == s.cycles - {id} && Settles(s, t) && t.total == s.total
              && t.streams == s.streams[id := s.streams[id].(peerReset := true, disconnected := true, eventSet := true)]
  {
    MappedIsOpen(s, id);
    hide Inv, OnStreamClosed, Settles;
    if id in s.cycles {
      var c := s.streams[id];
      var d := c.(peerReset := true, disconnected := true, eventSet := true);
      var r := s.(cycles := s.cycles - {id}, streams := s.streams[id := d]);
      ClosedSettles(r);
      SettlesLike(s, r, OnStreamClosed(r));
    }
  }

  lemma RespondSettles(s: Conn, id: nat)
    requires id in s.streams
    ensures var t, c := Respond(s, id), s.streams[id];
            && t.streams == s.streams[id := c.(onResponse := false)]
            && if c.onResponse then t.cycles == s.cycles - {id} && t.total == s.total + 1 && Settles(s, t)
               else t.cycles == s.cycles && t.total == s.total && t == s.(streams := t.streams)
  {
    hide OnStreamClosed, Settles;
    var c := s.streams[id];
    if c.onResponse {
      var r := s.(total := s.total + 1, cycles := s.cycles - {id}, streams := s.streams[id := c.(onResponse := false)]);
      ClosedSettles(r);
      SettlesLike(s, r, OnStreamClosed(r));
    } else {
      assert s.streams[id := c.(onResponse := false)] == s.streams by { assert c.(onResponse := false) == c; }
    }
  }

  /** The message that completes a response takes its stream out of the map, counts it and wakes its application; any
      other leaves the connection as it is. */
  lemma CompletionSettles(s: Conn, id: nat, m: Message)
    requires Inv(s) && Enabled(s, AppSent(id, m)) && !s.streams[id].disconnected
    ensures var c, t, r := s.streams[id], Step(s, AppSent(id, m)), Send(s.streams[id].out, m);
            if r.out.complete && !c.out.complete then
              id in s.cycles && t.cycles == s.cycles - {id} && t.total == s.total + 1 && Settles(s, t)
              && id in t.streams && t.streams[id].eventSet
            else t == s.(streams := s.streams[id := c.(out := r.out)])
  {
    hide Inv, Settles, Respond, Send, OutOk, Unreset;
    var c := s.streams[id];
    MappedIsOpen(s, id);
    RunningStream(s, id);
    SendCompletes(c.out, m);
    var r := Send(c.out, m);
    var done := r.out.complete && !r.raised;
    var s1 := s.(streams := s.streams[id := c.(out := r.out, eventSet := c.eventSet || done)]);
    if done {
      RespondSettles(s1, id);
      SettlesLike(s, s1, Respond(s1, id));
    } else {
      assert c.(out := r.out, eventSet := c.eventSet || done) == c.(out := r.out);
    }
  }

  lemma RunningStream(s: Conn, id: nat)
    requires Inv(s) && id in s.streams
    ensures var c := s.streams[id];
            OutOk(c.out) && (c.onResponse <==> !c.out.complete && c.phase != Ended) && (c.peerReset ==> c.disconnected)
  {
    hide OutOk, Unreset, MapOk, CountOk, FlowOk;
  }

  // ---------- the end of an application ----------

  predicate Fails(c: Cycle, how: Outcome) {
    !c.out.started && (how == Raised || (how == ReturnedNone && !c.disconnected))
  }

  /** An application that ends before its response has started is answered for with a 500 response, unless it has
      returned a value or the stream is gone; any other has ended, and its stream, if still in the map, leaves it. */
  lemma EndIsHandled(s: Conn, id: nat, how: Outcome)
    requires Inv(s) && Enabled(s, AppEnded(id, how))
    ensures var c, t := s.streams[id], Step(s, AppEnded(id, how));
            if Fails(c, how) then t == s.(streams := s.streams[id := c.(phase := Starting500)])
            else
              && id in t.streams && t.streams[id].phase == Ended && t.cycles == s.cycles - {id}
              && (c.onResponse ==> Settles(s, t) && t.total == s.total + 1)
              && (t.streams[id].disconnected <==>
                    c.disconnected || Aborts(s.closing, c.disconnected, c.out.started, c.out.complete, how))
  {
    hide Inv, Settles, Finish, OutOk, Unreset;
    RunningStream(s, id);
    MappedIsOpen(s, id);
    FinishSettles(s, id);
    FinishSettles(AbortStream(s, id), id);
    AbortFrame(s, id);
    if Settles(AbortStream(s, id), Finish(AbortStream(s, id), id)) {
      SettlesLike(s, AbortStream(s, id), Finish(AbortStream(s, id), id));
    }
    if s.closing {} else {}
  }

  lemma AbortFrame(s: Conn, id: nat)
    requires id in s.streams
    ensures var t, c := AbortStream(s, id), s.streams[id];
            && t == s.(streams := t.streams) && id in t.streams && t.streams[id].onResponse == c.onResponse
            && (t.streams[id].disconnected <==> c.disconnected || !s.closing)
  {
  }

  lemma FinishSettles(s: Conn, id: nat)
    requires id in s.streams
    ensures var t, c := Finish(s, id), s.streams[id];
            && id in t.streams && t.streams[id].phase == Ended && t.streams[id].disconnected == c.disconnected
            && if c.onResponse then t.cycles == s.cycles - {id} && t.total == s.total + 1 && Settles(s, t)
               else t.cycles == s.cycles && t.total == s.total
  {
    hide OnStreamClosed, Settles;
    FinishIs(s, id);
    hide Finish;
    if s.streams[id].onResponse {
      ClosedSettles(Retired(s, id));
      SettlesLike(s, Retired(s, id), Finish(s, id));
    }
  }

  // ---------- receives ----------

  /** `receive` on a stream in flight resumes reads unless some stream of the map is overfull, before it waits. */
  lemma ReceiveAsksForMore(s: Conn, id: nat)
    requires Enabled(s, ReceiveBegins(id))
    ensures var c, t := s.streams[id], Step(s, ReceiveBegins(id));
            if c.disconnected || c.out.complete then t == s
            else
              && t.streams == s.streams[id := c.(receiving := true)]
              && (t.flow.paused <==> s.flow.paused && SomeOverfull(t))
              && t == s.(streams := t.streams, flow := t.flow)
  {
    var r := s.(streams := s.streams[id := s.streams[id].(receiving := true)]);
    OverfullLike(r, Step(s, ReceiveBegins(id)));
    hide Overfull;
    if SomeOverfull(r) {} else {}
  }

  // ---------- shutdown, loss, errors, the timer ----------

  /** A shutdown, and a GOAWAY frame alike, closes a connection without streams in flight, and otherwise is noted until
      there are none. */
  lemma ShutdownIsNoted(s: Conn)
    ensures Step(s, Shutdown) == Handle(s, GoAway)
    ensures var t := Step(s, Shutdown);
            t == s.(shutdownRequested := true, closing := s.closing || s.cycles == {})
  {
  }

  /** A loss closes the transport and wakes exactly the streams in the map, with a disconnect. */
  lemma LossIsTold(s: Conn)
    requires Inv(s)
    ensures var t := Step(s, ConnectionLost);
            && t == s.(closing := true, timer := NoTimer, streams := t.streams) && t.streams.Keys == s.streams.Keys
            && forall id :: id in s.streams ==>
                 t.streams[id] == if id in s.cycles then s.streams[id].(disconnected := true, eventSet := true)
                                  else s.streams[id]
  {
    var t := Step(s, ConnectionLost);
    forall id | id in s.streams
      ensures id in t.streams && t.streams[id] == if id in s.cycles then
                                                    s.streams[id].(disconnected := true, eventSet := true)
                                                  else s.streams[id]
    {
      MappedIsOpen(s, id);
    }
    hide Inv;
  }

  /** A read with a protocol error closes the transport, whatever came before it. */
  lemma ErrorCloses(s: Conn, frames: seq<Frame>)
    requires Enabled(s, DataReceived(frames, true))
    ensures Step(s, DataReceived(frames, true)).closing
  {
    hide HandleAll, FreshIds;
  }
}
