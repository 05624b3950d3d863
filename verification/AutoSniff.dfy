/** Choosing between HTTP/1.1 and HTTP/2 on a cleartext connection from its first bytes (AutoZttpProtocol in
    auto_zttp_impl.py), however the bytes are split into reads. */
module AutoSniff {
  import opened Text

  const PREFACE: Bytes := "PRI * HTTP/2.0\r\n\r\nSM\r\n\r\n"

  datatype Timer = NoTimer | Armed | Fired

  /** `chosen`: the protocol switched to, HTTP/2 or not. `inner` is what it has received, read by read. */
  datatype Sniffer = Sniffer(buffer: Bytes, chosen: Option<bool>, inner: seq<Bytes>, connected: bool, timer: Timer)

  const FRESH := Sniffer("", None, [], true, Armed)

  /** A read: `data_received` until the switch, and the inner protocol's after it. */
  function Read(s: Sniffer, data: Bytes): Sniffer {
    if s.chosen.Some? then s.(inner := s.inner + [data])
    else
      var buffer := s.buffer + data;
      if |buffer| < |PREFACE| && buffer <= PREFACE then s.(buffer := buffer)
      else s.(buffer := buffer, chosen := Some(PREFACE <= buffer), connected := false, timer := NoTimer,
              inner := if buffer == "" then [] else [buffer])
  }

  function Reads(s: Sniffer, chunks: seq<Bytes>): Sniffer {
    if chunks == [] then s else Read(Reads(s, chunks[..|chunks| - 1]), chunks[|chunks| - 1])
  }

  /** The choice depends on the bytes alone, not on how they are split into reads: undecided exactly while they are a
      proper prefix of the preface, HTTP/2 exactly if they start with it; and the protocol chosen receives the whole
      stream, nothing lost or repeated. */
  lemma {:induction false} FragmentationIrrelevant(chunks: seq<Bytes>)
    ensures var s := Reads(FRESH, chunks); var stream := Concat(chunks);
            && (s.chosen.None? <==> stream < PREFACE)
            && (s.chosen.None? ==> s.buffer == stream && s.inner == [] && s.connected && s.timer == Armed)
            && (s.chosen.Some? ==> (s.chosen.value <==> PREFACE <= stream) && Concat(s.inner) == stream
                                   && !s.connected && s.timer == NoTimer)
  {
    hide Concat;
    ConcatNone();
    if chunks != [] {
      var n := |chunks| - 1;
      var front, data := chunks[..n], chunks[n];
      FragmentationIrrelevant(front);
      assert chunks == front + [data];
      ConcatOne(front, data);
      var s := Reads(FRESH, front);
      if s.chosen.Some? {
        ConcatOne(s.inner, data);
        Assoc(Concat(s.inner), data, "");
        Decided(Concat(front), data);
      } else {
        ConcatOne([], Concat(chunks));
        assert [] + [Concat(chunks)] == [Concat(chunks)];
      }
    }
  }

  /** More bytes do not change whether a decided stream starts with the preface. */
  lemma Decided(stream: Bytes, data: Bytes)
    requires !(stream < PREFACE)
    ensures PREFACE <= stream + data <==> PREFACE <= stream
    ensures !(stream + data < PREFACE)
  {
    if PREFACE <= stream {
    } else {
      var k := if |stream| < |PREFACE| then |stream| else |PREFACE|;
      assert stream[..k] != PREFACE[..k];
      assert (stream + data)[..k] == stream[..k];
    }
  }

  class AutoZttpProtocol {
    var buffer: Bytes
    var connected: bool  // in `server_state.connections`
    var timeoutTask: Timer
    var transportClosing: bool
    var switched: Option<bool>  // the transport's protocol is now the one for HTTP/2, or for HTTP/1.1
    var received: seq<Bytes>    // by that protocol

    function State(): Sniffer
      reads this
    {
      Sniffer(buffer, switched, received, connected, timeoutTask)
    }

    /** `connection_made` on a cleartext transport, or over TLS with the ALPN result. */
    constructor (tls: bool, alpn: Option<Bytes>)
      ensures !tls ==> State() == FRESH
      ensures tls ==> switched == Some(alpn == Some("h2")) && received == [] && !connected && timeoutTask == NoTimer
    {
      buffer, transportClosing, received := "", false, [];
      if tls {
        connected, timeoutTask, switched := false, NoTimer, Some(alpn == Some("h2"));
      } else {
        connected, timeoutTask, switched := true, Armed, None;
      }
    }

    method CancelTimeout()
      modifies this`timeoutTask
      ensures timeoutTask == NoTimer
    {
      if timeoutTask != NoTimer { timeoutTask := NoTimer; }
    }

    method Switch(http2: bool, initialData: Bytes)
      modifies this`switched, this`received
      ensures switched == Some(http2)
      ensures received == if initialData == "" then old(received) else old(received) + [initialData]
    {
      switched := Some(http2);
      if initialData != "" { received := received + [initialData]; }
    }

    method DataReceived(data: Bytes)
      requires switched.None? && received == []
      modifies this
      ensures State() == Read(old(State()), data)
    {
      buffer := buffer + data;
      if |buffer| < |PREFACE| && buffer <= PREFACE { return; }
      connected := false;
      CancelTimeout();
      Switch(PREFACE <= buffer, buffer);
    }

    method ConnectionLost()
      modifies this
      ensures State() == old(State()).(connected := false, timer := NoTimer)
    {
      connected := false;
      CancelTimeout();
    }

    /** The reads of a connection, each delivered to the transport's protocol of the moment. */
    method Serve(chunks: seq<Bytes>)
      requires State() == FRESH
      modifies this
      ensures State() == Reads(FRESH, chunks)
    {
      assert chunks[..0] == [];
      for i := 0 to |chunks|
        invariant State() == Reads(FRESH, chunks[..i]) && (switched.None? ==> received == [])
      {
        assert chunks[..i + 1][..i] == chunks[..i];
        if switched.None? { DataReceived(chunks[i]); } else { received := received + [chunks[i]]; }
      }
      assert chunks[..|chunks|] == chunks;
    }
  }
}
