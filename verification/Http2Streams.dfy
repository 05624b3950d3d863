/** The calls one HTTP/2 stream makes on the library, over any sequence of ASGI messages. */
module Http2Streams {
  import opened Text
  import opened Http2Spec

  /** Where a sequence of calls stands in the grammar
      informational* (response data* end?)? reset?, and the data it has carried. */
  datatype Track = Track(responded: bool, ended: bool, reset: bool, bad: bool, sent: Bytes)

  function Advance(t: Track, call: Call): Track {
    if t.reset then t.(bad := true)
    else
      match call
      case SendInformational(_) => t.(bad := t.bad || t.responded)
      case SendResponse(_, _) => t.(responded := true, bad := t.bad || t.responded)
      case SendData(data) => t.(sent := t.sent + data, bad := t.bad || !t.responded || t.ended)
      case EndMessage(_) => t.(ended := true, bad := t.bad || !t.responded || t.ended)
      case Reset => t.(reset := true)
  }

  function Follow(calls: seq<Call>): Track {
    if calls == [] then Track(false, false, false, false, "")
    else Advance(Follow(calls[..|calls| - 1]), calls[|calls| - 1])
  }

  lemma FollowOne(calls: seq<Call>, call: Call)
    ensures Follow(calls + [call]) == Advance(Follow(calls), call)
  {
    assert (calls + [call])[..|calls|] == calls;
  }

  /** Its start message, if it has sent one, was accepted. */
  predicate Clean(c: Out) { c.started ==> Follow(c.calls).responded }

  /** The end and the data, whether or not the start message was accepted. */
  predicate Counted(c: Out) {
    var t := Follow(c.calls);
    (t.ended <==> c.complete) && t.sent == Concat(c.bodies)
  }

  predicate Orderly(c: Out) {
    var t := Follow(c.calls);
    && !t.bad
    && (t.responded <==> c.started)
    && (c.bodyless ==> t.sent == "" && c.declared.None?)
    && (if c.declared.Some? then c.remaining == Some(c.declared.value - |t.sent|) else c.remaining.None?)
    && (c.bodyComplete && c.declared.Some? ==> |t.sent| == c.declared.value)
    && (!c.started ==> c.bodies == [] && !c.bodyless && c.declared.None?)
  }

  predicate OutOk(c: Out) {
    && Counted(c) && (Clean(c) ==> Orderly(c))
    && (c.complete ==> c.bodyComplete) && (c.bodyComplete ==> c.started)
  }

  /** Nothing follows a reset. */
  predicate Unreset(c: Out) { !Follow(c.calls).reset }

  lemma NewOk(defaults: seq<(Bytes, Bytes)>, isHead: bool, wantsTrailers: bool)
    ensures var c := NewOut(defaults, isHead, wantsTrailers); OutOk(c) && Unreset(c) && Clean(c)
  {
  }

  lemma StartOk(c: Out, m: Message)
    requires OutOk(c) && Unreset(c) && !c.started && m.ResponseStart?
    ensures var r := SendStart(c, m); OutOk(r.out) && Unreset(r.out) && !r.out.complete
    ensures Clean(SendStart(c, m).out) <==> !LastLength(c.defaults + m.headers).1
  {
    hide LastLength, HeadersOf;
    FollowOne(c.calls, ResponseTo(m, c.defaults));
    if LastLength(c.defaults + m.headers).1 {} else {}
  }

  lemma BodyOk(c: Out, data: Bytes, more: bool)
    requires OutOk(c) && Unreset(c) && c.started && !c.bodyComplete
    ensures var r := SendBody(c, data, more); OutOk(r.out) && Unreset(r.out) && (Clean(r.out) <==> Clean(c))
  {
    var body := if c.bodyless then "" else data;
    var written := if body == "" then c.calls else c.calls + [SendData(body)];
    FollowOne(c.calls, SendData(body));
    FollowOne(written, EndMessage([]));
    ConcatOne(c.bodies, body);
    Assoc(Concat(c.bodies), "", "");
    hide Concat, Follow;
    var r := SendBody(c, data, more);
    if r.out == c {
    } else if r.out.complete {
      assert r.out.calls == written + [EndMessage([])];
    } else {
      assert r.out.calls == written;
    }
  }

  lemma TrailersOk(c: Out, hs: seq<(Bytes, Bytes)>, more: bool)
    requires OutOk(c) && Unreset(c) && c.bodyComplete && !c.complete
    ensures var r := SendTrailers(c, hs, more); OutOk(r.out) && Unreset(r.out) && (Clean(r.out) <==> Clean(c))
  {
    hide Gather;
    var (gathered, failed) := Gather(hs, c.wantsTrailers);
    FollowOne(c.calls, EndMessage(c.trailers + gathered));
    assert c.calls + [] == c.calls;
  }

  /** Every message, accepted or rejected, keeps a stream's calls in order. */
  lemma SendOk(c: Out, m: Message)
    requires OutOk(c) && Unreset(c)
    ensures var r := Send(c, m); OutOk(r.out) && Unreset(r.out)
    ensures Clean(Send(c, m).out) <==>
            Clean(c) && (!c.started && m.ResponseStart? ==> !LastLength(c.defaults + m.headers).1)
  {
    hide LastLength, SendStart, SendBody, SendTrailers;
    if m.EarlyHint? && !c.started {
      FollowOne(c.calls, SendInformational(m.links));
    } else if !c.started {
      if m.ResponseStart? { StartOk(c, m); }
    } else if !c.bodyComplete {
      if m.ResponseBody? { BodyOk(c, m.body, m.more); }
    } else if !c.complete {
      if m.ResponseTrailers? { TrailersOk(c, m.headers, m.more); }
    }
  }

  // ---------- whole conversations ----------

  function SendAll(c: Out, ms: seq<Message>): Out
    decreases |ms|
  {
    if ms == [] then c else SendAll(Send(c, ms[0]).out, ms[1..])
  }

  lemma {:induction false} SendAllOk(c: Out, ms: seq<Message>)
    requires OutOk(c) && Unreset(c) && c.started
    ensures var d := SendAll(c, ms); OutOk(d) && Unreset(d) && (Clean(d) <==> Clean(c))
    decreases |ms|
  {
    if ms != [] {
      hide Send;
      SendOk(c, ms[0]);
      StaysStarted(c, ms[0]);
      SendAllOk(Send(c, ms[0]).out, ms[1..]);
    }
  }

  lemma StaysStarted(c: Out, m: Message)
    requires c.started
    ensures Send(c, m).out.started
  {
    hide Gather;
  }

  /** A start message may declare a length that is not a number after one that is negative. */
  predicate Unsendable(length: Option<int>) { length.Some? && length.value < 0 }

  /** A stream that has sent nothing but early hints. */
  predicate Hinting(c: Out) {
    !c.started && !c.bodyComplete && !c.complete && !c.bodyless && c.remaining.None? && c.trailers == [] &&
    Follow(c.calls) == Track(false, false, false, false, "")
  }

  /** A stream that has not started is as it was made, but for early hints. */
  lemma {:induction false} NotStarted(c: Out, ms: seq<Message>)
    requires Hinting(c) && OutOk(c) && Unreset(c) && !SendAll(c, ms).started
    ensures var d := SendAll(c, ms); Hinting(d) && OutOk(d) && Unreset(d) && d.defaults == c.defaults
    decreases |ms|
  {
    if ms != [] {
      var d := Send(c, ms[0]).out;
      SendOk(c, ms[0]);
      if d.started { StaysStartedThroughout(d, ms[1..]); }
      assert Hinting(d) && d.defaults == c.defaults by {
        hide OutOk, LastLength, HeadersOf, PyInt, SendBody, SendTrailers;
        if ms[0].EarlyHint? { FollowOne(c.calls, SendInformational(ms[0].links)); }
      }
      hide Send, OutOk, Hinting;
      NotStarted(d, ms[1..]);
    }
  }

  lemma {:induction false} StaysStartedThroughout(c: Out, ms: seq<Message>)
    requires c.started
    ensures SendAll(c, ms).started
    decreases |ms|
  {
    if ms != [] {
      hide Send;
      StaysStarted(c, ms[0]);
      StaysStartedThroughout(Send(c, ms[0]).out, ms[1..]);
    }
  }

  /** Whatever hints and refused messages come before the start message and whatever messages follow it, the calls
      stay in the grammar if and only if every content-length up to there is a number (or an earlier one is negative,
      so that nothing can ever be sent). */
  lemma GrammarExactly(defaults: seq<(Bytes, Bytes)>, isHead: bool, wantsTrailers: bool, before: seq<Message>,
                       m: Message)
    requires m.ResponseStart? && !SendAll(NewOut(defaults, isHead, wantsTrailers), before).started
    ensures var c := Send(SendAll(NewOut(defaults, isHead, wantsTrailers), before), m).out;
            var (length, failed) := LastLength(defaults + m.headers);
            (forall ms :: !Follow(SendAll(c, ms).calls).bad) <==> !failed || Unsendable(length)
  {
    hide LastLength, SendAll, Orderly;
    var c0 := SendAll(NewOut(defaults, isHead, wantsTrailers), before);
    var c := Send(c0, m).out;
    var (length, failed) := LastLength(defaults + m.headers);
    NewOk(defaults, isHead, wantsTrailers);
    NotStarted(NewOut(defaults, isHead, wantsTrailers), before);
    SendOk(c0, m);
    if !failed {
      forall ms ensures !Follow(SendAll(c, ms).calls).bad { SendAllOk(c, ms); OrderlyIsGood(SendAll(c, ms)); }
    } else if Unsendable(length) {
      forall ms ensures !Follow(SendAll(c, ms).calls).bad { StuckStaysSilent(c, ms); }
    } else {
      EscapesGrammar(c, length);
    }
  }

  lemma OrderlyIsGood(c: Out)
    requires OutOk(c) && Clean(c)
    ensures !Follow(c.calls).bad
  {
  }

  /** With a negative remaining length every body message is refused. */
  lemma {:induction false} StuckStaysSilent(c: Out, ms: seq<Message>)
    requires c.started && !c.bodyComplete && !c.bodyless && Unsendable(c.remaining)
    ensures SendAll(c, ms) == c
  {
    if ms != [] {
      assert Send(c, ms[0]).out == c;
      StuckStaysSilent(c, ms[1..]);
    }
  }

  lemma OneMessage(c: Out, m: Message)
    ensures SendAll(c, [m]) == Send(c, m).out
  {
    hide Send;
    assert [m][1..] == [];
  }

  lemma TwoMessages(c: Out, m: Message, n: Message)
    ensures SendAll(c, [m, n]) == Send(Send(c, m).out, n).out
  {
    hide Send;
    assert [m, n][1..] == [n];
    OneMessage(Send(c, m).out, n);
  }

  /** After hints only, a call that is neither a hint nor a response. */
  lemma OutOfOrder(calls: seq<Call>, call: Call)
    requires !Follow(calls).responded && (call.SendData? || call.EndMessage?)
    ensures Follow(calls + [call]).bad
  {
    FollowOne(calls, call);
  }

  lemma EscapesGrammar(c: Out, length: Option<int>)
    requires c.started && !c.bodyComplete && !c.complete && !c.bodyless && c.trailers == []
    requires !Follow(c.calls).responded && c.remaining == length && !Unsendable(length)
    ensures exists ms :: Follow(SendAll(c, ms).calls).bad
  {
    hide Follow, SendAll;
    assert c.calls + [] == c.calls && c.trailers + [] == [];
    if length == Some(0) {
      var last := ResponseBody("", false);
      OutOfOrder(c.calls, EndMessage([]));
      if c.trailersExpected {
        TwoMessages(c, last, ResponseTrailers([], false));
        assert SendAll(c, [last, ResponseTrailers([], false)]).calls == c.calls + [EndMessage([])];
      } else {
        OneMessage(c, last);
        assert SendAll(c, [last]).calls == c.calls + [EndMessage([])];
      }
    } else {
      OneMessage(c, ResponseBody("x", true));
      OutOfOrder(c.calls, SendData("x"));
      assert SendAll(c, [ResponseBody("x", true)]).calls == c.calls + [SendData("x")];
    }
  }

  /** A refused start message, and an application that goes on: data is sent before any response. */
  lemma GrammarCanBreak()
    ensures var m := ResponseStart(200, [("content-length", "x")], false);
            var c := SendAll(NewOut([], false, false), [m, ResponseBody("x", true)]);
            c.calls == [SendData("x")] && Follow(c.calls).bad
  {
    hide LastLength, Follow, SendAll, SendBody, SendTrailers;
    var hs := [("content-length", "x")];
    var m := ResponseStart(200, hs, false);
    var c0 := NewOut([], false, false);
    NotANumber(hs);
    assert [] + hs == hs;
    var c1 := Send(c0, m).out;
    assert c1 == c0.(started := true);
    DataFirst(c1);
    TwoMessages(c0, m, ResponseBody("x", true));
  }

  lemma DataFirst(c: Out)
    requires c.started && !c.bodyComplete && !c.bodyless && c.remaining.None? && c.calls == []
    ensures var d := Send(c, ResponseBody("x", true)).out; d.calls == [SendData("x")] && Follow(d.calls).bad
  {
    hide Follow;
    assert [] + [SendData("x")] + [] == [SendData("x")] && [] + [SendData("x")] == [SendData("x")];
    assert !Follow([]).responded by { NoCalls(); }
    OutOfOrder([], SendData("x"));
  }

  lemma NoCalls()
    ensures Follow([]) == Track(false, false, false, false, "")
  {
  }

  lemma NotANumber(hs: seq<(Bytes, Bytes)>)
    requires hs == [("content-length", "x")]
    ensures LastLength(hs) == (None, true)
  {
    assert Lower("content-length") == "content-length";
    StripsNothing("x", IsTextSpace);
    assert hs[..0] == [];
  }
}
