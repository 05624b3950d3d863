/** What each event does to an HTTP/1.1 connection as a whole: when reads pause, what the end of a response starts, how
    responses are counted, what shutdown, loss, the timer and the end of an application leave behind. */
module Http1Effects {
  import opened Text
  import opened Http1Wire
  import opened Http1Spec
  import opened Http1Pipeline
  import opened Http1Runs
  import opened Http1ReadBack
  import opened Http1Conversations
  import opened Http1Answers
  import Flow

  // ---------- reads ----------

  /** The latest request's response is still to come, and what is buffered of its body. */
  datatype Tail = Tail(open: bool, buffered: nat)

  function TailOf(s: Conn): Tail {
    if s.cycles == [] then Tail(false, 0)
    else
      var c := s.cycles[|s.cycles| - 1]; Tail(!c.complete, |c.body|)
  }

  function NextTail(t: Tail, cb: Callback): Tail {
    match cb
    case HeadersComplete(_, _, _, _) => Tail(true, 0)
    case Body(data) => if t.open then t.(buffered := t.buffered + |data|) else t
    case MessageComplete => t
  }

  /** A request arrives behind one that is not answered, or a body grows beyond the limit. */
  predicate Overloads(t: Tail, cbs: seq<Callback>)
    decreases |cbs|
  {
    cbs != [] &&
    (|| (t.open && cbs[0].HeadersComplete?)
     || (t.open && cbs[0].Body? && t.buffered + |cbs[0].data| > Flow.HIGH_WATER_LIMIT)
     || Overloads(NextTail(t, cbs[0]), cbs[1..]))
  }

  lemma CallbackTail(s: Conn, cb: Callback)
    requires cb.HeadersComplete? == !s.parsing && (s.parsing ==> s.cycles != [])
    ensures var t, u := TailOf(s), OnCallback(s, cb);
            && TailOf(u) == NextTail(t, cb)
            && (u.flow.paused <==> s.flow.paused || (t.open && cb.HeadersComplete?)
                                   || (t.open && cb.Body? && t.buffered + |cb.data| > Flow.HIGH_WATER_LIMIT))
  {
    if s.cycles == [] {
    } else if s.cycles[|s.cycles| - 1].complete {
    } else {
    }
  }

  lemma {:induction false} FeedTail(s: Conn, cbs: seq<Callback>)
    requires InOrder(s.parsing, cbs) && (s.parsing ==> s.cycles != [])
    ensures Feed(s, cbs).flow.paused <==> s.flow.paused || Overloads(TailOf(s), cbs)
    decreases |cbs|
  {
    if cbs != [] {
      CallbackTail(s, cbs[0]);
      CallbackFrame(s, cbs[0]);
      hide OnCallback, TailOf, NextTail;
      FeedTail(OnCallback(s, cbs[0]), cbs[1..]);
    }
  }

  /** A read pauses the transport exactly if it brings a request behind one that is not answered, or more of a body
      than the limit allows; and it cancels the keep-alive timer. */
  lemma ReadPausesExactly(s: Conn, cbs: seq<Callback>)
    requires Shape(s) && Enabled(s, DataReceived(cbs))
    ensures var t := Step(s, DataReceived(cbs));
            (t.flow.paused <==> Overloads(TailOf(s), cbs)) && t.timer == NoTimer && t.closing == s.closing
  {
    FeedTail(s.(timer := NoTimer), cbs);
    FeedFlags(s.(timer := NoTimer), cbs);
    assert TailOf(s.(timer := NoTimer)) == TailOf(s);
  }

  lemma {:induction false} FeedFlags(s: Conn, cbs: seq<Callback>)
    requires InOrder(s.parsing, cbs) && (s.parsing ==> s.cycles != [])
    ensures Feed(s, cbs).timer == s.timer && Feed(s, cbs).closing == s.closing
    decreases |cbs|
  {
    if cbs != [] {
      CallbackFrame(s, cbs[0]);
      hide OnCallback;
      FeedFlags(OnCallback(s, cbs[0]), cbs[1..]);
    }
  }

  /** `receive` resumes reads before it waits, and a client that is waiting for it is told to go on, once. */
  lemma ReceiveAsksForMore(s: Conn, i: nat)
    requires Shape(s) && Enabled(s, ReceiveBegins(i))
    ensures var c, t := s.cycles[i], Step(s, ReceiveBegins(i)); var go := c.waiting100 && !s.closing;
            && t.wire == s.wire + (if go then CONTINUE else "")
            && t.cycles[i].wire == c.wire + (if go then CONTINUE else "")
            && (t.cycles[i].waiting100 <==> c.waiting100 && s.closing)
            && (t.flow.paused <==> s.flow.paused && (c.disconnected || c.complete))
            && (t.cycles[i].receiving <==> !c.disconnected && !c.complete)
            && t.closing == s.closing && t.timer == s.timer
  {
  }

  // ---------- the end of a response ----------

  /** The response of cycle `i` has just been completed: the connection closes if it was not to be kept alive;
      otherwise reads resume, and the oldest waiting request starts or, if there is none, the keep-alive timer. */
  predicate Passes(s: Conn, t: Conn, i: nat)
    requires i < |s.cycles|
  {
    && t.total == s.total + 1
    && (t.closing <==> s.closing || !s.cycles[i].keepAlive)
    && (t.closing ==> t.launched == s.launched && t.pipeline == s.pipeline && t.timer == s.timer)
    && (!t.closing ==>
          && !t.flow.paused
          && if i + 1 < |s.cycles| then
               t.launched == s.launched + [i + 1] && |t.pipeline| == |s.pipeline| - 1 && t.timer == NoTimer
             else t.launched == s.launched && t.timer == Armed)
  }

  lemma CompletionPasses(s: Conn, i: nat, r: Sent)
    requires Inv(s) && i < Started(s) && Reported(s, i, r) && !s.cycles[i].complete && r.cycle.complete
    ensures Passes(s, AfterSend(s, i, r), i)
  {
    hide CycleOk, Wires, Untouched, Flow.Mirrors;
    assert i == Started(s) - 1;
    if s.pipeline != [] { assert s.pipeline[|s.pipeline| - 1] == Started(s); }
  }

  /** A message that does not complete its response changes nothing but its own cycle and the wire. */
  lemma OthersPass(s: Conn, i: nat, r: Sent)
    requires Inv(s) && i < Started(s) && Reported(s, i, r) && s.cycles[i].complete == r.cycle.complete
    ensures AfterSend(s, i, r) == s.(cycles := s.cycles[i := r.cycle], wire := s.wire + r.wrote)
  {
    hide CycleOk, Wires, Untouched, Flow.Mirrors;
  }

  /** Everything but the cycles and the wire. */
  predicate SameCourse(s: Conn, t: Conn) {
    && t.total == s.total && t.closing == s.closing && t.launched == s.launched && t.pipeline == s.pipeline
    && t.flow == s.flow && t.timer == s.timer && t.shutdownAt == s.shutdownAt && t.parsing == s.parsing
  }

  lemma EndKeepsCourse(s: Conn, i: nat)
    requires i < |s.cycles|
    ensures SameCourse(s, End(s, i))
  {
  }

  lemma CoursePasses(s: Conn, t: Conn, u: Conn, i: nat)
    requires i < |s.cycles| && SameCourse(t, u)
    ensures (Passes(s, t, i) ==> Passes(s, u, i)) && (SameCourse(s, t) ==> SameCourse(s, u))
  {
  }

  lemma ReportedPasses(s: Conn, i: nat, r: Sent)
    requires Inv(s) && i < Started(s) && Reported(s, i, r)
    ensures i < |s.cycles| && (s.cycles[i].complete ==> r.cycle.complete)
    ensures var t := AfterSend(s, i, r);
            if r.cycle.complete && !s.cycles[i].complete then Passes(s, t, i) else SameCourse(s, t)
  {
    hide Inv, Passes, AfterSend, Reported;
    ReportedGrows(s, i, r);
    if r.cycle.complete && !s.cycles[i].complete {
      CompletionPasses(s, i, r);
    } else {
      OthersPass(s, i, r);
    }
  }

  lemma ReportedGrows(s: Conn, i: nat, r: Sent)
    requires Inv(s) && i < Started(s) && Reported(s, i, r)
    ensures i < |s.cycles| && (s.cycles[i].complete ==> r.cycle.complete)
  {
    hide CycleOk, Wires, Untouched, Flow.Mirrors, Fifo;
  }

  lemma AppPasses(s: Conn, i: nat, m: Message)
    requires Inv(s) && Shape(s) && Enabled(s, AppSends(i, m))
    ensures var t, c, d := Step(s, AppSends(i, m)), s.cycles[i], Send(s.cycles[i], m).cycle;
            if d.complete && !c.complete then Passes(s, t, i) else SameCourse(s, t)
  {
    hide Inv, Send, Passes, AfterSend, Reported, Started, SameCourse;
    KeepsSend(s, i, m);
    ReportedPasses(s, i, Send(s.cycles[i], m));
  }

  lemma StartPasses(s: Conn, i: nat)
    requires Inv(s) && Shape(s) && Enabled(s, Sends500(i))
    ensures var t, c, d := Step(s, Sends500(i)), s.cycles[i], Send(s.cycles[i], START_500).cycle;
            if d.complete && !c.complete then Passes(s, t, i) else SameCourse(s, t)
  {
    hide Inv, Send, Passes, AfterSend, Reported, Started, SameCourse;
    KeepsSend(s, i, START_500);
    var r := Send(s.cycles[i], START_500);
    if r.raised {
      ReportedPasses(s, i, r);
      AfterSendShape(s, i, r);
      EndKeepsCourse(AfterSend(s, i, r), i);
      CoursePasses(s, AfterSend(s, i, r), End(AfterSend(s, i, r), i), i);
    } else {
      ReportedStart500(s, i);
      ReportedPasses(s, i, r.(cycle := r.cycle.(phase := Finishing500)));
    }
  }

  lemma BodyPasses(s: Conn, i: nat)
    requires Inv(s) && Shape(s) && Enabled(s, Ends500(i))
    ensures var t, c, d := Step(s, Ends500(i)), s.cycles[i], Send(s.cycles[i], BODY_500).cycle;
            if d.complete && !c.complete then Passes(s, t, i) else SameCourse(s, t)
  {
    hide Inv, Send, Passes, AfterSend, Reported, Started, SameCourse;
    KeepsSend(s, i, BODY_500);
    var r := Send(s.cycles[i], BODY_500);
    ReportedPasses(s, i, r);
    AfterSendShape(s, i, r);
    EndKeepsCourse(AfterSend(s, i, r), i);
    CoursePasses(s, AfterSend(s, i, r), End(AfterSend(s, i, r), i), i);
  }

  /** What a message does to the connection: the end of the response passes it on, any other leaves its course as it
      is. */
  lemma SendingPasses(s: Conn, e: Event, i: nat)
    requires Inv(s) && Shape(s) && Enabled(s, e) && MessageOn(e, i).Some?
    ensures i < |s.cycles|
    ensures var t, c, d := Step(s, e), s.cycles[i], Send(s.cycles[i], MessageOn(e, i).value).cycle;
            if d.complete && !c.complete then Passes(s, t, i) else SameCourse(s, t)
  {
    hide Inv, Shape, Enabled, Step, Send, Passes, SameCourse;
    SenderIsThere(s, e, i);
    if e.AppSends? {
      AppPasses(s, i, e.message);
    } else if e.Sends500? {
      StartPasses(s, i);
    } else {
      BodyPasses(s, i);
    }
  }

  // ---------- every response is counted once ----------

  /** Does event `e` complete the response of cycle `k`? */
  predicate Completes(s: Conn, e: Event, k: nat)
    requires k < |s.cycles|
  {
    MessageOn(e, k).Some? && !s.cycles[k].complete && Send(s.cycles[k], MessageOn(e, k).value).cycle.complete
  }

  lemma CompleteInStep(s: Conn, e: Event, k: nat)
    requires Shape(s) && Enabled(s, e) && k < |s.cycles|
    ensures k < |Step(s, e).cycles|
    ensures Step(s, e).cycles[k].complete <==> s.cycles[k].complete || Completes(s, e, k)
  {
    hide Step, Enabled, Shape, Send, Begun, Took;
    StepCycle(s, e, k);
    if MessageOn(e, k).Some? {
      SendFacts(s.cycles[k], MessageOn(e, k).value);
      ChangedComplete(s, e, k, s.cycles[k], Step(s, e).cycles[k]);
    } else {
      ChangedComplete(s, e, k, s.cycles[k], Step(s, e).cycles[k]);
    }
  }

  lemma ChangedComplete(s: Conn, e: Event, k: nat, c: Cycle, d: Cycle)
    requires Changes(s, e, k, c, d)
    ensures d.complete == (if MessageOn(e, k).Some? then Send(c, MessageOn(e, k).value).cycle else c).complete
  {
    hide Send;
    if e.AppSends? {
    } else if e.Sends500? {
    } else if e.Ends500? {
    } else if e.ReceiveBegins? {
    } else if e.ReceiveEnds? {
    } else if e.DataReceived? {
    } else {
    }
  }

  lemma {:induction false} FeedTotal(s: Conn, cbs: seq<Callback>)
    requires InOrder(s.parsing, cbs) && (s.parsing ==> s.cycles != [])
    ensures Feed(s, cbs).total == s.total && |Feed(s, cbs).cycles| >= |s.cycles|
    decreases |cbs|
  {
    if cbs != [] {
      CallbackFrame(s, cbs[0]);
      assert OnCallback(s, cbs[0]).total == s.total;
      hide OnCallback;
      FeedTotal(OnCallback(s, cbs[0]), cbs[1..]);
    }
  }

  lemma SilentTotal(s: Conn, e: Event)
    requires Shape(s) && Enabled(s, e) && !e.AppSends? && !e.Sends500? && !e.Ends500?
    ensures Step(s, e).total == s.total && |Step(s, e).cycles| >= |s.cycles|
  {
    hide Begun, Took, Flow.Resume;
    if e.DataReceived? {
      FeedTotal(s.(timer := NoTimer), e.callbacks);
    } else if e.ReceiveBegins? {
    } else if e.AppEnded? {
    } else {
    }
  }

  /** How many responses are complete is settled by which are. */
  lemma SameAnswered(s: Conn, t: Conn)
    requires Inv(s) && Inv(t) && |s.cycles| <= |t.cycles|
    requires forall k :: 0 <= k < |s.cycles| ==> t.cycles[k].complete == s.cycles[k].complete
    requires forall k :: |s.cycles| <= k < |t.cycles| ==> !t.cycles[k].complete
    ensures Answered(t) == Answered(s)
  {
    hide Inv, Answered, ResponseOk, Wires;
    AnsweredInOrder(s);
    AnsweredInOrder(t);
    var m, n := Answered(s), Answered(t);
    assert m < |t.cycles| ==> (t.cycles[m].complete <==> m < n);
    assert n < |s.cycles| ==> (s.cycles[n].complete <==> n < m);
  }

  lemma OneMoreAnswered(s: Conn, t: Conn, i: nat)
    requires Inv(s) && Inv(t) && |s.cycles| == |t.cycles| && i < |s.cycles|
    requires forall k :: 0 <= k < |s.cycles| ==> (t.cycles[k].complete <==> s.cycles[k].complete || k == i)
    requires !s.cycles[i].complete
    ensures Answered(t) == Answered(s) + 1
  {
    hide Inv, Answered, ResponseOk, Wires;
    AnsweredInOrder(s);
    AnsweredInOrder(t);
    var m, n := Answered(s), Answered(t);
    assert t.cycles[i].complete && m <= i < n;
    assert t.cycles[m].complete <==> m < n;
    assert m + 1 < |t.cycles| ==> (t.cycles[m + 1].complete <==> m + 1 < n);
  }

  lemma StepCounts(s: Conn, e: Event)
    requires Inv(s) && Shape(s) && Enabled(s, e) && s.total == Answered(s)
    ensures Step(s, e).total == Answered(Step(s, e))
  {
    hide Inv, Shape, Enabled, Step, Answered, Completes, Passes;
    StepKeepsInv(s, e);
    var t := Step(s, e);
    forall k | 0 <= k < |s.cycles|
      ensures k < |t.cycles| && (t.cycles[k].complete <==> s.cycles[k].complete || Completes(s, e, k))
    {
      CompleteInStep(s, e, k);
    }
    forall k | |s.cycles| <= k < |t.cycles| ensures !t.cycles[k].complete { NewInStep(s, e, k); }
    if e.AppSends? || e.Sends500? || e.Ends500? {
      SendingTotal(s, e, e.i);
      if Completes(s, e, e.i) {
        OneMoreAnswered(s, t, e.i);
      } else {
        SameAnswered(s, t);
      }
    } else {
      SilentTotal(s, e);
      NothingSent(s, e);
      SameAnswered(s, t);
    }
  }

  lemma SendingTotal(s: Conn, e: Event, i: nat)
    requires Inv(s) && Shape(s) && Enabled(s, e) && (e.AppSends? || e.Sends500? || e.Ends500?) && e.i == i
    ensures i < |s.cycles| && |Step(s, e).cycles| == |s.cycles|
    ensures Step(s, e).total == s.total + if Completes(s, e, i) then 1 else 0
    ensures forall k :: 0 <= k < |s.cycles| && k != i ==> !Completes(s, e, k)
    ensures Completes(s, e, i) ==> !s.cycles[i].complete
  {
    hide Inv, Shape, Enabled, Step, Send;
    assert MessageOn(e, i).Some?;
    SendingPasses(s, e, i);
    StepFrame(s, e);
  }

  lemma NothingSent(s: Conn, e: Event)
    requires !e.AppSends? && !e.Sends500? && !e.Ends500?
    ensures forall k :: 0 <= k < |s.cycles| ==> !Completes(s, e, k)
  {
    hide Send;
  }

  lemma {:induction false} RunCounts(s: Conn, es: seq<Event>)
    requires Shape(s) && Inv(s) && Runs(s, es) && s.total == Answered(s)
    ensures Run(s, es).total == Answered(Run(s, es))
    decreases |es|
  {
    if es != [] {
      hide Inv, Step, Enabled, Shape, Answered;
      StepKeepsShape(s, es[0]);
      StepCounts(s, es[0]);
      StepKeepsInv(s, es[0]);
      RunCounts(Step(s, es[0]), es[1..]);
    }
  }

  /** Every response is counted once: the count is the number of complete ones, which are those of the first so many
      requests. */
  lemma EveryResponseIsCounted(es: seq<Event>)
    requires Runs(FRESH, es)
    ensures var s := Run(FRESH, es);
            s.total <= |s.cycles| && forall k :: 0 <= k < |s.cycles| ==> (s.cycles[k].complete <==> k < s.total)
  {
    hide Inv, Runs, Run, Answered, ResponseOk;
    FreshInv();
    assert Answered(FRESH) == 0 by { NoneAnswered(); }
    RunCounts(FRESH, es);
    RunKeepsInv(FRESH, es);
    AnsweredInOrder(Run(FRESH, es));
  }

  lemma NoneAnswered()
    ensures Answered(FRESH) == 0
  {
  }

  // ---------- shutdown, loss ----------

  /** A shutdown closes a connection that has nothing to answer; otherwise its latest request is the last one. */
  lemma ShutdownCloses(s: Conn)
    requires Inv(s) && Shape(s)
    ensures var t, n := Step(s, Shutdown), |s.cycles|;
            && |t.cycles| == n && t.flow == s.flow && t.timer == s.timer && t.wire == s.wire
            && if n > 0 && !s.cycles[n - 1].complete then
                 && t.closing == s.closing && !t.cycles[n - 1].keepAlive
                 && forall k :: 0 <= k < n - 1 ==> t.cycles[k] == s.cycles[k]
               else t.closing && t.cycles == s.cycles
  {
    hide Inv;
  }

  /** A loss closes the transport, and the latest request is told of it: its waiting application is woken and, if the
      response is not complete, gets a disconnect. */
  lemma LossIsTold(s: Conn, clean: bool)
    requires Inv(s) && Shape(s)
    ensures var t, n := Step(s, ConnectionLost(clean)), |s.cycles|;
            && t.closing && |t.cycles| == n && (clean ==> t.timer == NoTimer) && t.wire == s.wire
            && (n > 0 ==> t.cycles[n - 1].eventSet && (!t.cycles[n - 1].complete ==> t.cycles[n - 1].disconnected))
            && (forall k :: 0 <= k < n - 1 ==> t.cycles[k] == s.cycles[k])
  {
    hide Inv;
  }

  // ---------- the end of an application ----------

  /** An application that ends before its response has started is answered for with a 500 response, unless it has
      returned a value or the client is gone; one that leaves its response incomplete, raises or returns a value has
      its connection closed. */
  lemma EndIsHandled(s: Conn, i: nat, how: Outcome)
    requires Shape(s) && Enabled(s, AppEnded(i, how))
    ensures var c, t := s.cycles[i], Step(s, AppEnded(i, how));
            && |t.cycles| == |s.cycles| && t.cycles[i].phase == (if Fails(c, how) then Starting500 else Ended)
            && (t.closing <==>
                  s.closing || (!Fails(c, how) && !(how == ReturnedNone && (c.complete || c.disconnected))))
            && t.wire == s.wire && t.total == s.total && t.launched == s.launched && t.flow == s.flow
            && t.timer == s.timer
  {
    var c := s.cycles[i];
    if how == Raised {
      if c.started {} else {}
    } else if how == ReturnedValue {
    } else if c.started || c.disconnected {
    } else {
    }
  }

  predicate Fails(c: Cycle, how: Outcome) { !c.started && (how == Raised || (how == ReturnedNone && !c.disconnected)) }

  lemma {:induction false} ValuesThen(a: seq<Field>, b: seq<Field>, name: Bytes)
    ensures ValuesOf(a + b, name) == ValuesOf(a, name) + ValuesOf(b, name)
  {
    hide Lower;
    if b == [] {
      assert a + b == a && ValuesOf(a, name) + [] == ValuesOf(a, name);
    } else {
      var front, last := b[..|b| - 1], b[|b| - 1];
      ValuesThen(a, front, name);
      assert (a + b)[..|a + b| - 1] == a + front && (a + b)[|a + b| - 1] == last;
    }
  }

  lemma ValuesOfThree(a: Field, b: Field, c: Field, name: Bytes)
    ensures ValuesOf([a, b, c], name) == Named(a, name) + Named(b, name) + Named(c, name)
  {
    hide Lower;
    assert [a, b, c] == [a] + [b] + [c];
    ValuesThen([a] + [b], [c], name);
    ValuesThen([a], [b], name);
    NamedAlone(a, name);
    NamedAlone(b, name);
    NamedAlone(c, name);
  }

  function Named(f: Field, name: Bytes): seq<Bytes> { if Lower(f.name) == name then [f.value] else [] }

  lemma NamedAlone(f: Field, name: Bytes)
    ensures ValuesOf([f], name) == Named(f, name)
  {
    hide Lower;
    assert [f][..0] == [] && ValuesOf([], name) == [] && [] + Named(f, name) == Named(f, name);
  }

  lemma LengthOf500()
    ensures ValuesOf(START_500.headers, "content-length") == ["21"]
    ensures ValuesOf(START_500.headers, "transfer-encoding") == []
  {
    var hs := START_500.headers;
    ValuesOfThree(hs[0], hs[1], hs[2], "content-length");
    ValuesOfThree(hs[0], hs[1], hs[2], "transfer-encoding");
    hide ValuesOf;
    assert hs == [hs[0], hs[1], hs[2]];
    assert Lower("content-length") == "content-length";
  }

  lemma Value21()
    ensures AllDigits("21") && DecimalValue("21") == 21
  {
    assert "21"[..1] == "2" && "2"[..0] == "";
    assert DecimalValue("2") == 2;
  }

  lemma Reads21()
    ensures PyInt("21") == Some(21)
  {
    hide PyInt, DecimalValue, AllDigits;
    Value21();
    PyIntOfDigits("21");
  }

  lemma CloseIn500()
    ensures AnyCloses(START_500.headers)
  {
    OwnFieldsClose();
    assert START_500.headers[2] == CLOSE_FIELD;
  }

  lemma {:induction false} NoComma(s: Bytes)
    requires forall i :: 0 <= i < |s| ==> s[i] != ','
    ensures Split(s, ',') == [s]
  {
    if s != "" {
      NoComma(s[1..]);
      assert [s[0]] + s[1..] == s;
    }
  }

  lemma ClosesThen(a: seq<Field>, b: seq<Field>)
    requires AnyCloses(b)
    ensures AnyCloses(a + b)
  {
    hide SaysClose;
    var i :| 0 <= i < |b| && SaysClose(b[i]);
    assert (a + b)[|a| + i] == b[i];
  }

  /** The 500 response on a cycle that has not started, for a client that is there and default headers that can be sent
      and leave the framing to it: status 500, the text of that status and the end of the connection. */
  lemma FailureReads500(c: Cycle)
    requires ResponseOk(c) && !c.started && !c.disconnected
    requires !Spoiled(c.defaults + START_500.headers) && !Framed(c.defaults)
    ensures var r := Send(c, START_500); var q := Send(r.cycle, BODY_500);
            && !r.raised && r.cycle.accepted.Some? && r.cycle.accepted.value.status == 500
            && !q.raised && q.cycle.complete && q.cycle.accepted == r.cycle.accepted
            && q.cycle.bodies == ["Internal Server Error"] && q.close
  {
    hide Spoiled, StartOk, AcceptedOk, RefusedOk, ScanFields, HasChunked, ValuesOf, AnyCloses;
    var m, input := START_500, c.defaults + START_500.headers;
    StartIsTaken(c, m.status, m.reason, m.headers);
    assert ResponseStart(m.status, m.reason, m.headers) == m;
    var d := Send(c, m).cycle;
    CloseIn500();
    ClosesThen(c.defaults, m.headers);
    assert OneLine(m.reason);
    SendKeepsResponse(c, m);
    FramingOf500(d, d.accepted.value, c.defaults);
    SendFacts(c, m);
    assert [] + [BODY_500.body] == [BODY_500.body];
    hide Send, ResponseOk;
    BodyIsTaken(d, BODY_500.body, BODY_500.more);
    assert ResponseBody(BODY_500.body, BODY_500.more) == BODY_500;
  }

  lemma FramingOf500(d: Cycle, a: Accepted, defaults: seq<Field>)
    requires ResponseOk(d) && d.accepted == Some(a) && d.bodies == []
    requires a.input == defaults + START_500.headers && !Framed(defaults)
    ensures d.chunked == Some(false) && (!d.isHead ==> d.remaining == 21)
  {
    hide HasChunked, PyInt, Head, HeadFields, ScanFields, ValuesOf, Payload, Interim, Lowered, ValidField;
    LengthOf500();
    Reads21();
    ValuesThen(defaults, START_500.headers, "transfer-encoding");
    ValuesThen(defaults, START_500.headers, "content-length");
    ScanFinds(a.keepAlive, a.input);
    ConcatNone();
    assert ValuesOf(a.input, "transfer-encoding") == ValuesOf(defaults, "transfer-encoding");
    assert ValuesOf(a.input, "content-length") == ["21"];
    var sc := ScanFields(InitialScan(a.keepAlive), a.input);
    assert sc.chunked.Some? && !sc.chunked.value && sc.remaining == 21;
    assert a.chunked == sc.chunked == Some(false);
  }

  lemma SendKeepsResponse(c: Cycle, m: Message)
    requires ResponseOk(c) && !c.started && !c.disconnected && m.ResponseStart? && OneLine(m.reason)
    ensures ResponseOk(Send(c, m).cycle)
  {
    hide *;
    SendStartOk(c, m.status, m.reason, m.headers);
    StartsOut(c, m);
  }

  lemma StartsOut(c: Cycle, m: Message)
    requires !c.started && !c.disconnected && m.ResponseStart?
    ensures Send(c, m) == SendStart(c, m.status, m.reason, m.headers)
  {
    hide SendStart;
  }

  // ---------- keep-alive ----------

  /** Nothing but a shutdown and a response's own headers ends what the request has asked for. */
  predicate AliveOne(serving: bool, c: Cycle, p: Parsed) {
    (c.keepAlive ==> p.keepAlive) && (serving && !c.started ==> (c.keepAlive <==> p.keepAlive))
  }

  predicate Alive(s: Conn, ps: seq<Parsed>) {
    |ps| == |s.cycles| && forall k :: 0 <= k < |ps| ==> AliveOne(s.shutdownAt.None?, s.cycles[k], ps[k])
  }

  lemma CallbackAlive(s: Conn, cb: Callback, ps: seq<Parsed>)
    requires Alive(s, ps) && cb.HeadersComplete? == !s.parsing && (s.parsing ==> s.cycles != [])
    ensures Alive(OnCallback(s, cb), ParseOne(ps, cb))
  {
    var t := OnCallback(s, cb);
    forall k | 0 <= k < |s.cycles| ensures k < |t.cycles| && MoreOfRequest(s.cycles[k], t.cycles[k]) {
      CallbackCycle(s, cb, k);
    }
    CallbackFrame(s, cb);
    if cb.HeadersComplete? { AddedAlive(s, cb); } else { SameNumber(s, cb); }
    hide OnCallback;
  }

  lemma AddedAlive(s: Conn, cb: Callback)
    requires cb.HeadersComplete?
    ensures var t := OnCallback(s, cb); |t.cycles| == |s.cycles| + 1 && t.cycles[|s.cycles|].keepAlive == cb.keepAlive
  {
    hide Flow.Pause;
  }

  lemma SameNumber(s: Conn, cb: Callback)
    requires !cb.HeadersComplete? && s.cycles != []
    ensures |OnCallback(s, cb).cycles| == |s.cycles|
  {
    hide Flow.Pause;
  }

  lemma {:induction false} FeedAlive(s: Conn, cbs: seq<Callback>, ps: seq<Parsed>)
    requires Alive(s, ps) && InOrder(s.parsing, cbs) && (s.parsing ==> s.cycles != [])
    ensures Alive(Feed(s, cbs), ParseAll(ps, cbs))
    decreases |cbs|
  {
    if cbs != [] {
      CallbackAlive(s, cbs[0], ps);
      CallbackFrame(s, cbs[0]);
      hide OnCallback, ParseOne, Alive;
      FeedAlive(OnCallback(s, cbs[0]), cbs[1..], ParseOne(ps, cbs[0]));
    }
  }

  lemma SendAlive(c: Cycle, m: Message)
    requires ResponseOk(c)
    ensures var d := Send(c, m).cycle;
            (d.keepAlive ==> c.keepAlive) && (!d.started ==> !c.started && d.keepAlive == c.keepAlive)
  {
    hide StartOk, AcceptedOk, RefusedOk, Interim, CommitStart, ScanFields, Chunk;
    if !c.disconnected && !c.started && m.ResponseStart? && 100 <= m.status < 600 {
      var input := c.defaults + m.headers;
      var sc := ScanFields(InitialScan(c.keepAlive), input);
      ScanFacts(InitialScan(c.keepAlive), input);
      CommitAlive(c, m.status, m.reason, input, sc);
    }
  }

  lemma CommitAlive(c: Cycle, status: nat, reason: Bytes, input: seq<Field>, sc: Scan)
    ensures var d := CommitStart(c, status, reason, input, sc).cycle; d.keepAlive == sc.keepAlive && d.started
  {
    hide Head, HeadFields;
  }

  lemma ChangedAlive(s: Conn, e: Event, k: nat, c: Cycle, d: Cycle, p: Parsed)
    requires Changes(s, e, k, c, d) && ResponseOk(c) && AliveOne(s.shutdownAt.None?, c, p)
    requires e.Shutdown? && d.keepAlive ==> c.keepAlive
    ensures AliveOne(s.shutdownAt.None? && !e.Shutdown?, d, p)
  {
    hide Send, ResponseOk;
    if e.AppSends? {
      SendAlive(c, e.message);
    } else if e.Sends500? {
      SendAlive(c, START_500);
    } else if e.Ends500? {
      SendAlive(c, BODY_500);
    } else if e.ReceiveBegins? || e.ReceiveEnds? {
    } else {
    }
  }

  lemma ShutdownAtInStep(s: Conn, e: Event)
    requires Inv(s) && Shape(s) && Enabled(s, e)
    ensures Step(s, e).shutdownAt.None? <==> s.shutdownAt.None? && !e.Shutdown?
  {
    hide Inv, Shape, Enabled, SameCourse, Passes;
    if e.AppSends? || e.Sends500? || e.Ends500? {
      SendingShutdownAt(s, e);
    } else if e.DataReceived? {
      FeedShutdownAt(s, e.callbacks);
    } else {
      TaskShutdownAt(s, e);
    }
  }

  lemma TaskShutdownAt(s: Conn, e: Event)
    requires Shape(s) && Enabled(s, e) && !e.AppSends? && !e.Sends500? && !e.Ends500? && !e.DataReceived?
    ensures Step(s, e).shutdownAt.None? <==> s.shutdownAt.None? && !e.Shutdown?
  {
    hide Begun, Took, Flow.Resume;
    if e.ReceiveBegins? {
    } else if e.AppEnded? {
    } else {
    }
  }

  lemma FeedShutdownAt(s: Conn, cbs: seq<Callback>)
    requires Shape(s) && Enabled(s, DataReceived(cbs))
    ensures Step(s, DataReceived(cbs)).shutdownAt == s.shutdownAt
  {
    FeedKeepsShutdownAt(s.(timer := NoTimer), cbs);
  }

  lemma SendingShutdownAt(s: Conn, e: Event)
    requires Shape(s) && Enabled(s, e) && (e.AppSends? || e.Sends500? || e.Ends500?)
    ensures Step(s, e).shutdownAt == s.shutdownAt
  {
    hide Send, AfterSend;
    var i := e.i;
    var r := Send(s.cycles[i], if e.AppSends? then e.message else if e.Sends500? then START_500 else BODY_500);
    AfterSendShape(s, i, r);
    SendKeepsShutdownAt(s, i, r);
    SendKeepsShutdownAt(s, i, r.(cycle := r.cycle.(phase := Finishing500)));
  }

  lemma StepAlive(s: Conn, e: Event, ps: seq<Parsed>)
    requires Inv(s) && Shape(s) && Enabled(s, e) && Alive(s, ps)
    ensures Alive(Step(s, e), if e.DataReceived? then ParseAll(ps, e.callbacks) else ps)
  {
    if e.DataReceived? {
      hide Inv, InOrder, Feed, ParseAll;
      FeedAlive(s.(timer := NoTimer), e.callbacks, ps);
    } else {
      ShutdownAtInStep(s, e);
      StepFrame(s, e);
      forall k | 0 <= k < |ps| ensures AliveOne(Step(s, e).shutdownAt.None?, Step(s, e).cycles[k], ps[k]) {
        hide Inv, Step, Enabled, Shape, Changes, AliveOne;
        StepCycle(s, e, k);
        CycleIsOk(s, k);
        if e.Shutdown? { ShutdownDrops(s, k); }
        ChangedAlive(s, e, k, s.cycles[k], Step(s, e).cycles[k], ps[k]);
      }
    }
  }

  lemma ShutdownDrops(s: Conn, k: nat)
    requires Inv(s) && Shape(s) && k < |s.cycles|
    ensures var t := Step(s, Shutdown); k < |t.cycles| && (t.cycles[k].keepAlive ==> s.cycles[k].keepAlive)
  {
    hide Inv;
  }

  lemma {:induction false} RunAlive(s: Conn, es: seq<Event>, ps: seq<Parsed>)
    requires Shape(s) && Inv(s) && Runs(s, es) && Alive(s, ps)
    ensures Alive(Run(s, es), Requests(ps, es))
    decreases |es|
  {
    if es != [] {
      hide Inv, Step, Enabled, Shape, Alive, ParseAll;
      StepKeepsShape(s, es[0]);
      StepAlive(s, es[0], ps);
      StepKeepsInv(s, es[0]);
      RunAlive(Step(s, es[0]), es[1..], if es[0].DataReceived? then ParseAll(ps, es[0].callbacks) else ps);
    }
  }

  /** A connection is kept alive only if the request has asked for it, and until a shutdown each request that has not
      been answered keeps what it has asked for. */
  lemma KeepAliveIsAsked(es: seq<Event>, k: nat)
    requires Runs(FRESH, es) && k < |Run(FRESH, es).cycles|
    ensures k < |Requests([], es)|
    ensures var s := Run(FRESH, es); var c, p := s.cycles[k], Requests([], es)[k];
            (c.keepAlive ==> p.keepAlive) && (s.shutdownAt.None? && !c.started ==> (c.keepAlive <==> p.keepAlive))
  {
    hide Inv, Runs, Run, Requests;
    FreshInv();
    assert Alive(FRESH, []);
    RunAlive(FRESH, es, []);
    assert AliveOne(Run(FRESH, es).shutdownAt.None?, Run(FRESH, es).cycles[k], Requests([], es)[k]);
  }

  // ---------- the announcement of the close ----------

  lemma SaysCloseLowered(h: Field)
    ensures SaysClose(Field(Lower(h.name), h.value)) <==> SaysClose(h)
  {
    hide HasToken;
    LowerOfLower(h.name);
  }

  lemma LoweredCloses(hs: seq<Field>)
    ensures AnyCloses(Lowered(hs)) <==> AnyCloses(hs)
  {
    forall i | 0 <= i < |hs| ensures SaysClose(Lowered(hs)[i]) <==> SaysClose(hs[i]) { SaysCloseLowered(hs[i]); }
    hide SaysClose;
    if AnyCloses(hs) {
      var i :| 0 <= i < |hs| && SaysClose(hs[i]);
      assert SaysClose(Lowered(hs)[i]);
    }
    if AnyCloses(Lowered(hs)) {
      var i :| 0 <= i < |Lowered(hs)| && SaysClose(Lowered(hs)[i]);
      assert SaysClose(hs[i]);
    }
  }

  lemma OwnFieldsClose()
    ensures SaysClose(CLOSE_FIELD) && !SaysClose(CHUNKED_FIELD)
  {
    StripsNothing("close", IsSpace);
    assert Lower("connection") == "connection" && Lower("close") == "close";
    NoComma("close");
    assert Split("close", ',')[0] == "close";
    assert |Lower("transfer-encoding")| != |"connection"|;
  }

  lemma FieldsClose(c: Cycle, a: Accepted)
    requires StartOk(c.isHead, a)
    ensures AnyCloses(FieldsOf(c, a)) <==> !a.keepAlive || AnyCloses(a.input)
  {
    hide ScanFields, HasChunked, ValuesOf, AnyCloses, SaysClose, Head, PyInt, ValidField, Lowered;
    var sc := ScanFields(InitialScan(a.keepAlive), a.input);
    ScanFinds(a.keepAlive, a.input);
    ScanFailsExactly(a.keepAlive, a.input);
    LoweredCloses(a.input);
    OwnFieldsClose();
    ClosesOne(sc.fields, CLOSE_FIELD);
    ClosesOne(sc.fields, CHUNKED_FIELD);
    ClosesOne(sc.fields + [CLOSE_FIELD], CHUNKED_FIELD);
    assert sc.fields + [] == sc.fields && sc.fields + [CLOSE_FIELD] + [] == sc.fields + [CLOSE_FIELD];
  }

  /** The head of an accepted response announces the close of the connection exactly if the connection will be closed
      after it. */
  lemma CloseIsAnnounced(c: Cycle, m: Message)
    requires ResponseOk(c) && !c.disconnected && !c.started && m.ResponseStart? && OneLine(m.reason)
    requires Acceptable(m.status, c.defaults + m.headers)
    ensures var d := Send(c, m).cycle;
            d.accepted.Some? && (AnyCloses(FieldsOf(d, d.accepted.value)) <==> !d.keepAlive)
  {
    hide Acceptable, AnyCloses, FieldsOf, StartOk, AcceptedOk, RefusedOk, Interim;
    StartIsTaken(c, m.status, m.reason, m.headers);
    assert ResponseStart(m.status, m.reason, m.headers) == m;
    SendKeepsResponse(c, m);
    hide Send;
    var d := Send(c, m).cycle;
    FieldsClose(d, d.accepted.value);
  }
}
