/** The answers that an HTTP/1.1 application sends are the ones recorded, written and read back: which messages `send`
    takes, told from the messages and headers alone, over every run. */
module Http1Answers {
  import opened Text
  import opened Http1Wire
  import opened Http1Spec
  import opened Http1Pipeline
  import opened Http1Runs
  import opened Http1ReadBack
  import opened Http1Conversations

  // ---------- start messages ----------

  /** The headers settle the framing of the body: one is recognised as "chunked", or there is a content-length. */
  predicate Framed(hs: seq<Field>) {
    HasChunked(ValuesOf(hs, "transfer-encoding")) || ValuesOf(hs, "content-length") != []
  }

  /** A header that `send` cannot take: a name or value with a character that is not allowed, or a content-length that
      is not a number where no header before it has settled the framing. */
  predicate Spoils(hs: seq<Field>, i: nat)
    requires i < |hs|
  {
    || !ValidField(hs[i])
    || (Lower(hs[i].name) == "content-length" && PyInt(hs[i].value).None? && !Framed(hs[..i]))
  }

  predicate Spoiled(hs: seq<Field>) { exists i :: 0 <= i < |hs| && Spoils(hs, i) }

  predicate SaysClose(h: Field) { Lower(h.name) == "connection" && HasToken(h.value, "close") }

  predicate AnyCloses(hs: seq<Field>) { exists i :: 0 <= i < |hs| && SaysClose(hs[i]) }

  lemma SpoiledOne(hs: seq<Field>, h: Field)
    ensures Spoiled(hs + [h]) <==> Spoiled(hs) || Spoils(hs + [h], |hs|)
  {
    hide ValidField, Lower, PyInt, Framed;
    var all := hs + [h];
    forall i | 0 <= i < |hs| ensures Spoils(all, i) <==> Spoils(hs, i) {
      assert all[..i] == hs[..i] && all[i] == hs[i];
    }
    if Spoiled(hs) {
      var i :| 0 <= i < |hs| && Spoils(hs, i);
      assert Spoils(all, i);
    }
  }

  lemma ClosesOne(hs: seq<Field>, h: Field)
    ensures AnyCloses(hs + [h]) <==> AnyCloses(hs) || SaysClose(h)
  {
    hide SaysClose;
    var all := hs + [h];
    if AnyCloses(hs) {
      var i :| 0 <= i < |hs| && SaysClose(hs[i]);
      assert SaysClose(all[i]);
    }
    assert all[|hs|] == h;
  }

  /** The header loop fails exactly on headers that `send` cannot take, and keeps the connection alive unless one of
      them asks for its close. */
  lemma {:induction false} ScanFailsExactly(keepAlive: bool, hs: seq<Field>)
    ensures var sc := ScanFields(InitialScan(keepAlive), hs);
            && (sc.failed <==> Spoiled(hs))
            && (!sc.failed ==> (sc.keepAlive <==> keepAlive && !AnyCloses(hs)) && (sc.closeSeen <==> AnyCloses(hs)))
  {
    hide PyInt, ValidField, HasToken, Lower, Spoiled, AnyCloses, HasChunked, ValuesOf;
    if hs == [] {
      assert !Spoiled(hs) && !AnyCloses(hs) by { NoFieldsAtAll(); }
    } else {
      var front, h := hs[..|hs| - 1], hs[|hs| - 1];
      assert front + [h] == hs;
      ScanFailsExactly(keepAlive, front);
      ScanFinds(keepAlive, front);
      SpoiledOne(front, h);
      ClosesOne(front, h);
      var sc := ScanFields(InitialScan(keepAlive), front);
      if !sc.failed { ScanOne(sc, h); }
    }
  }

  lemma NoFieldsAtAll()
    ensures !Spoiled([]) && !AnyCloses([])
  {
  }

  lemma ScanOne(sc: Scan, h: Field)
    requires !sc.failed
    ensures var next := ScanField(sc, h);
            && (next.failed <==> !ValidField(h)
                                 || (Lower(h.name) == "content-length" && sc.chunked.None? && PyInt(h.value).None?))
            && (!next.failed ==>
                  && (next.keepAlive <==> sc.keepAlive && !SaysClose(h))
                  && (next.closeSeen <==> sc.closeSeen || SaysClose(h)))
  {
    hide PyInt, ValidField, HasToken;
    assert Lower("content-length") == "content-length";
  }

  /** A start message that `send` accepts. */
  predicate Acceptable(status: nat, hs: seq<Field>) { 100 <= status < 600 && !Spoiled(hs) }

  /** A start message on a connected cycle that has not started: if it can be taken, its status, its reason and its
      headers behind the default ones are what is answered, and the connection closes afterwards if they ask for it; if
      not, `send` raises and writes nothing. */
  lemma StartIsTaken(c: Cycle, status: nat, reason: Bytes, headers: seq<Field>)
    requires ResponseOk(c) && !c.disconnected && !c.started
    ensures var r := Send(c, ResponseStart(status, reason, headers)); var input := c.defaults + headers;
            && r.cycle.started && !r.cycle.complete && r.cycle.bodies == c.bodies && !r.respond && !r.close
            && (r.raised <==> !Acceptable(status, input))
            && (r.raised ==> r.cycle.accepted.None? && r.wrote == "")
            && (!r.raised ==>
                  && r.cycle.accepted.Some?
                  && var a := r.cycle.accepted.value;
                     && a.status == status && a.reason == reason && a.input == input && a.keepAlive == c.keepAlive
                     && r.wrote == a.head
                     && (r.cycle.keepAlive <==> c.keepAlive && !AnyCloses(input)))
  {
    hide ScanFields, Head, HeadFields, Spoiled, AnyCloses, StartOk, AcceptedOk, RefusedOk, Interim;
    var input := c.defaults + headers;
    ScanFailsExactly(c.keepAlive, input);
    if 100 <= status < 600 {} else {}
  }

  // ---------- body messages ----------

  predicate Answering(c: Cycle) { !c.disconnected && c.started && !c.complete }

  /** The framing has room for it. */
  predicate Fits(c: Cycle, body: Bytes) { c.isHead || c.chunked == Some(true) || |body| <= c.remaining }

  /** What the framing still asks for after it. */
  function Left(c: Cycle, body: Bytes): int {
    if c.isHead || c.chunked == Some(true) then 0 else c.remaining - |body|
  }

  /** A body message on a response in progress is taken whole or refused with nothing changed; the response is complete
      when the last one leaves nothing missing, and `send` raises when it leaves something. */
  lemma BodyIsTaken(c: Cycle, body: Bytes, more: bool)
    requires ResponseOk(c) && Answering(c)
    ensures var r := Send(c, ResponseBody(body, more));
            if Fits(c, body) then
              && r.cycle.bodies == c.bodies + [body] && r.cycle.accepted == c.accepted
              && (r.cycle.complete <==> !more && Left(c, body) == 0)
              && (r.raised <==> !more && Left(c, body) != 0)
              && (r.respond <==> r.cycle.complete && c.onResponse)
              && (r.close <==> r.cycle.complete && !c.keepAlive)
              && (c.isHead || r.cycle.remaining == Left(c, body)) && r.cycle.keepAlive == c.keepAlive
            else r == Sent(c, "", true, false, false)
  {
    hide Chunk, StartOk, Interim, Chunks, Concat;
  }

  /** Every other message is refused, or ignored on a connection that is lost. */
  lemma OthersAreRefused(c: Cycle, m: Message)
    requires c.disconnected || (c.started && c.complete) || (c.started && !m.ResponseBody?)
        || (!c.started && !m.ResponseStart?)
    ensures Send(c, m) == Sent(c, "", !c.disconnected, false, false)
  {
  }

  // ---------- runs ----------

  /** The message that an event sends on cycle `k`. */
  function MessageOn(e: Event, k: nat): Option<Message> {
    if e.AppSends? && e.i == k then Some(e.message)
    else if e == Sends500(k) then Some(START_500)
    else if e == Ends500(k) then Some(BODY_500)
    else None
  }

  /** The bodies of the body messages sent on cycle `k` that have found a response in progress with room for them. */
  ghost function BodiesSent(s: Conn, es: seq<Event>, k: nat): seq<Bytes>
    requires Shape(s) && Runs(s, es)
    decreases |es|
  {
    if es == [] then []
    else
      StepKeepsShape(s, es[0]);
      OneBody(s, es[0], k) + BodiesSent(Step(s, es[0]), es[1..], k)
  }

  function OneBody(s: Conn, e: Event, k: nat): seq<Bytes> {
    match MessageOn(e, k)
    case Some(ResponseBody(body, _)) =>
      if k < |s.cycles| && Answering(s.cycles[k]) && Fits(s.cycles[k], body) then [body] else []
    case _ => []
  }

  /** The first start message sent on cycle `k` before the connection was lost. */
  ghost function Opening(s: Conn, es: seq<Event>, k: nat): Option<Message>
    requires Shape(s) && Runs(s, es)
    decreases |es|
  {
    if es == [] then None
    else
      StepKeepsShape(s, es[0]);
      var m := MessageOn(es[0], k);
      if m.Some? && m.value.ResponseStart? && k < |s.cycles| && !s.cycles[k].disconnected then m
      else Opening(Step(s, es[0]), es[1..], k)
  }

  /** What is recorded of an answer is what was sent. */
  predicate Recorded(c: Cycle, opening: Option<Message>, bodies: seq<Bytes>) {
    && c.bodies == bodies && (c.started <==> opening.Some?)
    && (opening.Some? ==>
          && opening.value.ResponseStart?
          && var m, input := opening.value, c.defaults + opening.value.headers;
             && (c.accepted.Some? <==> Acceptable(m.status, input))
             && (c.accepted.Some? ==>
                   var a := c.accepted.value; a.status == m.status && a.reason == m.reason && a.input == input))
  }

  predicate RecordedAt(s: Conn, k: nat, opening: Option<Message>, bodies: seq<Bytes>) {
    if k < |s.cycles| then Recorded(s.cycles[k], opening, bodies) else opening.None? && bodies == []
  }

  function NextOpening(s: Conn, e: Event, k: nat, opening: Option<Message>): Option<Message> {
    var m := MessageOn(e, k);
    if opening.None? && m.Some? && m.value.ResponseStart? && k < |s.cycles| && !s.cycles[k].disconnected then m
    else opening
  }

  lemma SendRecords(c: Cycle, m: Message, opening: Option<Message>, bodies: seq<Bytes>)
    requires ResponseOk(c) && Recorded(c, opening, bodies)
    ensures var d := Send(c, m).cycle;
            Recorded(d, if opening.None? && m.ResponseStart? && !c.disconnected then Some(m) else opening,
                     if m.ResponseBody? && Answering(c) && Fits(c, m.body) then bodies + [m.body] else bodies)
  {
    hide Spoiled, StartOk, AcceptedOk, RefusedOk;
    SendFacts(c, m);
    if !c.disconnected && !c.started && m.ResponseStart? {
      StartIsTaken(c, m.status, m.reason, m.headers);
      hide Send;
      assert ResponseStart(m.status, m.reason, m.headers) == m;
    } else if Answering(c) && m.ResponseBody? {
      BodyIsTaken(c, m.body, m.more);
      hide Send;
      assert ResponseBody(m.body, m.more) == m;
    } else {
      OthersAreRefused(c, m);
      hide Send;
    }
  }

  predicate SameRecord(c: Cycle, d: Cycle) {
    d.bodies == c.bodies && d.accepted == c.accepted && d.started == c.started && d.defaults == c.defaults
  }

  lemma RecordKept(c: Cycle, d: Cycle, opening: Option<Message>, bodies: seq<Bytes>)
    requires SameRecord(c, d) && Recorded(c, opening, bodies)
    ensures Recorded(d, opening, bodies)
  {
    hide Acceptable;
  }

  lemma SendingChanges(s: Conn, e: Event, k: nat, c: Cycle, d: Cycle)
    requires Changes(s, e, k, c, d) && (e.AppSends? || e.Sends500? || e.Ends500?)
    ensures SameRecord(if MessageOn(e, k).Some? then Send(c, MessageOn(e, k).value).cycle else c, d)
  {
    hide Send;
    if e.AppSends? {
      assert e == AppSends(e.i, e.message);
    } else if e.Sends500? {
      assert e == Sends500(e.i);
    } else {
      assert e == Ends500(e.i);
    }
  }

  lemma RequestChanges(s: Conn, e: Event, k: nat, c: Cycle, d: Cycle)
    requires Changes(s, e, k, c, d) && (e.DataReceived? || e.ReceiveBegins? || e.ReceiveEnds?)
    ensures SameRecord(c, d)
  {
    if e.DataReceived? {
    } else if e.ReceiveBegins? {
    } else {
    }
  }

  lemma OtherChanges(s: Conn, e: Event, k: nat, c: Cycle, d: Cycle)
    requires Changes(s, e, k, c, d) && !e.AppSends? && !e.Sends500? && !e.Ends500?
    ensures MessageOn(e, k).None? && SameRecord(c, d)
  {
    hide Begun, Took, MoreOfRequest;
    if e.DataReceived? || e.ReceiveBegins? || e.ReceiveEnds? {
      RequestChanges(s, e, k, c, d);
    } else if e.AppEnded? {
    } else {
    }
  }

  lemma ChangesRecord(s: Conn, e: Event, k: nat, c: Cycle, d: Cycle)
    requires Changes(s, e, k, c, d)
    ensures SameRecord(if MessageOn(e, k).Some? then Send(c, MessageOn(e, k).value).cycle else c, d)
  {
    hide Changes, SameRecord, MessageOn, Send;
    if e.AppSends? || e.Sends500? || e.Ends500? {
      SendingChanges(s, e, k, c, d);
    } else {
      OtherChanges(s, e, k, c, d);
    }
  }

  lemma BlankRecords(c: Cycle)
    requires Blank(c)
    ensures Recorded(c, None, [])
  {
  }

  /** An event that sends nothing on cycle `k`. */
  lemma SilentRecords(s: Conn, e: Event, k: nat, opening: Option<Message>, bodies: seq<Bytes>)
    requires Shape(s) && Enabled(s, e) && MessageOn(e, k).None? && RecordedAt(s, k, opening, bodies)
    ensures RecordedAt(Step(s, e), k, opening, bodies)
  {
    hide Step, Enabled, Shape, Changes, Recorded, Blank, SameRecord;
    if k < |s.cycles| {
      StepCycle(s, e, k);
      ChangesRecord(s, e, k, s.cycles[k], Step(s, e).cycles[k]);
      RecordKept(s.cycles[k], Step(s, e).cycles[k], opening, bodies);
    } else if k < |Step(s, e).cycles| {
      NewInStep(s, e, k);
      BlankRecords(Step(s, e).cycles[k]);
    }
  }

  lemma SenderIsThere(s: Conn, e: Event, k: nat)
    requires Enabled(s, e) && MessageOn(e, k).Some?
    ensures k < |s.cycles|
  {
    if e.AppSends? {} else {}
  }

  lemma SendingRecords(s: Conn, e: Event, k: nat, opening: Option<Message>, bodies: seq<Bytes>)
    requires Inv(s) && Shape(s) && Enabled(s, e) && MessageOn(e, k).Some? && RecordedAt(s, k, opening, bodies)
    ensures RecordedAt(Step(s, e), k, NextOpening(s, e, k, opening), bodies + OneBody(s, e, k))
  {
    hide Step, Enabled, Shape, Inv, Send, ResponseOk, RequestOk, Changes, Recorded, SameRecord, Answering, Fits,
         MessageOn;
    SenderIsThere(s, e, k);
    var c, m := s.cycles[k], MessageOn(e, k).value;
    CycleIsOk(s, k);
    StepCycle(s, e, k);
    var d := Step(s, e).cycles[k];
    ChangesRecord(s, e, k, c, d);
    SendRecords(c, m, opening, bodies);
    assert bodies + [] == bodies;
    RecordKept(Send(c, m).cycle, d, NextOpening(s, e, k, opening), bodies + OneBody(s, e, k));
  }

  lemma StepRecords(s: Conn, e: Event, k: nat, opening: Option<Message>, bodies: seq<Bytes>)
    requires Inv(s) && Shape(s) && Enabled(s, e) && RecordedAt(s, k, opening, bodies)
    ensures RecordedAt(Step(s, e), k, NextOpening(s, e, k, opening), bodies + OneBody(s, e, k))
  {
    hide Inv, Step, Enabled, Shape, RecordedAt;
    if MessageOn(e, k).None? {
      SilentRecords(s, e, k, opening, bodies);
      assert bodies + [] == bodies;
    } else {
      SendingRecords(s, e, k, opening, bodies);
    }
  }

  lemma {:induction false} RunRecords(s: Conn, es: seq<Event>, k: nat, opening: Option<Message>, bodies: seq<Bytes>)
    requires Shape(s) && Inv(s) && Runs(s, es) && RecordedAt(s, k, opening, bodies)
    ensures RecordedAt(Run(s, es), k, if opening.Some? then opening else Opening(s, es, k),
                       bodies + BodiesSent(s, es, k))
    decreases |es|
  {
    hide Inv, Step, Enabled, Shape, RecordedAt, OneBody;
    if es == [] {
      assert bodies + [] == bodies;
    } else {
      var e := es[0];
      StepKeepsShape(s, e);
      StepRecords(s, e, k, opening, bodies);
      StepKeepsInv(s, e);
      var rest := BodiesSent(Step(s, e), es[1..], k);
      RunRecords(Step(s, e), es[1..], k, NextOpening(s, e, k, opening), bodies + OneBody(s, e, k));
      assert bodies + OneBody(s, e, k) + rest == bodies + (OneBody(s, e, k) + rest);
    }
  }

  /** After any run the answer recorded for a request is the one its application sent: it is started by the first start
      message, accepted exactly if that can be taken, with its status, reason and headers, and its bodies are those of
      the body messages that found room. */
  lemma AnswersAreThoseSent(es: seq<Event>, k: nat)
    requires Runs(FRESH, es) && k < |Run(FRESH, es).cycles|
    ensures var c := Run(FRESH, es).cycles[k]; var opening := Opening(FRESH, es, k);
            && c.bodies == BodiesSent(FRESH, es, k) && (c.started <==> opening.Some?)
            && (opening.Some? ==>
                  && opening.value.ResponseStart?
                  && var m, input := opening.value, c.defaults + opening.value.headers;
                     && (c.accepted.Some? <==> Acceptable(m.status, input))
                     && (c.accepted.Some? ==>
                           var a := c.accepted.value; a.status == m.status && a.reason == m.reason && a.input == input))
  {
    hide Inv, Runs, Run, BodiesSent, Opening, Acceptable;
    FreshInv();
    RunRecords(FRESH, es, k, None, []);
    assert [] + BodiesSent(FRESH, es, k) == BodiesSent(FRESH, es, k);
  }

  /** End to end: as far as the answers are readable, the `k`-th reply that a client reads has the status of the
      application's start message for the `k`-th request and the concatenation of the bodies it sent, or none for
      HEAD. */
  lemma ClientReadsWhatWasSent(es: seq<Event>, m: nat, k: nat)
    requires Runs(FRESH, es) && k < m <= Answered(Run(FRESH, es))
    requires forall j :: 0 <= j < m && j < |Run(FRESH, es).cycles| ==> Readable(Run(FRESH, es).cycles[j])
    ensures var s, opening, ps := Run(FRESH, es), Opening(FRESH, es, k), Requests([], es);
            && m <= |s.cycles| == |ps|
            && var r := ReadAll(Heads(s.cycles[..m]), s.wire);
               && r.Some? && |r.value.0| == m
               && opening.Some? && opening.value.ResponseStart? && r.value.0[k].status == opening.value.status
               && Heads(s.cycles[..m])[k] == ps[k].isHead
               && r.value.0[k].body == if ps[k].isHead then "" else Concat(BodiesSent(FRESH, es, k))
  {
    hide Inv, Runs, Run, BodiesSent, Opening, Acceptable, Answered, ReadAll, Requests, CleanHeaders, EmptyHeaders;
    ConnectionReadsBack(es, m);
    AnswersAreThoseSent(es, k);
    CyclesAreRequests(es);
    var s := Run(FRESH, es);
    assert s.cycles[..m][k] == s.cycles[k];
    assert Readable(s.cycles[k]);
    AcceptedIsStarted(es, k);
    hide Readable;
    assert Replies(s.cycles[..m])[k] == ReplyOf(s.cycles[k]);
  }

  lemma AcceptedIsStarted(es: seq<Event>, k: nat)
    requires Runs(FRESH, es) && k < |Run(FRESH, es).cycles| && Run(FRESH, es).cycles[k].complete
    ensures Run(FRESH, es).cycles[k].started
  {
    hide Runs, Run, Inv;
    FreshInv();
    RunKeepsInv(FRESH, es);
    CycleIsOk(Run(FRESH, es), k);
  }
}
