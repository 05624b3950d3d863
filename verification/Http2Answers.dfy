/** The answers that an HTTP/2 application sends are the calls made on the library: which messages `send` takes, told
    from the messages, the request and losses of the stream alone, over every run. */
module Http2Answers {
  import opened Text
  import opened Http2Spec
  import opened Http2Streams
  import opened Http2Multiplexer
  import opened Http2Runs
  import opened Http2Uploads
  import Flow

  type Headers = seq<(Bytes, Bytes)>

  // ---------- headers ----------

  predicate NamesLength(h: (Bytes, Bytes)) { Lower(h.0) == "content-length" }

  predicate BadLength(h: (Bytes, Bytes)) { NamesLength(h) && PyInt(h.1).None? }

  predicate SomeBadLength(hs: Headers) { exists i :: 0 <= i < |hs| && BadLength(hs[i]) }

  /** The last content-length. */
  predicate LastNamed(hs: Headers, i: int) {
    0 <= i < |hs| && NamesLength(hs[i]) && forall j :: i < j < |hs| ==> !NamesLength(hs[j])
  }

  lemma BadOne(hs: Headers, h: (Bytes, Bytes))
    ensures SomeBadLength(hs + [h]) <==> SomeBadLength(hs) || BadLength(h)
  {
    hide BadLength;
    var all := hs + [h];
    if SomeBadLength(hs) {
      var i :| 0 <= i < |hs| && BadLength(hs[i]);
      assert BadLength(all[i]);
    }
    assert all[|hs|] == h;
  }

  lemma NamedOne(hs: Headers, h: (Bytes, Bytes), i: int)
    requires LastNamed(hs + [h], i)
    ensures if NamesLength(h) then i == |hs| else LastNamed(hs, i)
  {
    hide NamesLength;
    var all := hs + [h];
    assert all[|hs|] == h;
    forall j | i < j < |hs| ensures !NamesLength(hs[j]) { assert all[j] == hs[j]; }
  }

  /** The declared length is the last content-length, and it is an error if some content-length is not a number. */
  lemma {:induction false} LengthIsTheLast(hs: Headers)
    ensures var (n, failed) := LastLength(hs);
            && (failed <==> SomeBadLength(hs))
            && (!failed ==> forall i :: 0 <= i < |hs| && LastNamed(hs, i) ==> n == PyInt(hs[i].1))
            && (!failed && n.Some? ==> exists i :: LastNamed(hs, i))
  {
    if hs == [] {
    } else {
      hide PyInt, Lower, SomeBadLength, LastNamed;
      var front, h := hs[..|hs| - 1], hs[|hs| - 1];
      assert front + [h] == hs;
      LengthIsTheLast(front);
      BadOne(front, h);
      var (n, failed) := LastLength(hs);
      if !failed {
        forall i | LastNamed(hs, i) ensures n == PyInt(hs[i].1) {
          NamedOne(front, h, i);
          StillNamed(hs, i);
        }
        if NamesLength(h) {
          LastOne(hs);
        } else if n.Some? {
          var i :| LastNamed(front, i);
          NamedStill(front, h, i);
        }
      }
    }
  }

  lemma StillNamed(hs: Headers, i: int)
    requires LastNamed(hs, i)
    ensures 0 <= i < |hs|
  {
  }

  lemma LastOne(hs: Headers)
    requires hs != [] && NamesLength(hs[|hs| - 1])
    ensures LastNamed(hs, |hs| - 1)
  {
  }

  lemma NamedStill(hs: Headers, h: (Bytes, Bytes), i: int)
    requires LastNamed(hs, i) && !NamesLength(h)
    ensures LastNamed(hs + [h], i)
  {
    hide NamesLength;
  }

  /** What the loops of `send` pass on of a header. */
  function Passed(h: (Bytes, Bytes)): Headers {
    if Forwarded(Lower(h.0), h.1) then [(Lower(h.0), h.1)] else []
  }

  /** A response's headers are passed on one by one and in order, their names in lower case. */
  lemma {:induction false} HeadersAreFiltered(a: Headers, h: (Bytes, Bytes), b: Headers)
    ensures HeadersOf(a + [h] + b) == HeadersOf(a) + Passed(h) + HeadersOf(b)
  {
    hide Forwarded, Lower;
    if b == [] {
      assert a + [h] + b == a + [h] && (a + [h])[..|a|] == a;
    } else {
      var front, last := b[..|b| - 1], b[|b| - 1];
      HeadersAreFiltered(a, h, front);
      assert (a + [h] + b)[..|a + [h] + b| - 1] == a + [h] + front;
      assert HeadersOf(a + [h] + b) == HeadersOf(a + [h] + front) + Passed(last);
      assert HeadersOf(b) == HeadersOf(front) + Passed(last);
    }
  }

  /** Nothing that concerns the connection, which section 8.2.2 of RFC 9113 does not allow. */
  predicate NoConnectionFields(hs: Headers) {
    forall i :: 0 <= i < |hs| ==>
      !Forbidden(hs[i].0) && (hs[i].0 == "te" ==> Strip(Lower(hs[i].1), IsSpace) == "trailers")
  }

  lemma {:induction false} HeadersAreAllowed(hs: Headers)
    ensures NoConnectionFields(HeadersOf(hs))
  {
    hide Forbidden, Lower;
    if hs != [] { HeadersAreAllowed(hs[..|hs| - 1]); }
  }

  predicate Pseudo(h: (Bytes, Bytes)) { h.0 != "" && LowerChar(h.0[0]) == ':' }

  /** The trailers that go with a response, if the client has asked for them. */
  function TrailersOf(hs: Headers): Headers {
    if hs == [] then []
    else
      var name := Lower(hs[|hs| - 1].0);
      TrailersOf(hs[..|hs| - 1]) + if Forbidden(name) || name == "te" then [] else [(name, hs[|hs| - 1].1)]
  }

  lemma {:induction false} TrailersAllowed(hs: Headers)
    ensures NoConnectionFields(TrailersOf(hs))
  {
    hide Forbidden, Lower;
    if hs != [] { TrailersAllowed(hs[..|hs| - 1]); }
  }

  predicate SomePseudo(hs: Headers) { exists i :: 0 <= i < |hs| && Pseudo(hs[i]) }

  /** What is in front of the first pseudo header. */
  function FrontOf(hs: Headers): Headers {
    if hs == [] || Pseudo(hs[0]) then [] else [hs[0]] + FrontOf(hs[1..])
  }

  lemma {:induction false} FrontIsInFront(hs: Headers)
    ensures var n := |FrontOf(hs)|;
            && n <= |hs| && FrontOf(hs) == hs[..n] && !SomePseudo(hs[..n])
            && (n < |hs| ==> Pseudo(hs[n])) && (n < |hs| <==> SomePseudo(hs))
  {
    hide Pseudo;
    if hs != [] && !Pseudo(hs[0]) {
      FrontIsInFront(hs[1..]);
      var n := |FrontOf(hs)|;
      assert hs[..n] == [hs[0]] + hs[1..][..n - 1];
      assert forall i :: 0 < i < |hs| ==> hs[i] == hs[1..][i - 1];
    }
  }

  lemma {:induction false} TrailersCons(h: (Bytes, Bytes), hs: Headers)
    ensures TrailersOf([h] + hs) == TrailersOf([h]) + TrailersOf(hs)
  {
    hide Forbidden, Lower;
    if hs == [] {
      assert [h] + hs == [h];
    } else {
      var front := hs[..|hs| - 1];
      TrailersCons(h, front);
      assert ([h] + hs)[..|hs|] == [h] + front && ([h] + hs)[|hs|] == hs[|hs| - 1];
    }
  }

  lemma TrailersSingle(h: (Bytes, Bytes))
    ensures TrailersOf([h]) == if Dropped(Lower(h.0)) then [] else [(Lower(h.0), h.1)]
  {
    hide Forbidden, Lower;
    assert [h][..0] == [];
    assert TrailersOf([]) == [];
  }

  /** The trailers loop takes the trailers in front of the first pseudo header, and fails if there is one. */
  lemma {:induction false} GatherTakesTrailers(hs: Headers, wanted: bool)
    ensures Gather(hs, wanted) == (if wanted then TrailersOf(FrontOf(hs)) else [], SomePseudo(hs))
  {
    hide Dropped, TrailersOf;
    NoTrailers();
    if hs == [] {
    } else if Pseudo(hs[0]) {
      LowerPseudo(hs[0]);
      hide Pseudo, Lower;
      assert SomePseudo(hs);
    } else {
      LowerPseudo(hs[0]);
      hide Pseudo, Lower;
      GatherTakesTrailers(hs[1..], wanted);
      TrailersCons(hs[0], FrontOf(hs[1..]));
      TrailersSingle(hs[0]);
      PseudoCons(hs);
      var rest := TrailersOf(FrontOf(hs[1..]));
      assert FrontOf(hs) == [hs[0]] + FrontOf(hs[1..]) && [] + rest == rest;
    }
  }

  lemma LowerPseudo(h: (Bytes, Bytes))
    ensures Pseudo(h) <==> Lower(h.0) != "" && Lower(h.0)[0] == ':'
  {
  }

  lemma PseudoCons(hs: Headers)
    requires hs != [] && !Pseudo(hs[0])
    ensures SomePseudo(hs) <==> SomePseudo(hs[1..])
  {
    hide Pseudo;
    if SomePseudo(hs) {
      var i :| 0 <= i < |hs| && Pseudo(hs[i]);
      assert hs[1..][i - 1] == hs[i];
    }
    assert forall i :: 0 < i < |hs| ==> hs[i] == hs[1..][i - 1];
  }

  lemma NoTrailers()
    ensures TrailersOf([]) == []
  {
  }

  // ---------- the answer, from the messages alone ----------

  /** The hints, the start message, the bodies taken, whether the last has been, the trailers, whether the response has
      ended and whether the stream has been reset. */
  datatype Answer = Answer(hints: seq<seq<Bytes>>, opening: Option<Message>, bodies: seq<Bytes>, last: bool,
                           trailers: Headers, done: bool, reset: bool)

  const BLANK := Answer([], None, [], false, [], false, false)

  /** The request that is answered. */
  datatype Asked = Asked(defaults: Headers, isHead: bool, wantsTrailers: bool)

  function AskedOf(o: Out): Asked { Asked(o.defaults, o.isHead, o.wantsTrailers) }

  predicate Refused(q: Asked, m: Message)
    requires m.ResponseStart?
  {
    SomeBadLength(q.defaults + m.headers)
  }

  predicate Bodyless(q: Asked, m: Message)
    requires m.ResponseStart?
  {
    !Refused(q, m) && (q.isHead || m.status == 204 || m.status == 304 || m.status < 200)
  }

  function Length(q: Asked, m: Message): Option<int>
    requires m.ResponseStart?
  {
    if Bodyless(q, m) then None else LastLength(q.defaults + m.headers).0
  }

  predicate Opened(a: Answer) { a.opening.Some? && a.opening.value.ResponseStart? }

  /** The bytes of a body message that are sent. */
  function Content(q: Asked, a: Answer, body: Bytes): Bytes
    requires Opened(a)
  {
    if Bodyless(q, a.opening.value) then "" else body
  }

  predicate Fits(q: Asked, a: Answer, body: Bytes)
    requires Opened(a)
  {
    var n := Length(q, a.opening.value); n.Some? ==> |Concat(a.bodies)| + |body| <= n.value
  }

  predicate Fills(q: Asked, a: Answer, body: Bytes)
    requires Opened(a)
  {
    var n := Length(q, a.opening.value); n.Some? ==> |Concat(a.bodies)| + |body| == n.value
  }

  /** What a message sent on a connected stream adds to its answer. */
  function Tell(q: Asked, a: Answer, m: Message): Answer {
    if !Opened(a) then
      match m
      case EarlyHint(links) => a.(hints := a.hints + [links])
      case ResponseStart(_, _, _) => a.(opening := Some(m))
      case _ => a
    else if !a.last then
      match m
      case ResponseBody(body, more) =>
        if !Fits(q, a, body) then a
        else
          var last := !more && Fills(q, a, body);
          a.(bodies := a.bodies + [Content(q, a, body)], last := last, done := last && !a.opening.value.trailers)
      case _ => a
    else if !a.done then
      match m
      case ResponseTrailers(hs, more) =>
        a.(trailers := a.trailers + (if q.wantsTrailers then TrailersOf(FrontOf(hs)) else []),
           done := !more && !SomePseudo(hs))
      case _ => a
    else a
  }

  /** The messages at which `send` raises. */
  predicate Raises(q: Asked, a: Answer, m: Message) {
    if !Opened(a) then if m.ResponseStart? then Refused(q, m) else !m.EarlyHint?
    else if !a.last then m.ResponseBody? ==> !Fits(q, a, m.body) || (!m.more && !Fills(q, a, m.body))
    else if !a.done then m.ResponseTrailers? ==> SomePseudo(m.headers)
    else true
  }

  function Hints(hints: seq<seq<Bytes>>): seq<Call> {
    seq(|hints|, i requires 0 <= i < |hints| => SendInformational(hints[i]))
  }

  function Opening(q: Asked, opening: Option<Message>): seq<Call> {
    if opening.Some? && opening.value.ResponseStart? && !Refused(q, opening.value) then
      [ResponseTo(opening.value, q.defaults)]
    else []
  }

  function DataCalls(bodies: seq<Bytes>): seq<Call> {
    if bodies == [] then []
    else DataCalls(bodies[..|bodies| - 1]) + if bodies[|bodies| - 1] == "" then [] else [SendData(bodies[|bodies| - 1])]
  }

  function Ending(a: Answer): seq<Call> {
    (if a.done then [EndMessage(a.trailers)] else []) + if a.reset then [Reset] else []
  }

  /** The calls that the answer comes to. */
  function CallsOf(q: Asked, a: Answer): seq<Call> {
    Hints(a.hints) + Opening(q, a.opening) + DataCalls(a.bodies) + Ending(a)
  }

  // ---------- one stream ----------

  /** A stream has sent its answer. */
  predicate Sends(o: Out, q: Asked, a: Answer) {
    && AskedOf(o) == q
    && (o.started <==> a.opening.Some?) && (a.opening.Some? ==> a.opening.value.ResponseStart?)
    && o.bodies == a.bodies && o.bodyComplete == a.last && o.complete == a.done && o.trailers == a.trailers
    && (!a.last ==> !a.done && a.trailers == []) && (!o.started ==> !a.last && a.bodies == [])
    && (o.started ==>
          && o.trailersExpected == a.opening.value.trailers && o.bodyless == Bodyless(q, a.opening.value)
          && o.remaining == match Length(q, a.opening.value)
                            case None => None
                            case Some(n) => Some(n - |Concat(a.bodies)|))
    && (!o.started ==> !o.bodyless && o.remaining.None?)
    && NoConnectionFields(a.trailers)
    && o.calls == CallsOf(q, a)
  }

  lemma HintsOne(hints: seq<seq<Bytes>>, links: seq<Bytes>)
    ensures Hints(hints + [links]) == Hints(hints) + [SendInformational(links)]
  {
  }

  lemma DataOne(bodies: seq<Bytes>, b: Bytes)
    ensures DataCalls(bodies + [b]) == DataCalls(bodies) + if b == "" then [] else [SendData(b)]
  {
    assert (bodies + [b])[..|bodies|] == bodies;
  }

  lemma HintTold(o: Out, q: Asked, a: Answer, m: Message)
    requires Sends(o, q, a) && !a.reset && !o.started && m.EarlyHint?
    ensures Sends(Send(o, m).out, q, Tell(q, a, m)) && !Send(o, m).raised
  {
    hide Bodyless, Length, NoConnectionFields, Concat, Hints;
    HintsOne(a.hints, m.links);
    var h, c := Hints(a.hints), [SendInformational(m.links)];
    assert DataCalls([]) == [];
    assert h + [] + [] + ([] + []) + c == h + c + [] + [] + ([] + []);
  }

  lemma StartTold(o: Out, q: Asked, a: Answer, m: Message)
    requires Sends(o, q, a) && !a.reset && !o.started && m.ResponseStart?
    ensures Sends(Send(o, m).out, q, Tell(q, a, m)) && (Send(o, m).raised <==> Refused(q, m))
  {
    hide LastLength, SomeBadLength, NoConnectionFields, Hints, ResponseTo;
    LengthIsTheLast(o.defaults + m.headers);
    ConcatNone();
    var h, c := Hints(a.hints), [ResponseTo(m, q.defaults)];
    assert DataCalls([]) == [];
    assert h + [] + [] + ([] + []) == h && h + c + [] + ([] + []) == h + c;
  }

  /** The calls of a body message that is taken. */
  lemma BodyCalls(q: Asked, a: Answer, b: Bytes, last: bool, done: bool)
    requires !a.reset && !a.done && a.trailers == []
    ensures CallsOf(q, a.(bodies := a.bodies + [b], last := last, done := done))
            == CallsOf(q, a) + (if b == "" then [] else [SendData(b)]) + (if done then [EndMessage([])] else [])
  {
    hide Hints, Opening;
    DataOne(a.bodies, b);
    var front, data := Hints(a.hints) + Opening(q, a.opening), DataCalls(a.bodies);
    hide DataCalls;
    var written := if b == "" then [] else [SendData(b)];
    var end := if done then [EndMessage([])] else [];
    assert front + data + ([] + []) == front + data;
    assert front + data + written + end == front + (data + written) + (end + []);
  }

  lemma BodyTold(o: Out, q: Asked, a: Answer, m: Message)
    requires Sends(o, q, a) && !a.reset && o.started && !o.bodyComplete && m.ResponseBody?
    ensures Sends(Send(o, m).out, q, Tell(q, a, m)) && (Send(o, m).raised <==> Raises(q, a, m))
  {
    hide Bodyless, Length, NoConnectionFields, CallsOf, Concat;
    var b := Content(q, a, m.body);
    ConcatOne(a.bodies, b);
    BodylessLength(q, a.opening.value);
    if Fits(q, a, m.body) {
      var last := !m.more && Fills(q, a, m.body);
      BodyCalls(q, a, b, last, last && !o.trailersExpected);
      if Length(q, a.opening.value).None? {} else {}
    } else {
      assert SendBody(o, m.body, m.more) == Sent(o, true);
    }
  }

  lemma BodylessLength(q: Asked, m: Message)
    requires m.ResponseStart?
    ensures Bodyless(q, m) ==> Length(q, m).None?
  {
  }

  lemma TrailersTold(o: Out, q: Asked, a: Answer, m: Message)
    requires Sends(o, q, a) && !a.reset && o.bodyComplete && !o.complete && m.ResponseTrailers?
    ensures Sends(Send(o, m).out, q, Tell(q, a, m)) && (Send(o, m).raised <==> Raises(q, a, m))
  {
    hide Bodyless, Length, Hints, Opening, Concat, DataCalls, Gather, TrailersOf, Forbidden;
    GatherTakesTrailers(m.headers, q.wantsTrailers);
    TrailersAllowed(FrontOf(m.headers));
    var front := Hints(a.hints) + Opening(q, a.opening) + DataCalls(a.bodies);
    assert front + ([] + []) == front;
    var trailers := a.trailers + if q.wantsTrailers then TrailersOf(FrontOf(m.headers)) else [];
    assert front + [EndMessage(trailers)] == front + ([EndMessage(trailers)] + []);
  }

  /** A message does to a connected stream what it does to its answer, and `send` raises exactly at those it should. */
  lemma MessageTold(o: Out, q: Asked, a: Answer, m: Message)
    requires Sends(o, q, a) && !a.reset
    ensures Sends(Send(o, m).out, q, Tell(q, a, m)) && (Send(o, m).raised <==> Raises(q, a, m))
    ensures !Tell(q, a, m).reset
  {
    hide SendStart, SendBody, SendTrailers, NoConnectionFields, CallsOf, Refused, Bodyless, Length, Fits, Fills,
         SomePseudo;
    if !o.started && m.EarlyHint? {
      HintTold(o, q, a, m);
    } else if !o.started && m.ResponseStart? {
      StartTold(o, q, a, m);
    } else if o.started && !o.bodyComplete && m.ResponseBody? {
      BodyTold(o, q, a, m);
    } else if o.bodyComplete && !o.complete && m.ResponseTrailers? {
      TrailersTold(o, q, a, m);
    } else {
      assert Send(o, m) == Sent(o, true) && Tell(q, a, m) == a;
    }
  }

  // ---------- the steps of a connection ----------

  /** The message that an event sends on stream `id`. */
  function MessageOn(e: Event, id: nat): Option<Message> {
    if e.AppSent? && e.id == id then Some(e.message)
    else if e == Sends500(id) then Some(START_500)
    else if e == Ends500(id) then Some(BODY_500)
    else None
  }

  /** An application that ends badly, after its response has started or by returning a value, has its stream reset. */
  predicate Aborts(closing: bool, disconnected: bool, started: bool, complete: bool, how: Outcome) {
    && !closing
    && match how
       case Raised => started
       case ReturnedValue => true
       case ReturnedNone => started && !complete && !disconnected
  }

  predicate Resets(s: Conn, e: Event, id: nat) {
    && id in s.streams && e.AppEnded? && e.id == id
    && var c := s.streams[id]; Aborts(s.closing, c.disconnected, c.out.started, c.out.complete, e.how)
  }

  /** What an event does to the response side of stream `id`. */
  function NextOut(s: Conn, e: Event, id: nat): Out
    requires id in s.streams
  {
    var c, m := s.streams[id], MessageOn(e, id);
    if m.Some? && !c.disconnected then Send(c.out, m.value).out
    else if Resets(s, e, id) then c.out.(calls := c.out.calls + [Reset])
    else c.out
  }

  predicate Goes(s: Conn, t: Conn, id: nat, out: Out) {
    id in s.streams && id in t.streams && t.streams[id].out == out &&
    (s.streams[id].phase == Ended ==> t.streams[id].phase == Ended)
  }

  lemma PutGoes(s: Conn, id: nat, d: Cycle)
    requires id in s.streams && (s.streams[id].phase == Ended ==> d.phase == Ended)
    ensures Goes(s, s.(streams := s.streams[id := d]), id, d.out)
  {
  }

  lemma GoesOn(s: Conn, t: Conn, r: Conn, id: nat, out: Out)
    requires id in t.streams && Goes(s, t, id, t.streams[id].out) && Goes(t, r, id, out)
    ensures Goes(s, r, id, out)
  {
  }

  lemma RespondGoes(s: Conn, id: nat)
    requires id in s.streams
    ensures Goes(s, Respond(s, id), id, s.streams[id].out)
  {
    hide OnStreamClosed;
    var c := s.streams[id];
    ClosedKept(s.(total := s.total + 1, cycles := s.cycles - {id}, streams := s.streams[id := c.(onResponse := false)]),
               id);
  }

  lemma FinishGoes(s: Conn, id: nat)
    requires id in s.streams
    ensures Goes(s, Finish(s, id), id, s.streams[id].out) && Finish(s, id).streams[id].phase == Ended
  {
    hide Respond;
    RespondGoes(s, id);
  }

  lemma AppSendsGoes(s: Conn, id: nat, m: Message)
    requires id in s.streams
    ensures var c := s.streams[id];
            Goes(s, AppSends(s, id, m), id, if c.disconnected then c.out else Send(c.out, m).out)
  {
    hide Respond, Send, Goes;
    var c := s.streams[id];
    if c.disconnected {
      assert Goes(s, s, id, c.out) by { GoesNowhere(s, id); }
    } else {
      var r := Send(c.out, m);
      var done := r.out.complete && !r.raised;
      var t := s.(streams := s.streams[id := c.(out := r.out, eventSet := c.eventSet || done)]);
      PutGoes(s, id, t.streams[id]);
      RespondGoes(t, id);
      GoesOn(s, t, Respond(t, id), id, r.out);
    }
  }

  lemma GoesNowhere(s: Conn, id: nat)
    requires id in s.streams
    ensures Goes(s, s, id, s.streams[id].out)
  {
  }

  lemma AppEndsGoes(s: Conn, id: nat, how: Outcome)
    requires InPhase(s, id, Running)
    ensures var c, t := s.streams[id], AppEnds(s, id, how);
            if Aborts(s.closing, c.disconnected, c.out.started, c.out.complete, how) then
              Goes(s, t, id, c.out.(calls := c.out.calls + [Reset])) && t.streams[id].phase == Ended
            else Goes(s, t, id, c.out)
  {
    hide Finish;
    FinishGoes(s, id);
    FinishGoes(AbortStream(s, id), id);
    if s.closing {} else {}
  }

  lemma TaskGoes(s: Conn, e: Event, id: nat)
    requires Enabled(s, e) && id in s.streams && About(e, id)
    requires e.AppSent? || e.AppEnded? || e.Sends500? || e.Ends500?
    ensures Goes(s, Step(s, e), id, NextOut(s, e, id))
    ensures Resets(s, e, id) ==> Step(s, e).streams[id].phase == Ended
  {
    hide AppSends, AppEnds, Finish, SendRaises, Send, Aborts;
    match e {
      case AppSent(k, m) => AppSendsGoes(s, id, m);
      case AppEnded(k, how) => AppEndsGoes(s, id, how);
      case Sends500(k) =>
        AppSendsGoes(s, id, START_500);
        var s1 := AppSends(s, id, START_500);
        FinishGoes(s1, id);
      case Ends500(k) =>
        AppSendsGoes(s, id, BODY_500);
        FinishGoes(AppSends(s, id, BODY_500), id);
    }
  }

  lemma QuietGoes(s: Conn, e: Event, id: nat)
    requires Enabled(s, e) && id in s.streams && About(e, id)
    requires !e.AppSent? && !e.AppEnded? && !e.Sends500? && !e.Ends500? && !e.DataReceived?
    ensures Goes(s, Step(s, e), id, NextOut(s, e, id)) && !Resets(s, e, id)
  {
    hide ResumeIfIdle, FreshIds;
    if e.ReceiveBegins? {
      RestedStreams(s.(streams := s.streams[id := s.streams[id].(receiving := true)]));
    } else if e.ReceiveEnds? {
    } else if e.ConnectionLost? {
    } else {
    }
  }

  lemma RestedStreams(s: Conn)
    ensures ResumeIfIdle(s).streams == s.streams
  {
    hide Overfull;
  }

  lemma NotAbout(s: Conn, e: Event, id: nat)
    requires id in s.streams && !About(e, id)
    ensures MessageOn(e, id).None? && !Resets(s, e, id) && NextOut(s, e, id) == s.streams[id].out
  {
  }

  lemma StepGoes(s: Conn, e: Event, id: nat)
    requires Enabled(s, e) && id in s.streams && !e.DataReceived?
    ensures Goes(s, Step(s, e), id, NextOut(s, e, id))
    ensures Resets(s, e, id) ==> Step(s, e).streams[id].phase == Ended
  {
    hide Step, Enabled, Send, Aborts;
    if !About(e, id) {
      SiblingsSurvive(s, e, id);
      NotAbout(s, e, id);
    } else if e.AppSent? || e.AppEnded? || e.Sends500? || e.Ends500? {
      TaskGoes(s, e, id);
    } else {
      QuietGoes(s, e, id);
    }
  }

  // ---------- runs ----------

  /** The request of stream `id`, from the frames of a read. */
  function AskedIn(q: Option<Asked>, frames: seq<Frame>, id: nat): Option<Asked>
    decreases |frames|
  {
    if frames == [] then q else AskedIn(AskedBy(q, frames[0], id), frames[1..], id)
  }

  function AskedBy(q: Option<Asked>, f: Frame, id: nat): Option<Asked> {
    if f.Request? && f.id == id then Some(Asked(f.defaults, f.isHead, f.wantsTrailers)) else q
  }

  function Asks(q: Option<Asked>, es: seq<Event>, id: nat): Option<Asked>
    decreases |es|
  {
    if es == [] then q else Asks(if es[0].DataReceived? then AskedIn(q, es[0].frames, id) else q, es[1..], id)
  }

  /** What an event adds to the answer on stream `id`. */
  function Adds(s: Conn, e: Event, id: nat, q: Option<Asked>, a: Answer): Answer {
    if id !in s.streams || q.None? then a
    else
      var c, m := s.streams[id], MessageOn(e, id);
      if m.Some? then if c.disconnected then a else Tell(q.value, a, m.value)
      else if e.AppEnded? && e.id == id && Aborts(s.closing, c.disconnected, a.opening.Some?, a.done, e.how) then
        a.(reset := true)
      else a
  }

  /** The answer on stream `id` after a run, told from the messages sent on it while it was connected. */
  ghost function Answers(s: Conn, es: seq<Event>, id: nat, q: Option<Asked>, a: Answer): Answer
    requires Runs(s, es)
    decreases |es|
  {
    if es == [] then a
    else Answers(Step(s, es[0]), es[1..], id, if es[0].DataReceived? then AskedIn(q, es[0].frames, id) else q,
                 Adds(s, es[0], id, q, a))
  }

  predicate RecordedAt(s: Conn, id: nat, q: Option<Asked>, a: Answer) {
    if id in s.streams then
      q.Some? && Sends(s.streams[id].out, q.value, a) && (a.reset ==> s.streams[id].phase == Ended)
    else q.None? && a == BLANK
  }

  lemma NewSends(defaults: Headers, isHead: bool, wantsTrailers: bool)
    ensures Sends(NewOut(defaults, isHead, wantsTrailers), Asked(defaults, isHead, wantsTrailers), BLANK)
  {
    hide Bodyless, Length, Forbidden;
  }

  lemma FrameGoes(s: Conn, f: Frame, id: nat)
    requires id in s.streams && (f.Request? ==> f.id != id)
    ensures Goes(s, Handle(s, f), id, s.streams[id].out)
  {
    hide NewOut, OnStreamClosed, Flow.Pause;
    if f.RstStream? && f.id in s.cycles && f.id in s.streams {
      var c := s.streams[f.id];
      var live := !c.out.complete;
      var d := c.(peerReset := true, disconnected := c.disconnected || live, eventSet := c.eventSet || live);
      ClosedKept(s.(cycles := s.cycles - {f.id}, streams := s.streams[f.id := d]), id);
    }
  }

  lemma FrameRecords(s: Conn, f: Frame, id: nat, q: Option<Asked>, a: Answer)
    requires RecordedAt(s, id, q, a) && (f.Request? ==> f.id !in s.streams)
    ensures RecordedAt(Handle(s, f), id, AskedBy(q, f, id), a)
  {
    hide Sends, NewOut;
    if id in s.streams {
      FrameGoes(s, f, id);
      hide Handle;
    } else if f.Request? && f.id == id {
      NewSends(f.defaults, f.isHead, f.wantsTrailers);
    } else {
      FrameKeys(s, f);
      hide Handle;
    }
  }

  lemma {:induction false} FramesRecord(s: Conn, frames: seq<Frame>, id: nat, q: Option<Asked>, a: Answer)
    requires RecordedAt(s, id, q, a) && FreshIds(s.streams.Keys, frames)
    ensures RecordedAt(HandleAll(s, frames), id, AskedIn(q, frames, id), a)
    decreases |frames|
  {
    if frames != [] {
      FreshTail(s.streams.Keys, frames);
      FrameRecords(s, frames[0], id, q, a);
      FrameKeys(s, frames[0]);
      hide Handle, RecordedAt, FreshIds, AskedBy;
      FramesRecord(Handle(s, frames[0]), frames[1..], id, AskedBy(q, frames[0], id), a);
    }
  }

  lemma ReadRecords(s: Conn, e: Event, id: nat, q: Option<Asked>, a: Answer)
    requires Enabled(s, e) && e.DataReceived? && RecordedAt(s, id, q, a)
    ensures RecordedAt(Step(s, e), id, AskedIn(q, e.frames, id), a)
  {
    hide HandleAll, FreshIds, Sends, AskedIn;
    FramesRecord(s.(timer := NoTimer), e.frames, id, q, a);
  }

  lemma OutRecords(s: Conn, e: Event, id: nat, q: Asked, a: Answer)
    requires Enabled(s, e) && id in s.streams && !e.DataReceived? && (a.reset ==> s.streams[id].phase == Ended)
    requires Sends(s.streams[id].out, q, a)
    ensures Sends(NextOut(s, e, id), q, Adds(s, e, id, Some(q), a))
    ensures Adds(s, e, id, Some(q), a).reset ==> a.reset || Resets(s, e, id)
  {
    hide Sends, Send, Tell, Raises;
    var c, m := s.streams[id], MessageOn(e, id);
    if c.phase == Ended { NothingAfterReset(s, e, id); }
    hide Enabled;
    if m.Some? {
      if !c.disconnected { MessageTold(c.out, q, a, m.value); }
    } else {
      StageOf(c.out, q, a);
      if Resets(s, e, id) { ResetTold(c.out, q, a); }
    }
  }

  /** A task that has ended neither sends nor ends again. */
  lemma NothingAfterReset(s: Conn, e: Event, id: nat)
    requires Enabled(s, e) && id in s.streams && s.streams[id].phase == Ended
    ensures MessageOn(e, id).None? && !Resets(s, e, id)
  {
    hide FreshIds;
  }

  lemma StageOf(o: Out, q: Asked, a: Answer)
    requires Sends(o, q, a)
    ensures o.started == a.opening.Some? && o.complete == a.done
  {
    hide Bodyless, Length, NoConnectionFields, CallsOf;
  }

  lemma ResetTold(o: Out, q: Asked, a: Answer)
    requires Sends(o, q, a) && !a.reset
    ensures Sends(o.(calls := o.calls + [Reset]), q, a.(reset := true))
  {
    hide Bodyless, Length, NoConnectionFields, Hints, Opening, DataCalls;
    var front := Hints(a.hints) + Opening(q, a.opening) + DataCalls(a.bodies);
    var end := if a.done then [EndMessage(a.trailers)] else [];
    assert front + (end + []) + [Reset] == front + (end + [Reset]);
  }

  lemma NoNewStream(s: Conn, e: Event, id: nat)
    requires Inv(s) && Enabled(s, e) && id !in s.streams && !e.DataReceived?
    ensures id !in Step(s, e).streams
  {
    hide Step, Inv, FreshIds;
    OtherStepKept(s, e, id);
  }

  lemma StepRecords(s: Conn, e: Event, id: nat, q: Option<Asked>, a: Answer)
    requires Inv(s) && Enabled(s, e) && RecordedAt(s, id, q, a)
    ensures RecordedAt(Step(s, e), id, if e.DataReceived? then AskedIn(q, e.frames, id) else q, Adds(s, e, id, q, a))
  {
    hide Inv, Enabled, Step, Sends, NextOut, Tell, Resets, Aborts;
    if e.DataReceived? {
      ReadRecords(s, e, id, q, a);
    } else if id in s.streams {
      StepGoes(s, e, id);
      OutRecords(s, e, id, q.value, a);
    } else {
      NoNewStream(s, e, id);
    }
  }

  lemma {:induction false} RunRecords(s: Conn, es: seq<Event>, id: nat, q: Option<Asked>, a: Answer)
    requires Inv(s) && Rested(s) && Runs(s, es) && RecordedAt(s, id, q, a)
    ensures RecordedAt(Run(s, es), id, Asks(q, es, id), Answers(s, es, id, q, a))
    decreases |es|
  {
    hide Inv, Rested, Enabled, Step, RecordedAt, Adds, AskedIn;
    if es != [] {
      var e := es[0];
      StepRecords(s, e, id, q, a);
      StepKeepsInv(s, e);
      var asked := if e.DataReceived? then AskedIn(q, e.frames, id) else q;
      RunRecords(Step(s, e), es[1..], id, asked, Adds(s, e, id, q, a));
    }
  }

  /** After any run a stream belongs to a request of the peer, and the calls it has made are exactly those of the answer
      that its application has sent: its hints, its accepted start message with the headers that may be passed on, the
      bodies taken, the end with the trailers, and the reset. */
  lemma CallsAreThoseSent(es: seq<Event>, id: nat)
    requires Runs(FRESH, es) && id in Run(FRESH, es).streams
    ensures var o, q, a := Run(FRESH, es).streams[id].out, Asks(None, es, id), Answers(FRESH, es, id, None, BLANK);
            && q.Some? && AskedOf(o) == q.value
            && o.calls == CallsOf(q.value, a)
            && o.bodies == a.bodies && (o.complete <==> a.done)
  {
    hide Inv, Rested, Runs, Run, Answers, CallsOf;
    FreshOk();
    assert RecordedAt(FRESH, id, None, BLANK);
    RunRecords(FRESH, es, id, None, BLANK);
  }

  /** Nothing that concerns the connection is passed on, in a response's headers or trailers. */
  lemma NothingForbiddenIsPassedOn(es: seq<Event>, id: nat)
    requires Runs(FRESH, es) && id in Run(FRESH, es).streams
    ensures forall i :: 0 <= i < |Run(FRESH, es).streams[id].out.calls| ==>
              var call := Run(FRESH, es).streams[id].out.calls[i];
              && (call.SendResponse? ==> NoConnectionFields(call.headers))
              && (call.EndMessage? ==> NoConnectionFields(call.trailers))
  {
    hide Inv, Rested, Runs, Run, Answers;
    FreshOk();
    assert RecordedAt(FRESH, id, None, BLANK);
    RunRecords(FRESH, es, id, None, BLANK);
    AllowedCalls(Asks(None, es, id).value, Answers(FRESH, es, id, None, BLANK));
  }

  predicate Allowed(call: Call) {
    && (call.SendResponse? ==> NoConnectionFields(call.headers))
    && (call.EndMessage? ==> NoConnectionFields(call.trailers))
  }

  lemma {:induction false} AllowedData(bodies: seq<Bytes>)
    ensures forall i :: 0 <= i < |DataCalls(bodies)| ==> DataCalls(bodies)[i].SendData?
  {
    if bodies != [] { AllowedData(bodies[..|bodies| - 1]); }
  }

  lemma AllowedCalls(q: Asked, a: Answer)
    requires NoConnectionFields(a.trailers)
    ensures forall i :: 0 <= i < |CallsOf(q, a)| ==> Allowed(CallsOf(q, a)[i])
  {
    hide NoConnectionFields, Refused, HeadersOf, DataCalls;
    AllowedData(a.bodies);
    if Opening(q, a.opening) != [] { HeadersAreAllowed(q.defaults + a.opening.value.headers); }
  }
}
