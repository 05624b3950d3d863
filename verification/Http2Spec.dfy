/** The HTTP/2 connection of zttp_h2_impl.py as a state machine on values: the map of live streams, the calls
    each stream makes on the library, the shutdown drain, the keep-alive timer and read backpressure. */
module Http2Spec {
  import opened Text
  import Flow

  // ---------- one stream ----------

  /** Calls on `zttp.Stream`. */
  datatype Call =
    | SendInformational(links: seq<Bytes>)
    | SendResponse(status: nat, headers: seq<(Bytes, Bytes)>)
    | SendData(data: Bytes)
    | EndMessage(trailers: seq<(Bytes, Bytes)>)
    | Reset

  datatype Message =
    | EarlyHint(links: seq<Bytes>)
    | ResponseStart(status: nat, headers: seq<(Bytes, Bytes)>, trailers: bool)
    | ResponseBody(body: Bytes, more: bool)
    | ResponseTrailers(headers: seq<(Bytes, Bytes)>, more: bool)
    | OtherMessage

  /** The response side of a stream. */
  datatype Out = Out(
    defaults: seq<(Bytes, Bytes)>, isHead: bool, wantsTrailers: bool,
    started: bool, complete: bool, bodyComplete: bool, trailersExpected: bool, trailers: seq<(Bytes, Bytes)>,
    bodyless: bool, remaining: Option<int>,
    calls: seq<Call>, bodies: seq<Bytes>, declared: Option<int>)  // history: calls, accepted bodies, length

  function NewOut(defaults: seq<(Bytes, Bytes)>, isHead: bool, wantsTrailers: bool): Out {
    Out(defaults, isHead, wantsTrailers, false, false, false, false, [], false, None, [], [], None)
  }

  datatype Sent = Sent(out: Out, raised: bool)

  /** The content-length headers, in order, until one is not a number: the last number, and whether one was not. */
  function LastLength(hs: seq<(Bytes, Bytes)>): (Option<int>, bool) {
    if hs == [] then (None, false)
    else
      var (n, failed) := LastLength(hs[..|hs| - 1]);
      var h := hs[|hs| - 1];
      if failed || Lower(h.0) != "content-length" then (n, failed)
      else
        match PyInt(h.1)
        case None => (n, true)
        case Some(v) => (Some(v), false)
  }

  /** FORBIDDEN_HEADERS */
  predicate Forbidden(name: Bytes) {
    name in {"connection", "keep-alive", "proxy-connection", "transfer-encoding", "upgrade"}
  }

  predicate Forwarded(name: Bytes, value: Bytes) {
    !Forbidden(name) && (name == "te" ==> Strip(Lower(value), IsSpace) == "trailers")
  }

  /** The headers that the start message's loop passes on. */
  function HeadersOf(hs: seq<(Bytes, Bytes)>): seq<(Bytes, Bytes)> {
    if hs == [] then []
    else
      var name, value := Lower(hs[|hs| - 1].0), hs[|hs| - 1].1;
      HeadersOf(hs[..|hs| - 1]) + if Forwarded(name, value) then [(name, value)] else []
  }

  function ResponseTo(m: Message, defaults: seq<(Bytes, Bytes)>): Call
    requires m.ResponseStart?
  {
    SendResponse(m.status, HeadersOf(defaults + m.headers))
  }

  function SendStart(c: Out, m: Message): Sent
    requires m.ResponseStart?
  {
    var (length, failed) := LastLength(c.defaults + m.headers);
    if failed then
      Sent(c.(started := true, trailersExpected := m.trailers, remaining := length), true)
    else
      var bodyless := c.isHead || m.status == 204 || m.status == 304 || m.status < 200;
      var declared := if bodyless then None else length;
      Sent(c.(started := true, trailersExpected := m.trailers, bodyless := bodyless, remaining := declared,
              declared := declared, calls := c.calls + [ResponseTo(m, c.defaults)]), false)
  }

  function SendBody(c: Out, data: Bytes, more: bool): Sent {
    var body := if c.bodyless then "" else data;
    if !c.bodyless && c.remaining.Some? && |body| > c.remaining.value then Sent(c, true)
    else
      var remaining := if !c.bodyless && c.remaining.Some? then Some(c.remaining.value - |body|) else c.remaining;
      var short := !more && remaining.Some? && remaining.value != 0;
      var last := !more && !short;
      var done := last && !c.trailersExpected;
      var written := if body == "" then [] else [SendData(body)];
      Sent(c.(remaining := remaining, bodies := c.bodies + [body], bodyComplete := last, complete := done,
              calls := c.calls + written + (if done then [EndMessage([])] else [])), short)
  }

  predicate Dropped(name: Bytes) { Forbidden(name) || name == "te" }

  /** The trailers loop: the trailers gathered, and whether a pseudo header stopped it. */
  function Gather(hs: seq<(Bytes, Bytes)>, wanted: bool): (seq<(Bytes, Bytes)>, bool) {
    if hs == [] then ([], false)
    else
      var name := Lower(hs[0].0);
      if name != "" && name[0] == ':' then ([], true)
      else
        var (rest, failed) := Gather(hs[1..], wanted);
        (if Dropped(name) || !wanted then rest else [(name, hs[0].1)] + rest, failed)
  }

  function SendTrailers(c: Out, hs: seq<(Bytes, Bytes)>, more: bool): Sent {
    var (gathered, failed) := Gather(hs, c.wantsTrailers);
    var trailers := c.trailers + gathered;
    var done := !failed && !more;
    Sent(c.(trailers := trailers, complete := done,
            calls := c.calls + (if done then [EndMessage(trailers)] else [])), failed)
  }

  /** `send` on a connected stream, up to the call of `on_response`. */
  function Send(c: Out, m: Message): Sent {
    if m.EarlyHint? && !c.started then Sent(c.(calls := c.calls + [SendInformational(m.links)]), false)
    else if !c.started then if m.ResponseStart? then SendStart(c, m) else Sent(c, true)
    else if !c.bodyComplete then if m.ResponseBody? then SendBody(c, m.body, m.more) else Sent(c, true)
    else if !c.complete then if m.ResponseTrailers? then SendTrailers(c, m.headers, m.more) else Sent(c, true)
    else Sent(c, true)
  }

  const START_500 := ResponseStart(500, [("content-type", "text/plain; charset=utf-8")], false)
  const BODY_500 := ResponseBody("Internal Server Error", false)

  // ---------- the connection ----------

  datatype Phase = Running | Starting500 | Finishing500 | Ended

  datatype Cycle = Cycle(
    out: Out,
    disconnected: bool, body: Bytes, moreBody: bool, eventSet: bool, onResponse: bool,
    phase: Phase, receiving: bool,
    peerReset: bool)  // history: the peer has reset the stream

  function NewCycle(out: Out): Cycle { Cycle(out, false, "", true, false, true, Running, false, false) }

  datatype Timer = NoTimer | Armed | Fired

  datatype Conn = Conn(
    streams: map<nat, Cycle>,  // every stream there has been, by its id
    cycles: set<nat>,          // the keys of `self.cycles`
    closing: bool, shutdownRequested: bool, timer: Timer, flow: Flow.Reads,
    total: nat, hasRead: bool)

  const FRESH := Conn(map[], {}, false, false, NoTimer, Flow.READING, 0, false)

  predicate Overfull(s: Conn, id: nat) {
    id in s.streams && |s.streams[id].body| > Flow.HIGH_WATER_LIMIT
  }

  function ResumeIfIdle(s: Conn): Conn {
    if exists id :: id in s.cycles && Overfull(s, id) then s else s.(flow := Flow.Resume(s.flow))
  }

  function CloseConnection(s: Conn): Conn { s.(closing := true) }

  function OnStreamClosed(s: Conn): Conn {
    if s.closing then s
    else
      var s1 := ResumeIfIdle(s);
      if s.cycles != {} then s1.(timer := NoTimer)
      else if s.shutdownRequested then CloseConnection(s1.(timer := NoTimer))
      else s1.(timer := Armed)
  }

  /** `on_response`, if it has not been replaced by a no-op yet. */
  function Respond(s: Conn, id: nat): Conn
    requires id in s.streams
  {
    var c := s.streams[id];
    if !c.onResponse then s
    else OnStreamClosed(s.(total := s.total + 1, cycles := s.cycles - {id},
                           streams := s.streams[id := c.(onResponse := false)]))
  }

  datatype Frame =
    | Request(id: nat, isHead: bool, wantsTrailers: bool, defaults: seq<(Bytes, Bytes)>)
    | Data(id: nat, data: Bytes)
    | EndOfMessage(id: nat)
    | RstStream(id: nat)
    | GoAway
    | OtherFrame

  predicate Live(s: Conn, id: nat) { id in s.cycles && id in s.streams && !s.streams[id].out.complete }

  function HandleRst(s: Conn, id: nat): Conn {
    if id !in s.cycles || id !in s.streams then s
    else
      var c := s.streams[id];
      var live := !c.out.complete;
      var d := c.(peerReset := true, disconnected := c.disconnected || live, eventSet := c.eventSet || live);
      OnStreamClosed(s.(cycles := s.cycles - {id}, streams := s.streams[id := d]))
  }

  function Handle(s: Conn, f: Frame): Conn {
    match f
    case Request(id, isHead, wantsTrailers, defaults) =>
      s.(streams := s.streams[id := NewCycle(NewOut(defaults, isHead, wantsTrailers))], cycles := s.cycles + {id})
    case Data(id, data) =>
      if !Live(s, id) then s
      else
        var c := s.streams[id];
        var body := c.body + data;
        s.(streams := s.streams[id := c.(body := body, eventSet := true)],
           flow := if |body| > Flow.HIGH_WATER_LIMIT then Flow.Pause(s.flow) else s.flow)
    case EndOfMessage(id) =>
      if !Live(s, id) then s
      else s.(streams := s.streams[id := s.streams[id].(moreBody := false, eventSet := true)])
    case RstStream(id) => HandleRst(s, id)
    case GoAway =>
      var s1 := s.(shutdownRequested := true);
      if s.cycles == {} then CloseConnection(s1) else s1
    case OtherFrame => s
  }

  function HandleAll(s: Conn, frames: seq<Frame>): Conn
    decreases |frames|
  {
    if frames == [] then s else HandleAll(Handle(s, frames[0]), frames[1..])
  }

  /** `data_received`; `broken`: the library raised a protocol error after these frames. */
  function Feed(s: Conn, frames: seq<Frame>, broken: bool): Conn {
    var s1 := HandleAll(s.(timer := NoTimer), frames).(hasRead := true);
    if broken then s1.(closing := true)
    else if s1.cycles == {} && s1.timer == NoTimer && !s1.closing then s1.(timer := Armed)
    else s1
  }

  function AppSends(s: Conn, id: nat, m: Message): Conn
    requires id in s.streams
  {
    var c := s.streams[id];
    if c.disconnected then s
    else
      var r := Send(c.out, m);
      var done := r.out.complete && !r.raised;
      var s1 := s.(streams := s.streams[id := c.(out := r.out, eventSet := c.eventSet || done)]);
      if done then Respond(s1, id) else s1
  }

  function SendRaises(s: Conn, id: nat, m: Message): bool
    requires id in s.streams
  {
    !s.streams[id].disconnected && Send(s.streams[id].out, m).raised
  }

  function AbortStream(s: Conn, id: nat): Conn
    requires id in s.streams
  {
    var c := s.streams[id];
    if s.closing then s
    else s.(streams := s.streams[id := c.(out := c.out.(calls := c.out.calls + [Reset]), disconnected := true)])
  }

  /** The `finally` of `run_asgi`. */
  function Finish(s: Conn, id: nat): Conn
    requires id in s.streams
  {
    var s1 := Respond(s, id);
    if id in s1.streams then s1.(streams := s1.streams[id := s1.streams[id].(phase := Ended)]) else s1
  }

  datatype Outcome = Raised | ReturnedValue | ReturnedNone

  function AppEnds(s: Conn, id: nat, how: Outcome): Conn
    requires id in s.streams
  {
    var c := s.streams[id];
    if (how == Raised && !c.out.started) || (how == ReturnedNone && !c.out.started && !c.disconnected) then
      s.(streams := s.streams[id := c.(phase := Starting500)])
    else if how == ReturnedNone && (c.out.complete || c.disconnected) then Finish(s, id)
    else Finish(AbortStream(s, id), id)
  }

  function ReceiveBegin(s: Conn, id: nat): Conn
    requires id in s.streams
  {
    var c := s.streams[id];
    if c.disconnected || c.out.complete then s
    else ResumeIfIdle(s.(streams := s.streams[id := c.(receiving := true)]))
  }

  function ReceiveEnd(s: Conn, id: nat): Conn
    requires id in s.streams
  {
    var c := s.streams[id];
    s.(streams := s.streams[id := c.(eventSet := false, receiving := false,
                                     body := if c.disconnected || c.out.complete then c.body else "")])
  }

  function DoShutdown(s: Conn): Conn {
    var s1 := s.(shutdownRequested := true);
    if s.cycles == {} then CloseConnection(s1) else s1
  }

  function Lost(c: Cycle): Cycle { c.(disconnected := c.disconnected || !c.out.complete, eventSet := true) }

  function Lose(s: Conn): Conn {
    s.(closing := true, timer := NoTimer,
       streams := map id | id in s.streams :: if id in s.cycles then Lost(s.streams[id]) else s.streams[id])
  }

  datatype Event =
    | DataReceived(frames: seq<Frame>, broken: bool)
    | ReceiveBegins(id: nat)
    | ReceiveEnds(id: nat)
    | AppSent(id: nat, message: Message)
    | AppEnded(id: nat, how: Outcome)
    | Sends500(id: nat)
    | Ends500(id: nat)
    | TimerFires
    | Shutdown
    | ConnectionLost

  /** Stream ids are never used twice (section 5.1.1 of RFC 9113). */
  predicate FreshIds(used: set<nat>, frames: seq<Frame>)
    decreases |frames|
  {
    frames == [] ||
    if frames[0].Request? then frames[0].id !in used && FreshIds(used + {frames[0].id}, frames[1..])
    else FreshIds(used, frames[1..])
  }

  predicate InPhase(s: Conn, id: nat, p: Phase) { id in s.streams && s.streams[id].phase == p }

  predicate Enabled(s: Conn, e: Event) {
    match e
    case DataReceived(frames, _) => !s.closing && !s.flow.paused && FreshIds(s.streams.Keys, frames)
    case ReceiveBegins(id) => InPhase(s, id, Running) && !s.streams[id].receiving
    case ReceiveEnds(id) => InPhase(s, id, Running) && s.streams[id].receiving && s.streams[id].eventSet
    case AppSent(id, _) => InPhase(s, id, Running)
    case AppEnded(id, _) => InPhase(s, id, Running)
    case Sends500(id) => InPhase(s, id, Starting500)
    case Ends500(id) => InPhase(s, id, Finishing500)
    case TimerFires => s.timer == Armed
    case Shutdown => true
    case ConnectionLost => true
  }

  function Step(s: Conn, e: Event): Conn
    requires Enabled(s, e)
  {
    match e
    case DataReceived(frames, broken) => Feed(s, frames, broken)
    case ReceiveBegins(id) => ReceiveBegin(s, id)
    case ReceiveEnds(id) => ReceiveEnd(s, id)
    case AppSent(id, m) => AppSends(s, id, m)
    case AppEnded(id, how) => AppEnds(s, id, how)
    case Sends500(id) =>
      var s1 := AppSends(s, id, START_500);
      if id !in s1.streams then s1
      else if SendRaises(s, id, START_500) then Finish(s1, id)
      else s1.(streams := s1.streams[id := s1.streams[id].(phase := Finishing500)])
    case Ends500(id) =>
      var s1 := AppSends(s, id, BODY_500);
      if id in s1.streams then Finish(s1, id) else s1
    case TimerFires => CloseConnection(s.(timer := Fired))
    case Shutdown => DoShutdown(s)
    case ConnectionLost => Lose(s)
  }
}
