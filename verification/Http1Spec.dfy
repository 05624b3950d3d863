/** The HTTP/1.1 connection of httptools_impl.py as a state machine on values: a FIFO of
    request/response cycles, the bytes each one writes, and the keep-alive timer.
    One function per piece of code that runs between two `await`s. */
module Http1Spec {
  import opened Text
  import opened Http1Wire
  import Flow

  // ---------- the start of a response ----------

  datatype Message =
    | ResponseStart(status: nat, reason: Bytes, headers: seq<Field>)  // `reason` is the phrase looked up for the status
    | ResponseBody(body: Bytes, more: bool)
    | OtherMessage

  /** HEADER_RE */
  predicate NameChar(c: char) { c > '\U{1f}' && c != '\U{7f}' && c !in "()<>@,;:[]={} \\\"" }

  /** HEADER_VALUE_RE */
  predicate ValueChar(c: char) { c == '\t' || (c > '\U{1f}' && c != '\U{7f}') }

  predicate ValidField(f: Field) {
    && (forall i :: 0 <= i < |f.name| ==> NameChar(f.name[i]))
    && (forall i :: 0 <= i < |f.value| ==> ValueChar(f.value[i]))
  }

  predicate HasToken(value: Bytes, token: Bytes) {
    var parts := Split(value, ',');
    exists i :: 0 <= i < |parts| && Strip(Lower(parts[i]), IsSpace) == token
  }

  /** Locals and fields that the header loop of `send` updates. */
  datatype Scan = Scan(chunked: Option<bool>, remaining: int, keepAlive: bool, closeSeen: bool,
                       fields: seq<Field>, failed: bool)

  function ScanField(sc: Scan, h: Field): Scan {
    var name := Lower(h.name);
    var next := sc.(fields := sc.fields + [Field(name, h.value)]);
    if sc.failed then sc
    else if !ValidField(h) then sc.(failed := true)
    else if name == "content-length" && sc.chunked.None? then
      match PyInt(h.value)
      case None => sc.(failed := true)
      case Some(n) => next.(remaining := n, chunked := Some(false))
    else if name == "transfer-encoding" && Lower(h.value) == "chunked" then
      next.(remaining := 0, chunked := Some(true))
    else if name == "connection" && HasToken(h.value, "close") then
      next.(keepAlive := false, closeSeen := true)
    else next
  }

  function ScanFields(sc: Scan, hs: seq<Field>): Scan {
    if hs == [] then sc else ScanField(ScanFields(sc, hs[..|hs| - 1]), hs[|hs| - 1])
  }

  const CLOSE_FIELD := Field("connection", "close")
  const CHUNKED_FIELD := Field("transfer-encoding", "chunked")

  /** Neither framing header given, and the response may have a body. */
  predicate DefaultsToChunked(isHead: bool, status: nat, sc: Scan) {
    sc.chunked.None? && !isHead && status != 204 && status != 304
  }

  function HeadFields(isHead: bool, status: nat, sc: Scan): seq<Field> {
    sc.fields
    + (if !sc.keepAlive && !sc.closeSeen then [CLOSE_FIELD] else [])
    + (if DefaultsToChunked(isHead, status, sc) then [CHUNKED_FIELD] else [])
  }

  // ---------- one request/response cycle ----------

  datatype Phase = Queued | Running | Starting500 | Finishing500 | Ended

  /** The accepted start message, the keep-alive flag it found, the framing it left behind
      and the bytes it wrote (history). */
  datatype Accepted = Accepted(status: nat, reason: Bytes, input: seq<Field>, keepAlive: bool,
                               chunked: Option<bool>, declared: int, head: Bytes)

  datatype Cycle = Cycle(
    defaults: seq<Field>, isHead: bool,
    keepAlive: bool, waiting100: bool, disconnected: bool,
    body: Bytes, moreBody: bool, eventSet: bool,
    started: bool, complete: bool, chunked: Option<bool>, remaining: int, onResponse: bool,
    phase: Phase, receiving: bool,
    // history: what the parser delivered, what `receive` returned, how often it said "no more body",
    // the accepted start and bodies, and every byte written for this cycle
    delivered: Bytes, returned: Bytes, finals: nat,
    accepted: Option<Accepted>, bodies: seq<Bytes>, continued: bool, wire: Bytes)

  function NewCycle(defaults: seq<Field>, isHead: bool, keepAlive: bool, expect100: bool): Cycle {
    Cycle(defaults, isHead, keepAlive, expect100, false, "", true, false,
          false, false, None, 0, true, Queued, false,
          "", "", 0, None, [], false, "")
  }

  /** Outcome of one `send`: the cycle, the bytes written, and whether it raised, closed the transport
      or called `on_response`. */
  datatype Sent = Sent(cycle: Cycle, wrote: Bytes, raised: bool, close: bool, respond: bool)

  function Raise(c: Cycle): Sent { Sent(c, "", true, false, false) }

  /** The rest of the start message, after the header loop has left `sc`. */
  function CommitStart(c: Cycle, status: nat, reason: Bytes, input: seq<Field>, sc: Scan): Sent {
    if sc.failed then
      Raise(c.(started := true, waiting100 := false,
               chunked := sc.chunked, remaining := sc.remaining, keepAlive := sc.keepAlive))
    else
      var head := Head(status, reason, HeadFields(c.isHead, status, sc));
      var chunked := if DefaultsToChunked(c.isHead, status, sc) then Some(true) else sc.chunked;
      var a := Accepted(status, reason, input, c.keepAlive, chunked, sc.remaining, head);
      Sent(c.(started := true, waiting100 := false, chunked := chunked, remaining := sc.remaining,
              keepAlive := sc.keepAlive, accepted := Some(a), wire := c.wire + head),
           head, false, false, false)
  }

  function SendStart(c: Cycle, status: nat, reason: Bytes, headers: seq<Field>): Sent {
    if status < 100 || status >= 600 then Raise(c.(started := true, waiting100 := false))
    else
      var input := c.defaults + headers;
      CommitStart(c, status, reason, input,
                  ScanFields(Scan(c.chunked, c.remaining, c.keepAlive, false, [], false), input))
  }

  function SendBody(c: Cycle, body: Bytes, more: bool): Sent {
    var chunked := c.chunked == Some(true);
    if !c.isHead && !chunked && |body| > c.remaining then Raise(c)
    else
      var wrote := if c.isHead then ""
                   else if chunked then Chunk(body) + (if more then "" else LAST_CHUNK)
                   else body;
      var remaining := if c.isHead then 0 else if chunked then c.remaining else c.remaining - |body|;
      var done := !more && remaining == 0;
      Sent(c.(remaining := remaining, bodies := c.bodies + [body], wire := c.wire + wrote,
              complete := done, eventSet := c.eventSet || done),
           wrote, !more && remaining != 0, done && !c.keepAlive, done && c.onResponse)
  }

  function Send(c: Cycle, m: Message): Sent {
    if c.disconnected then Sent(c, "", false, false, false)
    else if !c.started then
      if m.ResponseStart? then SendStart(c, m.status, m.reason, m.headers) else Raise(c)
    else if !c.complete then
      if m.ResponseBody? then SendBody(c, m.body, m.more) else Raise(c)
    else Raise(c)
  }

  const START_500 := ResponseStart(500, "Internal Server Error",
                                  [Field("content-type", "text/plain; charset=utf-8"),
                                   Field("content-length", "21"),
                                   Field("connection", "close")])
  const BODY_500 := ResponseBody("Internal Server Error", false)

  // ---------- the connection ----------

  datatype Timer = NoTimer | Armed | Fired

  datatype Conn = Conn(
    cycles: seq<Cycle>,             // every cycle ever made, in request order; the last one is `self.cycle`
    pipeline: seq<nat>,             // indices; appended on the left, taken from the right
    closing: bool, timer: Timer, flow: Flow.Reads, total: nat,
    parsing: bool,                  // the parser is inside a message
    launched: seq<nat>, wire: Bytes, shutdownAt: Option<nat>)  // history

  const FRESH := Conn([], [], false, NoTimer, Flow.READING, 0, false, [], "", None)

  function Launch(s: Conn, i: nat): Conn
    requires i < |s.cycles|
  {
    s.(cycles := s.cycles[i := s.cycles[i].(phase := Running)], launched := s.launched + [i])
  }

  datatype Callback =
    | HeadersComplete(isHead: bool, keepAlive: bool, expect100: bool, defaults: seq<Field>)
    | Body(data: Bytes)
    | MessageComplete

  function OnHeadersComplete(s: Conn, c: Cycle): Conn {
    var n := |s.cycles|;
    var s1 := s.(cycles := s.cycles + [c], parsing := true);
    if n == 0 || s.cycles[n - 1].complete then Launch(s1, n)
    else s1.(flow := Flow.Pause(s.flow), pipeline := [n] + s.pipeline)
  }

  function OnBody(s: Conn, data: Bytes): Conn
    requires s.cycles != []
  {
    var n := |s.cycles| - 1;
    var c := s.cycles[n].(delivered := s.cycles[n].delivered + data);
    if c.complete then s.(cycles := s.cycles[n := c])
    else
      var body := c.body + data;
      s.(cycles := s.cycles[n := c.(body := body, eventSet := true)],
         flow := if |body| > Flow.HIGH_WATER_LIMIT then Flow.Pause(s.flow) else s.flow)
  }

  function OnMessageComplete(s: Conn): Conn
    requires s.cycles != []
  {
    var n := |s.cycles| - 1;
    var c := s.cycles[n];
    var s1 := s.(parsing := false);
    if c.complete then s1 else s1.(cycles := s.cycles[n := c.(moreBody := false, eventSet := true)])
  }

  function OnCallback(s: Conn, cb: Callback): Conn
    requires cb.HeadersComplete? || s.cycles != []
  {
    match cb
    case HeadersComplete(isHead, keepAlive, expect100, defaults) =>
      OnHeadersComplete(s, NewCycle(defaults, isHead, keepAlive, expect100))
    case Body(data) => OnBody(s, data)
    case MessageComplete => OnMessageComplete(s)
  }

  /** The parser brackets each message: headers, then data, then the end. */
  predicate InOrder(parsing: bool, cbs: seq<Callback>)
    decreases |cbs|
  {
    cbs == [] ||
    (cbs[0].HeadersComplete? == !parsing && InOrder(!cbs[0].MessageComplete?, cbs[1..]))
  }

  function Feed(s: Conn, cbs: seq<Callback>): Conn
    requires InOrder(s.parsing, cbs) && (s.parsing ==> s.cycles != [])
    decreases |cbs|
  {
    if cbs == [] then s else Feed(OnCallback(s, cbs[0]), cbs[1..])
  }

  function OnResponseComplete(s: Conn): Conn
    requires forall i :: 0 <= i < |s.pipeline| ==> s.pipeline[i] < |s.cycles|
  {
    var s1 := s.(total := s.total + 1);
    if s.closing then s1
    else
      var s2 := s1.(timer := NoTimer, flow := Flow.Resume(s.flow));
      if s.pipeline != [] then
        var k := |s.pipeline| - 1;
        Launch(s2.(pipeline := s.pipeline[..k]), s.pipeline[k])
      else s2.(timer := Armed)
  }

  function AfterSend(s: Conn, i: nat, r: Sent): Conn
    requires i < |s.cycles| && forall j :: 0 <= j < |s.pipeline| ==> s.pipeline[j] < |s.cycles|
  {
    var s1 := s.(cycles := s.cycles[i := r.cycle], wire := s.wire + r.wrote, closing := s.closing || r.close);
    if r.respond then OnResponseComplete(s1) else s1
  }

  datatype Outcome = Raised | ReturnedValue | ReturnedNone

  /** `run_asgi` once the application has ended. */
  function AppEnds(s: Conn, i: nat, how: Outcome): Conn
    requires i < |s.cycles|
  {
    var c := s.cycles[i];
    if (how == Raised && !c.started) || (how == ReturnedNone && !c.started && !c.disconnected) then
      s.(cycles := s.cycles[i := c.(phase := Starting500)])
    else
      var ended := s.(cycles := s.cycles[i := c.(phase := Ended, onResponse := false)]);
      if how == ReturnedNone && (c.complete || c.disconnected) then ended else ended.(closing := true)
  }

  function End(s: Conn, i: nat): Conn
    requires i < |s.cycles|
  {
    s.(cycles := s.cycles[i := s.cycles[i].(phase := Ended, onResponse := false)])
  }

  datatype Event =
    | DataReceived(callbacks: seq<Callback>)
    | ReceiveBegins(i: nat)
    | ReceiveEnds(i: nat)
    | AppSends(i: nat, message: Message)
    | AppEnded(i: nat, how: Outcome)
    | Sends500(i: nat)
    | Ends500(i: nat)
    | TimerFires
    | Shutdown
    | ConnectionLost(clean: bool)

  /** What `receive` does to the cycle before it waits; `go`: it sends the interim response. */
  function Begun(c: Cycle, go: bool): Cycle {
    c.(waiting100 := c.waiting100 && !go, continued := c.continued || go,
       wire := c.wire + (if go then CONTINUE else ""),
       receiving := !c.disconnected && !c.complete)
  }

  function ReceiveBegin(s: Conn, i: nat): Conn
    requires i < |s.cycles|
  {
    var c := s.cycles[i];
    var go := c.waiting100 && !s.closing;
    s.(cycles := s.cycles[i := Begun(c, go)],
       wire := s.wire + (if go then CONTINUE else ""),
       flow := if !c.disconnected && !c.complete then Flow.Resume(s.flow) else s.flow)
  }

  /** What `receive` does to the cycle when it returns. */
  function Took(c: Cycle): Cycle {
    var d := c.(eventSet := false, receiving := false);
    if c.disconnected || c.complete then d
    else d.(body := "", returned := c.returned + c.body, finals := c.finals + if c.moreBody then 0 else 1)
  }

  function ReceiveEnd(s: Conn, i: nat): Conn
    requires i < |s.cycles|
  {
    s.(cycles := s.cycles[i := Took(s.cycles[i])])
  }

  function DoShutdown(s: Conn): Conn {
    var n := |s.cycles|;
    var s1 := s.(shutdownAt := if s.shutdownAt.None? then Some(n) else s.shutdownAt);
    if n == 0 || s.cycles[n - 1].complete then s1.(closing := true)
    else s1.(cycles := s.cycles[n - 1 := s.cycles[n - 1].(keepAlive := false)])
  }

  function Lose(s: Conn, clean: bool): Conn {
    var n := |s.cycles|;
    var s1 := s.(closing := true, timer := if clean then NoTimer else s.timer);
    if n == 0 then s1
    else
      var c := s.cycles[n - 1];
      s1.(cycles := s.cycles[n - 1 := c.(disconnected := c.disconnected || !c.complete, eventSet := true)])
  }

  /** What asyncio, the parser and the ASGI contract promise about when an event can occur. */
  predicate Enabled(s: Conn, e: Event) {
    match e
    case DataReceived(cbs) => !s.closing && !s.flow.paused && InOrder(s.parsing, cbs)
    case ReceiveBegins(i) => i < |s.cycles| && s.cycles[i].phase == Running && !s.cycles[i].receiving
    case ReceiveEnds(i) => i < |s.cycles| && s.cycles[i].phase == Running && s.cycles[i].receiving
        && s.cycles[i].eventSet
    case AppSends(i, m) => i < |s.cycles| && s.cycles[i].phase == Running && (m.ResponseStart? ==> OneLine(m.reason))
    case AppEnded(i, _) => i < |s.cycles| && s.cycles[i].phase == Running
    case Sends500(i) => i < |s.cycles| && s.cycles[i].phase == Starting500
    case Ends500(i) => i < |s.cycles| && s.cycles[i].phase == Finishing500
    case TimerFires => s.timer == Armed
    case Shutdown => true
    case ConnectionLost(_) => true
  }

  /** The bookkeeping that makes every step well defined. */
  predicate Shape(s: Conn) {
    && (forall j :: 0 <= j < |s.pipeline| ==> s.pipeline[j] < |s.cycles|)
    && (s.parsing ==> s.cycles != [])
  }

  function Step(s: Conn, e: Event): Conn
    requires Shape(s) && Enabled(s, e)
  {
    match e
    case DataReceived(cbs) => Feed(s.(timer := NoTimer), cbs)
    case ReceiveBegins(i) => ReceiveBegin(s, i)
    case ReceiveEnds(i) => ReceiveEnd(s, i)
    case AppSends(i, m) => AfterSend(s, i, Send(s.cycles[i], m))
    case AppEnded(i, how) => AppEnds(s, i, how)
    case Sends500(i) =>
      var r := Send(s.cycles[i], START_500);
      if r.raised then End(AfterSend(s, i, r), i)
      else AfterSend(s, i, r.(cycle := r.cycle.(phase := Finishing500)))
    case Ends500(i) => End(AfterSend(s, i, Send(s.cycles[i], BODY_500)), i)
    case TimerFires => s.(timer := Fired, closing := true)
    case Shutdown => DoShutdown(s)
    case ConnectionLost(clean) => Lose(s, clean)
  }
}
