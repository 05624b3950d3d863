/** A WebSocket connection as a state machine on values. The two implementations, on the sans-I/O core of
    `websockets` and on `wsproto`, are one machine; every place where they differ branches on `library`. */
module WebSocketSpec {
  import opened Text

  datatype Library = Sansio | Wsproto

  /** `keepalive`: a positive ping interval; `deadline`: a ping timeout; `maxSize`: the message size limit. */
  datatype Config = Config(library: Library, keepalive: bool, deadline: bool, maxSize: nat)

  // ---------- timers ----------

  datatype Kind = PingTimer | PongTimer | CloseTimer

  /** The stored handles, and the event loop's view: every handle neither fired nor cancelled, with its callback. */
  datatype Timers = Timers(ping: Option<nat>, pong: Option<nat>, close: Option<nat>, pending: Option<Bytes>,
                           live: map<nat, Kind>, next: nat)

  const NO_TIMERS := Timers(None, None, None, None, map[], 0)

  function SchedulePing(t: Timers): Timers {
    t.(ping := Some(t.next), live := t.live[t.next := PingTimer], next := t.next + 1)
  }

  function SchedulePong(t: Timers): Timers {
    t.(pong := Some(t.next), live := t.live[t.next := PongTimer], next := t.next + 1)
  }

  function ScheduleClose(t: Timers): Timers {
    t.(close := Some(t.next), live := t.live[t.next := CloseTimer], next := t.next + 1)
  }

  function Cancel(live: map<nat, Kind>, h: Option<nat>): map<nat, Kind> {
    if h.Some? then live - {h.value} else live
  }

  function StopKeepalive(t: Timers): Timers {
    t.(ping := None, pong := None, pending := None, live := Cancel(Cancel(t.live, t.ping), t.pong))
  }

  function CancelClose(t: Timers): Timers {
    t.(close := None, live := Cancel(t.live, t.close))
  }

  /** A pong that answers the ping in flight. */
  function Ponged(t: Timers): Timers {
    var t1 := t.(pending := None);
    if t.pong.None? then t1 else SchedulePing(t1.(pong := None, live := Cancel(t.live, t.pong)))
  }

  // ---------- the connection ----------

  /** What the application receives. A message is held as bytes, its text as UTF-8; `read` says which
      transport read completed it. */
  datatype AppEvent =
    | Connect
    | Receive(text: bool, data: Bytes, read: nat)
    | Disconnect(code: nat)

  datatype App = NotStarted | Running | Ended

  /** `log` is the history of everything ever queued. */
  datatype Inbox = Inbox(queue: seq<AppEvent>, log: seq<AppEvent>)

  /** The message being assembled. */
  datatype Partial = Partial(frames: seq<Bytes>, text: bool)

  /** History of the peer's side: whether it has asked for the handshake and sent a close frame,
      and how many reads there were. */
  datatype Peer = Peer(requested: bool, closed: bool, readCount: nat)

  /** What `send` writes on an open connection. */
  datatype Out = DataFrame(text: bool, data: Bytes) | CloseFrame(code: nat)

  /** `denial`: the application has started an HTTP response instead of accepting. `wrote` is the history of what its
      `send` has written since the handshake. */
  datatype Conn = Conn(
    inbox: Inbox, handshake: bool, closeSent: bool, denial: bool, disconnected: bool, closing: bool, readPaused: bool,
    timers: Timers, part: Partial, app: App, peer: Peer, wrote: seq<Out>)

  const FRESH := Conn(Inbox([], []), false, false, false, false, false, false, NO_TIMERS, Partial([], false),
                      NotStarted, Peer(false, false, 0), [])

  function Push(b: Inbox, e: AppEvent): Inbox { Inbox(b.queue + [e], b.log + [e]) }

  function Put(s: Conn, e: AppEvent): Conn { s.(inbox := Push(s.inbox, e)) }

  /** A message for the application; reads pause until it has taken everything. */
  function Deliver(s: Conn): Conn {
    Put(s, Receive(s.part.text, Concat(s.part.frames), s.peer.readCount)).(part := Partial([], s.part.text),
        readPaused := true)
  }

  /** The connection fails: the application is told, and no more messages are delivered. */
  function Fail(s: Conn, code: nat): Conn { Put(s, Disconnect(code)).(closeSent := true, closing := true) }

  // ---------- what the peer sends ----------

  /** `ok`: the library accepts the handshake. `first`: not a continuation. `decodes`: if this completes a text
      message, the message is UTF-8. */
  datatype Event =
    | Request(ok: bool)
    | Fragment(first: bool, text: bool, data: Bytes, fin: bool, decodes: bool)
    | Ping
    | Pong(payload: Bytes)
    | Close(code: nat)

  function HandleConnect(cfg: Config, s: Conn, ok: bool): Conn {
    var s1 := s.(peer := s.peer.(requested := true));
    if cfg.library.Sansio? && !ok then s1.(handshake := true, closeSent := true, closing := true)
    else Put(s1, Connect).(app := Running)
  }

  function HandleFragment(cfg: Config, s: Conn, e: Event): Conn
    requires e.Fragment?
  {
    match cfg.library
    case Sansio =>
      var part := if e.first then Partial([e.data], e.text) else Partial(s.part.frames + [e.data], s.part.text);
      if !e.fin then s.(part := part)
      else if s.closeSent then s.(part := Partial([], part.text))
      else if part.text && !e.decodes then Fail(s.(part := Partial([], part.text)), 1007)
      else Deliver(s.(part := part))
    case Wsproto =>
      var part := Partial(s.part.frames + [e.data], if s.part.frames == [] then e.text else s.part.text);
      if |Concat(part.frames)| > cfg.maxSize then Fail(s.(part := part), 1009)
      else if e.fin then Deliver(s.(part := part))
      else s.(part := part)
  }

  function HandlePong(s: Conn, payload: Bytes): Conn {
    if s.timers.pending == Some(payload) then s.(timers := Ponged(s.timers)) else s
  }

  function HandleClose(cfg: Config, s: Conn, code: nat): Conn {
    var s1 := s.(peer := s.peer.(closed := true));
    if s.closeSent then
      if s.timers.close.Some? then s1.(timers := CancelClose(s.timers), closing := true) else s1
    else if cfg.library.Sansio? && s.closing then s1
    else Put(s1, Disconnect(code)).(closing := true)
  }

  function HandleEvent(cfg: Config, s: Conn, e: Event): Conn {
    if cfg.library.Wsproto? && s.closeSent && !e.Close? then s
    else
      match e
      case Request(ok) => HandleConnect(cfg, s, ok)
      case Fragment(_, _, _, _, _) => HandleFragment(cfg, s, e)
      case Ping => s
      case Pong(payload) => HandlePong(s, payload)
      case Close(code) => HandleClose(cfg, s, code)
  }

  function HandleEvents(cfg: Config, s: Conn, es: seq<Event>): Conn
    decreases |es|
  {
    if es == [] then s else HandleEvents(cfg, HandleEvent(cfg, s, es[0]), es[1..])
  }

  /** `data_received`; `broken`: the library found a protocol error, with the close code it chose. */
  function Feed(cfg: Config, s: Conn, es: seq<Event>, broken: Option<nat>): Conn {
    var s1 := s.(peer := s.peer.(readCount := s.peer.readCount + 1));
    match broken
    case None => HandleEvents(cfg, s1, es)
    case Some(code) => if cfg.library.Sansio? then Fail(s1, code) else s1.(closing := true)
  }

  // ---------- what the application does ----------

  /** `refused`: the library raises, if it is called, because the connection is no longer open. */
  datatype Message =
    | Accept
    | CloseMessage(code: nat, refused: bool)
    | ResponseStart(status: int)
    | SendMessage(bytes: Option<Bytes>, text: Option<Bytes>, refused: bool)
    | ResponseBody(more: bool)
    | OtherMessage

  function StartKeepalive(cfg: Config, t: Timers): Timers { if cfg.keepalive then SchedulePing(t) else t }

  datatype Sent = Sent(conn: Conn, raised: bool)

  /** `send` before the handshake has been answered. */
  function SendHandshake(cfg: Config, s: Conn, m: Message): Sent {
    match m
    case Accept =>
      Sent(if s.closing then s else s.(handshake := true, timers := StartKeepalive(cfg, s.timers)), false)
    case CloseMessage(_, _) => Sent(Fail(s, 1006).(handshake := true), false)
    case ResponseStart(status) =>
      if !(100 <= status < 600) then Sent(s, true)
      else Sent(s.(denial := true, handshake := cfg.library.Wsproto?), false)
    case _ => Sent(s, true)
  }

  /** The closing handshake: what is already queued stays, reads resume so that the peer's reply can arrive. */
  function StartClose(s: Conn): Conn {
    s.(closeSent := true, readPaused := false, timers := ScheduleClose(s.timers))
  }

  function Write(s: Conn, o: Out): Conn { s.(wrote := s.wrote + [o]) }

  /** A message: its bytes if there are any, or else its text. `wsproto` writes only to an open transport. */
  function SendData(cfg: Config, s: Conn, bytes: Option<Bytes>, text: Option<Bytes>): Conn {
    if cfg.library.Wsproto? && s.closing then s
    else if bytes.Some? then Write(s, DataFrame(false, bytes.value))
    else if text.Some? then Write(s, DataFrame(true, text.value))
    else s
  }

  function SendOpen(cfg: Config, s: Conn, m: Message): Sent {
    match m
    case SendMessage(bytes, text, refused) => Sent(if refused then s else SendData(cfg, s, bytes, text), refused)
    case CloseMessage(code, refused) =>
      if cfg.library.Sansio? && s.closing then Sent(s, false)
      else
        var s1 := Put(s, Disconnect(code));
        if cfg.library.Sansio? && refused then Sent(s1, true)
        else if refused || s.closing then Sent(s1.(closeSent := true), refused)
        else Sent(StartClose(Write(s1, CloseFrame(code))), false)
    case _ => Sent(s, true)
  }

  function SendDenial(s: Conn, m: Message): Sent {
    match m
    case ResponseBody(more) => Sent(if more then s else Fail(s, 1006), false)
    case _ => Sent(s, true)
  }

  function Send(cfg: Config, s: Conn, m: Message): Sent {
    if s.disconnected then Sent(s, true)
    else if !s.handshake && (cfg.library.Wsproto? || !s.denial) then SendHandshake(cfg, s, m)
    else if !s.closeSent && !s.denial then SendOpen(cfg, s, m)
    else if s.denial then SendDenial(s, m)
    else Sent(s, true)
  }

  /** `receive`, once the queue has something. */
  function TakeEvent(s: Conn): Conn
    requires s.inbox.queue != []
  {
    var rest := s.inbox.queue[1..];
    s.(inbox := Inbox(rest, s.inbox.log), readPaused := s.readPaused && rest != [])
  }

  function AppEnds(s: Conn): Conn {
    s.(app := Ended, closing := s.closing || s.timers.close.None?)
  }

  // ---------- timers and the end ----------

  function PingFires(cfg: Config, s: Conn, h: nat, payload: Bytes): Conn {
    var t := s.timers.(ping := None, live := s.timers.live - {h});
    if s.closeSent || s.closing then s.(timers := t)
    else
      var t1 := t.(pending := Some(payload));
      s.(timers := if cfg.deadline then SchedulePong(t1) else SchedulePing(t1))
  }

  function PongFires(s: Conn, h: nat): Conn {
    var s1 := s.(timers := s.timers.(pong := None, pending := None, live := s.timers.live - {h}));
    if s.closeSent || s.closing then s1 else s1.(closeSent := true, closing := true)
  }

  function CloseFires(s: Conn, h: nat): Conn {
    s.(timers := s.timers.(live := s.timers.live - {h}), closing := true)
  }

  function TimerFires(cfg: Config, s: Conn, h: nat, payload: Bytes): Conn
    requires h in s.timers.live
  {
    match s.timers.live[h]
    case PingTimer => PingFires(cfg, s, h, payload)
    case PongTimer => PongFires(s, h)
    case CloseTimer => CloseFires(s, h)
  }

  function DoShutdown(s: Conn): Conn {
    var t := StopKeepalive(s.timers);
    if s.closeSent then s.(timers := CancelClose(t), closing := true)
    else if s.handshake then Put(s, Disconnect(1012)).(timers := t, closing := true)
    else s.(timers := t, closing := true)
  }

  function Lose(s: Conn): Conn {
    Put(s, Disconnect(if s.handshake then 1005 else 1006)).(
      timers := CancelClose(StopKeepalive(s.timers)), handshake := true, disconnected := true, closing := true)
  }

  // ---------- steps ----------

  datatype Step =
    | DataReceived(events: seq<Event>, broken: Option<nat>)
    | AppSends(message: Message)
    | AppReceives
    | AppEnded
    | Timer(handle: nat, payload: Bytes)  // with the payload that a ping chooses
    | Shutdown
    | ConnectionLost

  /** The handshake request comes first and once, and no data follows the peer's close frame. */
  predicate Legal(requested: bool, peerClosed: bool, es: seq<Event>)
    decreases |es|
  {
    es == [] ||
    (es[0].Request? == !requested && (es[0].Fragment? ==> !peerClosed)
     && Legal(true, peerClosed || es[0].Close?, es[1..]))
  }

  /** A library refuses a message only on a connection that is closing. */
  predicate MayRefuse(s: Conn, m: Message) { (m.SendMessage? || m.CloseMessage?) && m.refused ==> s.closing }

  predicate Enabled(s: Conn, e: Step) {
    match e
    case DataReceived(events, _) => !s.closing && !s.readPaused && Legal(s.peer.requested, s.peer.closed, events)
    case AppSends(m) => s.app == Running && MayRefuse(s, m)
    case AppReceives => s.app == Running && s.inbox.queue != []
    case AppEnded => s.app == Running
    case Timer(h, _) => h in s.timers.live
    case Shutdown => true
    case ConnectionLost => !s.disconnected
  }

  function Take(cfg: Config, s: Conn, e: Step): Conn
    requires Enabled(s, e)
  {
    match e
    case DataReceived(events, broken) => Feed(cfg, s, events, broken)
    case AppSends(m) => Send(cfg, s, m).conn
    case AppReceives => TakeEvent(s)
    case AppEnded => AppEnds(s)
    case Timer(h, payload) => TimerFires(cfg, s, h, payload)
    case Shutdown => DoShutdown(s)
    case ConnectionLost => Lose(s)
  }
}
