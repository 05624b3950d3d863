/** WebSocketsSansIOProtocol of websockets_sansio_impl.py and WSProtocol of wsproto_impl.py. The fields and methods
    that the two repeat word for word are in `Connection`, once; each class adds its own. A ghost value `abs` is the
    state that WebSocketSpec speaks of; `Valid` ties the fields to it, and every method moves `abs` by the
    specification's function for that piece of code, with its own library. */
module WebSocketProtocols {
  import opened Text
  import opened WebSocketSpec
  import WebSocketRuns
  import Flow

  /** The event loop's timers: every handle that has neither fired nor been cancelled, with its callback. */
  class EventLoop {
    var live: map<nat, Kind>
    var next: nat

    constructor ()
      ensures live == map[] && next == 0
    {
      live, next := map[], 0;
    }

    method CallLater(callback: Kind) returns (h: Option<nat>)
      modifies this
      ensures h == Some(old(next)) && live == old(live)[old(next) := callback] && next == old(next) + 1
    {
      h := Some(next);
      live := live[next := callback];
      next := next + 1;
    }

    method Cancel(h: nat)
      modifies this`live
      ensures live == old(live) - {h}
    {
      live := live - {h};
    }

    /** The loop runs a callback: its handle is no longer live. */
    method Fire(h: nat)
      modifies this`live
      ensures live == old(live) - {h}
    {
      live := live - {h};
    }
  }

  /** The buffer of wsproto_impl.py: `value` is None between messages. */
  class WebsocketBuffer {
    const maxLength: nat
    var value: Option<(bool, Bytes)>
    var length: nat

    /** It holds a message assembled from `frames`. */
    ghost predicate Holds(frames: seq<Bytes>, text: bool)
      reads this
    {
      value == (if frames == [] then None else Some((text, Concat(frames)))) && length == |Concat(frames)|
    }

    constructor (maxLength: nat)
      ensures this.maxLength == maxLength && value == None && length == 0
    {
      this.maxLength, value, length := maxLength, None, 0;
    }

    method Extend(text: bool, data: Bytes, ghost part: Partial) returns (tooLarge: bool)
      requires Holds(part.frames, part.text)
      modifies this
      ensures tooLarge <==> |Concat(part.frames + [data])| > maxLength
      ensures Holds(part.frames + [data], if part.frames == [] then text else part.text)
    {
      hide Concat;
      ConcatOne(part.frames, data);
      ConcatNone();
      var (kind, content) := if value.None? then (text, "") else value.value;
      value := Some((kind, content + data));
      length := length + |data|;
      tooLarge := length > maxLength;
    }

    method Clear()
      modifies this
      ensures forall text :: Holds([], text)
    {
      value, length := None, 0;
    }

    method ToMessage(ghost frames: seq<Bytes>, ghost text: bool) returns (message: (bool, Bytes))
      requires Holds(frames, text) && frames != []
      ensures message == (text, Concat(frames))
    {
      message := value.value;
    }
  }

  /** What the two implementations have in common. */
  class Connection {
    const transport: Flow.Transport
    const loop: EventLoop
    const config: Config
    var queue: seq<AppEvent>
    var handshakeComplete: bool
    var closeSent: bool
    var disconnected: bool
    var closeTimer: Option<nat>
    var readPaused: bool
    var pingTimer: Option<nat>
    var pongTimer: Option<nat>
    var pendingPingPayload: Option<Bytes>
    var readCount: nat  // history: how many reads there have been
    var wrote: seq<Out>  // history: what `send` has written since the handshake
    ghost var abs: Conn

    function Handles(): Timers
      reads this`pingTimer, this`pongTimer, this`closeTimer, this`pendingPingPayload, loop
    {
      Timers(pingTimer, pongTimer, closeTimer, pendingPingPayload, loop.live, loop.next)
    }

    ghost predicate Shows(c: Conn)
      reads this, transport`closing, loop
    {
      && c.inbox.queue == queue && c.handshake == handshakeComplete && c.closeSent == closeSent
      && c.disconnected == disconnected && c.closing == transport.closing
      && c.readPaused == readPaused && c.timers == Handles() && c.peer.readCount == readCount
      && c.wrote == wrote
    }

    ghost predicate Paused()
      reads this`readPaused, transport`calls
    {
      Flow.Mirrors(Flow.Reads(readPaused, transport.calls))
    }

    /** The fields hold `abs`, and the transport is paused and resumed strictly in turn. */
    ghost predicate Valid()
      reads this, transport, loop
    {
      Shows(abs) && Paused()
    }

    constructor (transport: Flow.Transport, loop: EventLoop, config: Config)
      requires !transport.closing && transport.calls == [] && loop.live == map[] && loop.next == 0
      ensures Valid() && abs == FRESH && this.transport == transport && this.loop == loop && this.config == config
    {
      this.transport, this.loop, this.config := transport, loop, config;
      queue, handshakeComplete, closeSent, disconnected, readPaused := [], false, false, false, false;
      closeTimer, pingTimer, pongTimer, pendingPingPayload, readCount, wrote := None, None, None, None, 0, [];
      abs := FRESH;
    }

    /** A step of the history. */
    ghost method Note(app: App, peer: Peer)
      requires Valid() && peer.readCount == abs.peer.readCount
      modifies this`abs
      ensures Valid() && abs == old(abs).(app := app, peer := peer)
    {
      hide Flow.Mirrors;
      abs := abs.(app := app, peer := peer);
    }

    /** The message being assembled, which each implementation holds in its own way. */
    ghost method NotePart(part: Partial)
      requires Valid()
      modifies this`abs
      ensures Valid() && abs == old(abs).(part := part)
    {
      hide Flow.Mirrors;
      abs := abs.(part := part);
    }

    ghost method NoteDenial()
      requires Valid()
      modifies this`abs
      ensures Valid() && abs == old(abs).(denial := true)
    {
      hide Flow.Mirrors;
      abs := abs.(denial := true);
    }

    /** `self.queue.put_nowait(...)` */
    method PutNowait(e: AppEvent)
      requires Valid()
      modifies this`queue, this`abs
      ensures Valid() && abs == Put(old(abs), e)
    {
      hide Flow.Mirrors;
      queue := queue + [e];
      abs := Put(abs, e);
    }

    /** `self.transport.write(...)` of what the library makes of it. */
    method WriteFrame(o: Out)
      requires Valid()
      modifies this`wrote, this`abs
      ensures Valid() && abs == Write(old(abs), o)
      ensures abs.part == old(abs).part && abs.denial == old(abs).denial
    {
      hide Flow.Mirrors;
      wrote := wrote + [o];
      abs := Write(abs, o);
    }

    /** The data of a message: its bytes if there are any, or else its text. */
    method WriteData(bytes: Option<Bytes>, text: Option<Bytes>)
      requires Valid()
      modifies this`wrote, this`abs
      ensures Valid() && abs == SendData(config, old(abs), bytes, text)
      ensures abs.part == old(abs).part && abs.denial == old(abs).denial
    {
      hide Paused;
      if config.library.Sansio? || !transport.closing {
        if bytes.Some? {
          WriteFrame(DataFrame(false, bytes.value));
        } else if text.Some? {
          WriteFrame(DataFrame(true, text.value));
        }
      }
    }

    method CloseTransport()
      requires Valid()
      modifies this`abs, transport`closing
      ensures Valid() && abs == old(abs).(closing := true)
    {
      hide Flow.Mirrors;
      transport.Close();
      abs := abs.(closing := true);
    }

    method SetCloseSent()
      requires Valid()
      modifies this`closeSent, this`abs
      ensures Valid() && abs == old(abs).(closeSent := true)
    {
      hide Flow.Mirrors;
      closeSent := true;
      abs := abs.(closeSent := true);
    }

    method SetHandshakeComplete()
      requires Valid()
      modifies this`handshakeComplete, this`abs
      ensures Valid() && abs == old(abs).(handshake := true)
    {
      hide Flow.Mirrors;
      handshakeComplete := true;
      abs := abs.(handshake := true);
    }

    /** The connection fails with `code`. */
    method FailWith(code: nat)
      requires Valid()
      modifies this`queue, this`closeSent, this`abs, transport`closing
      ensures Valid() && abs == Fail(old(abs), code)
      ensures abs.part == old(abs).part && abs.denial == old(abs).denial
    {
      hide Shows, Paused;
      PutNowait(Disconnect(code));
      SetCloseSent();
      CloseTransport();
    }

    method PauseReading()
      requires Valid()
      modifies this`readPaused, this`abs, transport`calls
      ensures Valid() && abs == old(abs).(readPaused := true)
    {
      Flow.StillMirrors(Flow.Reads(readPaused, transport.calls));
      hide Flow.Mirrors;
      if !readPaused {
        readPaused := true;
        transport.calls := transport.calls + [Flow.PauseRead];
      }
      abs := abs.(readPaused := true);
    }

    method ResumeReading()
      requires Valid()
      modifies this`readPaused, this`abs, transport`calls
      ensures Valid() && abs == old(abs).(readPaused := false)
    {
      Flow.StillMirrors(Flow.Reads(readPaused, transport.calls));
      hide Flow.Mirrors;
      if readPaused {
        readPaused := false;
        transport.calls := transport.calls + [Flow.ResumeRead];
      }
      abs := abs.(readPaused := false);
    }

    method CountRead()
      requires Valid()
      modifies this`readCount, this`abs
      ensures Valid() && abs == old(abs).(peer := old(abs).peer.(readCount := old(abs).peer.readCount + 1))
    {
      hide Flow.Mirrors;
      readCount := readCount + 1;
      abs := abs.(peer := abs.peer.(readCount := readCount));
    }

    method SchedulePing()
      modifies this`pingTimer, loop
      ensures Handles() == WebSocketSpec.SchedulePing(old(Handles()))
    {
      pingTimer := loop.CallLater(PingTimer);
    }

    method StartKeepalive()
      modifies this`pingTimer, loop
      ensures Handles() == WebSocketSpec.StartKeepalive(config, old(Handles()))
    {
      if config.keepalive { SchedulePing(); }
    }

    method StopKeepalive()
      modifies this`pingTimer, this`pongTimer, this`pendingPingPayload, loop
      ensures Handles() == WebSocketSpec.StopKeepalive(old(Handles()))
    {
      if pingTimer.Some? {
        loop.Cancel(pingTimer.value);
        pingTimer := None;
      }
      if pongTimer.Some? {
        loop.Cancel(pongTimer.value);
        pongTimer := None;
      }
      pendingPingPayload := None;
    }

    method HaltKeepalive()
      requires Valid()
      modifies this`pingTimer, this`pongTimer, this`pendingPingPayload, this`abs, loop
      ensures Valid() && abs == old(abs).(timers := WebSocketSpec.StopKeepalive(old(abs).timers))
    {
      hide Flow.Mirrors, WebSocketSpec.StopKeepalive;
      StopKeepalive();
      abs := abs.(timers := WebSocketSpec.StopKeepalive(abs.timers));
    }

    /** The ping in flight is answered. */
    method Answered()
      modifies this`pingTimer, this`pongTimer, this`pendingPingPayload, loop
      ensures Handles() == Ponged(old(Handles()))
    {
      pendingPingPayload := None;
      if pongTimer.Some? {
        loop.Cancel(pongTimer.value);
        pongTimer := None;
        SchedulePing();
      }
    }

    method HandlePong(payload: Bytes)
      requires Valid()
      modifies this`pingTimer, this`pongTimer, this`pendingPingPayload, this`abs, loop
      ensures Valid() && abs == WebSocketSpec.HandlePong(old(abs), payload)
      ensures abs.part == old(abs).part && abs.denial == old(abs).denial
    {
      hide Flow.Mirrors, Ponged;
      if pendingPingPayload != Some(payload) { return; }
      Answered();
      abs := abs.(timers := Ponged(abs.timers));
    }

    /** A new ping is in flight. */
    method NextPing(payload: Bytes)
      modifies this`pingTimer, this`pongTimer, this`pendingPingPayload, loop
      ensures var t := old(Handles()).(pending := Some(payload));
              Handles() == if config.deadline then SchedulePong(t) else WebSocketSpec.SchedulePing(t)
    {
      pendingPingPayload := Some(payload);
      if config.deadline { pongTimer := loop.CallLater(PongTimer); } else { SchedulePing(); }
    }

    /** The event loop calls back for the ping timer. */
    method SendKeepalivePing(h: nat, payload: Bytes)
      requires Valid() && h in loop.live && loop.live[h] == PingTimer
      modifies this`pingTimer, this`pongTimer, this`pendingPingPayload, this`abs, loop
      ensures Valid() && abs == PingFires(config, old(abs), h, payload)
    {
      hide Flow.Mirrors, SchedulePong, WebSocketSpec.SchedulePing;
      ghost var s := abs;
      loop.Fire(h);
      pingTimer := None;
      assert Handles() == s.timers.(ping := None, live := s.timers.live - {h});
      if !closeSent && !transport.closing { NextPing(payload); }
      abs := s.(timers := Handles());
    }

    /** The event loop calls back for the pong timer. */
    method KeepaliveTimeout(h: nat)
      requires Valid() && h in loop.live && loop.live[h] == PongTimer
      modifies this`pongTimer, this`pendingPingPayload, this`closeSent, this`abs, loop, transport`closing
      ensures Valid() && abs == PongFires(old(abs), h)
    {
      hide Flow.Mirrors;
      ghost var s := abs;
      loop.Fire(h);
      pongTimer := None;
      pendingPingPayload := None;
      if !closeSent && !transport.closing {
        closeSent := true;
        transport.Close();
      }
      abs := PongFires(s, h);
    }

    method CancelCloseTimer()
      modifies this`closeTimer, loop
      ensures Handles() == CancelClose(old(Handles()))
    {
      if closeTimer.Some? {
        loop.Cancel(closeTimer.value);
        closeTimer := None;
      }
    }

    method DropCloseTimer()
      requires Valid()
      modifies this`closeTimer, this`abs, loop
      ensures Valid() && abs == old(abs).(timers := CancelClose(old(abs).timers))
    {
      hide Flow.Mirrors, CancelClose;
      CancelCloseTimer();
      abs := abs.(timers := CancelClose(abs.timers));
    }

    method ArmCloseTimer()
      requires Valid()
      modifies this`closeTimer, this`abs, loop
      ensures Valid() && abs == old(abs).(timers := ScheduleClose(old(abs).timers))
    {
      hide Flow.Mirrors;
      closeTimer := loop.CallLater(CloseTimer);
      abs := abs.(timers := ScheduleClose(abs.timers));
    }

    /** The event loop calls back for the close timer, whose callback is `transport.close`. */
    method CloseTimeout(h: nat)
      requires Valid() && h in loop.live && loop.live[h] == CloseTimer
      modifies this`abs, loop, transport`closing
      ensures Valid() && abs == CloseFires(old(abs), h)
    {
      hide Flow.Mirrors;
      ghost var s := abs;
      loop.Fire(h);
      transport.Close();
      abs := CloseFires(s, h);
    }

    method AcceptHandshake()
      requires Valid() && !handshakeComplete
      modifies this`handshakeComplete, this`pingTimer, this`abs, loop
      ensures Valid() && Sent(abs, false) == SendHandshake(config, old(abs), Accept)
      ensures abs.part == old(abs).part && abs.denial == old(abs).denial
    {
      hide Flow.Mirrors, WebSocketSpec.StartKeepalive;
      if !transport.closing {
        handshakeComplete := true;
        StartKeepalive();
        abs := abs.(handshake := true, timers := WebSocketSpec.StartKeepalive(config, abs.timers));
      }
    }

    method RejectHandshake()
      requires Valid()
      modifies this`queue, this`handshakeComplete, this`closeSent, this`abs, transport`closing
      ensures Valid() && abs == Fail(old(abs), 1006).(handshake := true)
      ensures abs.part == old(abs).part && abs.denial == old(abs).denial
    {
      hide Shows, Paused;
      FailWith(1006);
      SetHandshakeComplete();
    }

    /** What is common to every way of closing an open connection whose transport is still open. */
    method BeginClose()
      requires Valid()
      modifies this`closeSent, this`readPaused, this`closeTimer, this`abs, transport`calls, loop
      ensures Valid() && abs == StartClose(old(abs))
      ensures abs.part == old(abs).part && abs.denial == old(abs).denial
    {
      hide Shows, Paused;
      SetCloseSent();
      ResumeReading();
      ArmCloseTimer();
    }

    method Receive() returns (e: AppEvent)
      requires Valid() && queue != []
      modifies this`queue, this`readPaused, this`abs, transport`calls
      ensures Valid() && abs == TakeEvent(old(abs)) && e == old(queue)[0]
    {
      hide Paused;
      ghost var s := abs;
      e := queue[0];
      queue := queue[1..];
      abs := s.(inbox := Inbox(queue, s.inbox.log));
      assert Valid();
      if readPaused && queue == [] { ResumeReading(); }
    }

    /** The end of `run_asgi`; a 500 response, if one is sent, is bytes for the library only. */
    method AppEnds()
      requires Valid()
      modifies this`abs, transport`closing
      ensures Valid() && abs == WebSocketSpec.AppEnds(old(abs))
    {
      hide Flow.Mirrors;
      if closeTimer.None? { transport.Close(); }
      abs := WebSocketSpec.AppEnds(abs);
    }

    method Shutdown()
      requires Valid()
      modifies this, loop, transport`closing
      ensures Valid() && abs == DoShutdown(old(abs))
    {
      hide Paused, WebSocketSpec.StopKeepalive, CancelClose;
      HaltKeepalive();
      if closeSent {
        DropCloseTimer();
      } else if handshakeComplete {
        PutNowait(Disconnect(1012));
      }
      CloseTransport();
    }

    method MarkLost()
      requires Valid()
      modifies this`handshakeComplete, this`disconnected, this`abs
      ensures Valid() && abs == old(abs).(handshake := true, disconnected := true)
    {
      hide Flow.Mirrors;
      handshakeComplete := true;
      disconnected := true;
      abs := abs.(handshake := true, disconnected := true);
    }

    method ConnectionLost()
      requires Valid()
      modifies this, loop, transport`closing
      ensures Valid() && abs == Lose(old(abs))
    {
      hide Paused, WebSocketSpec.StopKeepalive, CancelClose;
      HaltKeepalive();
      PutNowait(Disconnect(if handshakeComplete then 1005 else 1006));
      MarkLost();
      DropCloseTimer();
      CloseTransport();  // by asyncio if not by the handler: a lost transport is closing
    }

    lemma Known()
      requires Valid()
      ensures loop.live == abs.timers.live && queue == abs.inbox.queue
    {
    }

    /** An event other than a read or a message of the application: the method that handles it is called. */
    method Perform(e: Step)
      requires Valid() && Enabled(abs, e) && !e.DataReceived? && !e.AppSends?
      modifies this, loop, transport
      ensures Valid() && abs == Take(config, old(abs), e)
      ensures abs.part == old(abs).part && abs.denial == old(abs).denial
    {
      hide Valid, TakeEvent, WebSocketSpec.AppEnds, PingFires, PongFires, CloseFires, DoShutdown, Lose;
      Known();
      MessageKept(config, abs, e);
      match e {
        case AppReceives => var _ := Receive();
        case AppEnded => AppEnds();
        case Timer(h, payload) =>
          match loop.live[h] {
            case PingTimer => SendKeepalivePing(h, payload);
            case PongTimer => KeepaliveTimeout(h);
            case CloseTimer => CloseTimeout(h);
          }
        case Shutdown => Shutdown();
        case ConnectionLost => ConnectionLost();
      }
    }
  }

  lemma MessageKept(cfg: Config, s: Conn, e: Step)
    requires Enabled(s, e) && !e.DataReceived? && !e.AppSends?
    ensures Take(cfg, s, e).part == s.part && Take(cfg, s, e).denial == s.denial
  {
    hide Push, TimerFires, WebSocketSpec.StopKeepalive, CancelClose, Legal;
    match e {
      case Timer(h, payload) => TimerKeepsMessage(cfg, s, h, payload);
      case _ =>
    }
  }

  lemma TimerKeepsMessage(cfg: Config, s: Conn, h: nat, payload: Bytes)
    requires h in s.timers.live
    ensures TimerFires(cfg, s, h, payload).part == s.part && TimerFires(cfg, s, h, payload).denial == s.denial
  {
    hide SchedulePing, SchedulePong;
  }

  /** On the sans-I/O core of the `websockets` library. */
  class WebSocketsSansIOProtocol {
    const core: Connection
    var initialResponse: Option<(int, Bytes)>  // a denial response: its status and body
    var frames: seq<Bytes>
    var currMsgIsText: bool

    ghost predicate Valid()
      reads this, core, core.transport, core.loop
    {
      && core.Valid() && core.config.library == Sansio
      && core.abs.denial == initialResponse.Some? && core.abs.part == Partial(frames, currMsgIsText)
    }

    constructor (core: Connection)
      requires core.Valid() && core.abs == FRESH && core.config.library == Sansio
      ensures Valid() && this.core == core
    {
      this.core := core;
      initialResponse, frames, currMsgIsText := None, [], false;
    }

    method HandleConnect(ok: bool)
      requires Valid()
      modifies core`queue, core`handshakeComplete, core`closeSent, core`abs, core.transport`closing
      ensures Valid() && core.abs == WebSocketSpec.HandleConnect(core.config, old(core.abs), ok)
    {
      hide Connection.Valid;
      ghost var peer := core.abs.peer.(requested := true);
      core.Note(core.abs.app, peer);
      if !ok {
        core.SetHandshakeComplete();
        core.SetCloseSent();
        core.CloseTransport();
        return;
      }
      core.PutNowait(Connect);
      core.Note(Running, peer);
    }

    /** The parts of a message, in order. */
    method JoinFrames() returns (data: Bytes)
      ensures data == Concat(frames)
    {
      if |frames| == 1 {
        ConcatOne([], frames[0]);
        assert [] + [frames[0]] == frames;
        data := frames[0];
      } else {
        data := Concat(frames);
      }
    }

    method SetFrames(next: seq<Bytes>, text: bool)
      requires Valid()
      modifies this`frames, this`currMsgIsText, core`abs
      ensures Valid() && core.abs == old(core.abs).(part := Partial(next, text))
    {
      hide Connection.Valid;
      frames := next;
      currMsgIsText := text;
      core.NotePart(Partial(next, text));
    }

    method SendReceiveEventToApp(decodes: bool)
      requires Valid()
      modifies core`queue, this`frames, this`currMsgIsText, core`closeSent, core`readPaused, core`abs, core.transport
      ensures Valid()
      ensures var s := old(core.abs); var done := s.(part := Partial([], s.part.text));
              core.abs == if s.closeSent then done
                     else if s.part.text && !decodes then Fail(done, 1007) else Deliver(s)
    {
      hide Connection.Paused, Concat, Flow.Mirrors;
      var data := JoinFrames();
      SetFrames([], currMsgIsText);
      if core.closeSent { return; }
      if currMsgIsText && !decodes {
        core.FailWith(1007);
        return;
      }
      core.PutNowait(AppEvent.Receive(currMsgIsText, data, core.readCount));
      core.PauseReading();
    }

    /** `handle_text`, `handle_bytes` and `handle_cont`. */
    method HandleFragment(e: Event)
      requires Valid() && e.Fragment?
      modifies core`queue, this`frames, this`currMsgIsText, core`closeSent, core`readPaused, core`abs, core.transport
      ensures Valid() && core.abs == WebSocketSpec.HandleFragment(core.config, old(core.abs), e)
    {
      hide Connection.Paused, Concat, Flow.Mirrors, Fail, Deliver;
      if e.first { SetFrames([e.data], e.text); } else { SetFrames(frames + [e.data], currMsgIsText); }
      if e.fin { SendReceiveEventToApp(e.decodes); }
    }

    method HandleClose(code: nat)
      requires Valid()
      modifies core`queue, core`closeTimer, core`abs, core.transport`closing, core.loop
      ensures Valid() && core.abs == WebSocketSpec.HandleClose(core.config, old(core.abs), code)
    {
      hide Connection.Paused, CancelClose, Flow.Mirrors;
      core.Note(core.abs.app, core.abs.peer.(closed := true));
      if core.closeSent {
        if core.closeTimer.Some? {
          core.DropCloseTimer();
          core.CloseTransport();
        }
        return;
      }
      if !core.transport.closing {
        core.PutNowait(Disconnect(code));
        core.CloseTransport();
      }
    }

    method HandleEvent(e: Event)
      requires Valid()
      modifies this, core, core.transport, core.loop
      ensures Valid() && core.abs == WebSocketSpec.HandleEvent(core.config, old(core.abs), e)
    {
      hide Connection.Valid, WebSocketSpec.HandleConnect, WebSocketSpec.HandleFragment, WebSocketSpec.HandleClose,
           WebSocketSpec.HandlePong;
      match e {
        case Request(ok) => HandleConnect(ok);
        case Fragment(_, _, _, _, _) => HandleFragment(e);
        case Ping =>
        case Pong(payload) => core.HandlePong(payload);
        case Close(code) => HandleClose(code);
      }
    }

    /** `data_received`: the events of one read, in order, unless the library found a protocol error. */
    method DataReceived(events: seq<Event>, broken: Option<nat>)
      requires Valid()
      modifies this, core, core.transport, core.loop
      ensures Valid() && core.abs == Feed(core.config, old(core.abs), events, broken)
    {
      hide Connection.Valid, WebSocketSpec.HandleEvent, Fail;
      core.CountRead();
      if broken.Some? {
        core.FailWith(broken.value);
        return;
      }
      ghost var s := core.abs;
      for i := 0 to |events|
        invariant Valid() && HandleEvents(core.config, s, events) == HandleEvents(core.config, core.abs, events[i..])
      {
        assert events[i..][0] == events[i] && events[i..][1..] == events[i + 1..];
        HandleEvent(events[i]);
      }
      assert events[|events|..] == [];
    }

    /** The response that the application sends instead of accepting. */
    method StartDenial(status: int) returns (raised: bool)
      requires Valid() && !core.handshakeComplete && initialResponse.None?
      modifies this`initialResponse, core`abs
      ensures Valid() && Sent(core.abs, raised) == SendHandshake(core.config, old(core.abs), ResponseStart(status))
    {
      hide Connection.Paused;
      if !(100 <= status < 600) { return true; }
      initialResponse := Some((status, ""));
      core.NoteDenial();
      raised := false;
    }

    method CloseOpen(code: nat, refused: bool) returns (raised: bool)
      requires Valid()
      modifies core`queue, core`wrote, core`closeSent, core`readPaused, core`closeTimer, core`abs,
          core.transport`calls, core.loop
      ensures Valid()
      ensures Sent(core.abs, raised) == SendOpen(core.config, old(core.abs), CloseMessage(code, refused))
    {
      hide Connection.Paused, Flow.Mirrors, StartClose;
      raised := false;
      if !core.transport.closing {
        core.PutNowait(Disconnect(code));
        if refused { return true; }
        core.WriteFrame(CloseFrame(code));
        core.BeginClose();
      }
    }

    method Send(m: Message) returns (raised: bool)
      requires Valid()
      modifies this, core, core.transport, core.loop
      ensures Valid() && Sent(core.abs, raised) == WebSocketSpec.Send(core.config, old(core.abs), m)
    {
      hide Connection.Paused, Flow.Mirrors, Fail, StartClose, WebSocketSpec.StartKeepalive;
      if core.disconnected { return true; }
      if !core.handshakeComplete && initialResponse.None? {
        if m.Accept? {
          core.AcceptHandshake();
          raised := false;
        } else if m.CloseMessage? {
          core.RejectHandshake();
          raised := false;
        } else if m.ResponseStart? {
          raised := StartDenial(m.status);
        } else {
          raised := true;
        }
      } else if !core.closeSent && initialResponse.None? {
        if m.SendMessage? {
          if !m.refused { core.WriteData(m.bytes, m.text); }
          raised := m.refused;
        } else if m.CloseMessage? {
          raised := CloseOpen(m.code, m.refused);
        } else {
          raised := true;
        }
      } else if initialResponse.Some? {
        if m.ResponseBody? && !m.more { core.FailWith(1006); }
        raised := !m.ResponseBody?;
      } else {
        raised := true;
      }
    }

    // ---------- whole runs ----------

    /** One event of the environment: the method that handles it is called. */
    method Perform(e: Step)
      requires Valid() && Enabled(core.abs, e)
      modifies this, core, core.transport, core.loop
      ensures Valid() && core.abs == Take(core.config, old(core.abs), e)
    {
      hide Connection.Valid, Feed, WebSocketSpec.Send, Legal;
      match e {
        case DataReceived(events, broken) => DataReceived(events, broken);
        case AppSends(m) => var _ := Send(m);
        case _ =>
          hide Take, Enabled;
          core.Perform(e);
      }
    }

    /** Any run of the connection that the environment allows, event by event. */
    method Serve(es: seq<Step>)
      requires Valid() && WebSocketRuns.Runs(core.config, core.abs, es)
      modifies this, core, core.transport, core.loop
      ensures Valid() && core.abs == WebSocketRuns.Run(core.config, old(core.abs), es)
    {
      hide Connection.Valid, Take, Enabled;
      assert es[0..] == es;
      for k := 0 to |es|
        invariant Valid() && WebSocketRuns.Runs(core.config, core.abs, es[k..])
        invariant WebSocketRuns.Run(core.config, core.abs, es[k..])
               == WebSocketRuns.Run(core.config, old(core.abs), es)
      {
        assert es[k..][0] == es[k] && es[k..][1..] == es[k + 1..];
        Perform(es[k]);
      }
      assert es[|es|..] == [];
    }
  }

  /** On `wsproto`. */
  class WSProtocol {
    const core: Connection
    const buffer: WebsocketBuffer
    var responseStarted: bool

    ghost predicate Valid()
      reads this, core, core.transport, core.loop, buffer
    {
      && core.Valid() && core.config.library == Wsproto
      && core.abs.denial == responseStarted && buffer.maxLength == core.config.maxSize
      && buffer.Holds(core.abs.part.frames, core.abs.part.text)
    }

    constructor (core: Connection)
      requires core.Valid() && core.abs == FRESH && core.config.library == Wsproto
      ensures Valid() && this.core == core
    {
      this.core := core;
      var b := new WebsocketBuffer(core.config.maxSize);
      buffer, responseStarted := b, false;
    }

    method HandleConnect(ok: bool)
      requires Valid()
      modifies core`queue, core`abs
      ensures Valid() && core.abs == WebSocketSpec.HandleConnect(core.config, old(core.abs), ok)
    {
      hide Connection.Valid;
      ghost var peer := core.abs.peer.(requested := true);
      core.Note(core.abs.app, peer);
      core.PutNowait(Connect);
      core.Note(Running, peer);
    }

    method HandleMessage(e: Event)
      requires Valid() && e.Fragment?
      modifies core`queue, core`closeSent, core`readPaused, core`abs, core.transport, buffer
      ensures Valid() && core.abs == WebSocketSpec.HandleFragment(core.config, old(core.abs), e)
    {
      hide Connection.Valid, Concat, Flow.Mirrors, Fail, Deliver;
      var tooLarge := Extend(e.text, e.data);
      if tooLarge {
        core.FailWith(1009);
      } else if e.fin {
        TakeMessage();
      }
    }

    method Extend(text: bool, data: Bytes) returns (tooLarge: bool)
      requires Valid()
      modifies core`abs, buffer
      ensures Valid()
      ensures var part := old(core.abs).part;
              core.abs == old(core.abs).(part := Partial(part.frames + [data], if part.frames == [] then text
                  else part.text))
      ensures tooLarge <==> |Concat(core.abs.part.frames)| > core.config.maxSize
    {
      hide Connection.Paused, Concat, Flow.Mirrors;
      ghost var part := core.abs.part;
      tooLarge := buffer.Extend(text, data, part);
      core.NotePart(Partial(part.frames + [data], if part.frames == [] then text else part.text));
    }

    /** The finished message is queued, and reads pause. */
    method TakeMessage()
      requires Valid() && core.abs.part.frames != []
      modifies core`queue, core`readPaused, core`abs, core.transport`calls, buffer
      ensures Valid() && core.abs == Deliver(old(core.abs))
    {
      hide Connection.Valid, Concat, Flow.Mirrors;
      var message := Message();
      core.PutNowait(message);
      ClearBuffer();
      core.PauseReading();
    }

    method Message() returns (e: AppEvent)
      requires Valid() && core.abs.part.frames != []
      ensures e == AppEvent.Receive(core.abs.part.text, Concat(core.abs.part.frames), core.abs.peer.readCount)
    {
      hide Connection.Paused, Concat, Flow.Mirrors;
      var message := buffer.ToMessage(core.abs.part.frames, core.abs.part.text);
      e := AppEvent.Receive(message.0, message.1, core.readCount);
    }

    method ClearBuffer()
      requires Valid()
      modifies core`abs, buffer
      ensures Valid() && core.abs == old(core.abs).(part := Partial([], old(core.abs).part.text))
    {
      hide Connection.Paused, Concat, Flow.Mirrors;
      buffer.Clear();
      core.NotePart(Partial([], core.abs.part.text));
    }

    method HandleClose(code: nat)
      requires Valid()
      modifies core`queue, core`closeTimer, core`abs, core.transport`closing, core.loop
      ensures Valid() && core.abs == WebSocketSpec.HandleClose(core.config, old(core.abs), code)
    {
      hide Connection.Paused, CancelClose, Flow.Mirrors;
      core.Note(core.abs.app, core.abs.peer.(closed := true));
      if core.closeSent {
        if core.closeTimer.Some? {
          core.DropCloseTimer();
          core.CloseTransport();
        }
        return;
      }
      core.PutNowait(Disconnect(code));
      core.CloseTransport();
    }

    method HandleEvent(e: Event)
      requires Valid()
      modifies this, core, core.transport, core.loop, buffer
      ensures Valid() && core.abs == WebSocketSpec.HandleEvent(core.config, old(core.abs), e)
    {
      hide Connection.Paused, WebSocketSpec.HandleConnect, WebSocketSpec.HandleFragment, WebSocketSpec.HandleClose,
           WebSocketSpec.HandlePong;
      if core.closeSent {
        if e.Close? { HandleClose(e.code); }
        return;
      }
      match e {
        case Request(ok) => HandleConnect(ok);
        case Fragment(_, _, _, _, _) => HandleMessage(e);
        case Ping =>
        case Pong(payload) => core.HandlePong(payload);
        case Close(code) => HandleClose(code);
      }
    }

    /** `data_received`: the events of one read, in order, unless the library found a protocol error. */
    method DataReceived(events: seq<Event>, broken: Option<nat>)
      requires Valid()
      modifies this, core, core.transport, core.loop, buffer
      ensures Valid() && core.abs == Feed(core.config, old(core.abs), events, broken)
    {
      hide Connection.Valid, WebSocketSpec.HandleEvent, Fail;
      core.CountRead();
      if broken.Some? {
        core.CloseTransport();
        return;
      }
      ghost var s := core.abs;
      for i := 0 to |events|
        invariant Valid() && HandleEvents(core.config, s, events) == HandleEvents(core.config, core.abs, events[i..])
      {
        assert events[i..][0] == events[i] && events[i..][1..] == events[i + 1..];
        HandleEvent(events[i]);
      }
      assert events[|events|..] == [];
    }

    /** The response that the application sends instead of accepting. */
    method StartDenial(status: int) returns (raised: bool)
      requires Valid() && !core.handshakeComplete
      modifies core`handshakeComplete, this`responseStarted, core`abs
      ensures Valid() && Sent(core.abs, raised) == SendHandshake(core.config, old(core.abs), ResponseStart(status))
    {
      hide Connection.Paused;
      if !(100 <= status < 600) { return true; }
      core.SetHandshakeComplete();
      responseStarted := true;
      core.NoteDenial();
      raised := false;
    }

    method CloseOpen(code: nat, refused: bool) returns (raised: bool)
      requires Valid()
      modifies core`queue, core`wrote, core`closeSent, core`readPaused, core`closeTimer, core`abs,
          core.transport`calls, core.loop
      ensures Valid()
      ensures Sent(core.abs, raised) == SendOpen(core.config, old(core.abs), CloseMessage(code, refused))
    {
      hide Connection.Paused, Flow.Mirrors, StartClose;
      core.PutNowait(Disconnect(code));
      if refused || core.transport.closing {
        core.SetCloseSent();
      } else {
        core.WriteFrame(CloseFrame(code));
        core.BeginClose();
      }
      raised := refused;
    }

    method Send(m: Message) returns (raised: bool)
      requires Valid()
      modifies this, core, core.transport, core.loop
      ensures Valid() && Sent(core.abs, raised) == WebSocketSpec.Send(core.config, old(core.abs), m)
    {
      hide Connection.Paused, Flow.Mirrors, Fail, StartClose, WebSocketSpec.StartKeepalive;
      if core.disconnected { return true; }
      if !core.handshakeComplete {
        if m.Accept? {
          core.AcceptHandshake();
          raised := false;
        } else if m.CloseMessage? {
          core.RejectHandshake();
          raised := false;
        } else if m.ResponseStart? {
          raised := StartDenial(m.status);
        } else {
          raised := true;
        }
      } else if !core.closeSent && !responseStarted {
        if m.SendMessage? {
          if !m.refused { core.WriteData(m.bytes, m.text); }
          raised := m.refused;
        } else if m.CloseMessage? {
          raised := CloseOpen(m.code, m.refused);
        } else {
          raised := true;
        }
      } else if responseStarted {
        if m.ResponseBody? && !m.more { core.FailWith(1006); }
        raised := !m.ResponseBody?;
      } else {
        raised := true;
      }
    }

    // ---------- whole runs ----------

    /** One event of the environment: the method that handles it is called. */
    method Perform(e: Step)
      requires Valid() && Enabled(core.abs, e)
      modifies this, core, core.transport, core.loop, buffer
      ensures Valid() && core.abs == Take(core.config, old(core.abs), e)
    {
      hide Connection.Valid, Feed, WebSocketSpec.Send, Legal;
      match e {
        case DataReceived(events, broken) => DataReceived(events, broken);
        case AppSends(m) => var _ := Send(m);
        case _ =>
          hide Take, Enabled;
          core.Perform(e);
      }
    }

    /** Any run of the connection that the environment allows, event by event. */
    method Serve(es: seq<Step>)
      requires Valid() && WebSocketRuns.Runs(core.config, core.abs, es)
      modifies this, core, core.transport, core.loop, buffer
      ensures Valid() && core.abs == WebSocketRuns.Run(core.config, old(core.abs), es)
    {
      hide Connection.Valid, Take, Enabled;
      assert es[0..] == es;
      for k := 0 to |es|
        invariant Valid() && WebSocketRuns.Runs(core.config, core.abs, es[k..])
        invariant WebSocketRuns.Run(core.config, core.abs, es[k..])
               == WebSocketRuns.Run(core.config, old(core.abs), es)
      {
        assert es[k..][0] == es[k] && es[k..][1..] == es[k + 1..];
        Perform(es[k]);
      }
      assert es[|es|..] == [];
    }
  }
}
