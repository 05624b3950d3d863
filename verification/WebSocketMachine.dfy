/** What every step of a WebSocket connection keeps, whichever of the two libraries carries it: the language of
    events queued for the application, the timers, and reads that cannot deadlock. */
module WebSocketMachine {
  import opened Text
  import opened WebSocketSpec

  // ---------- events ----------

  /** (connect receive*)? disconnect* */
  ghost predicate InLanguage(log: seq<AppEvent>) {
    && (forall i, j :: 0 <= i < j < |log| && log[i].Disconnect? ==> log[j].Disconnect?)
    && (forall i :: 0 <= i < |log| && log[i].Connect? ==> i == 0)
    && (forall i :: 0 <= i < |log| && log[i].Receive? ==> log[0].Connect?)
  }

  predicate Over(log: seq<AppEvent>) { log != [] && log[|log| - 1].Disconnect? }

  /** The queue is what the application has not taken yet. */
  ghost predicate Suffix(queue: seq<AppEvent>, log: seq<AppEvent>) {
    |queue| <= |log| && log[|log| - |queue|..] == queue
  }

  /** `mid`: in the middle of a read, where the transport was open at the start. */
  ghost predicate EventsOk(s: Conn, mid: bool) {
    && InLanguage(s.inbox.log) && Suffix(s.inbox.queue, s.inbox.log)
    && (Over(s.inbox.log) ==> s.closeSent || s.peer.closed || (s.closing && !mid))
    && (mid && s.closing ==> s.closeSent || s.peer.closed)
    && (!s.peer.requested ==>
          && s.app == NotStarted && !s.peer.closed
          && (s.inbox.log != [] || s.closeSent || s.handshake || s.denial ==> s.closing && !mid))
    && (s.peer.requested && !s.closeSent ==> s.inbox.log != [] && s.inbox.log[0].Connect?)
    && (s.disconnected ==> s.closing && s.handshake && Over(s.inbox.log))
  }

  // ---------- timers ----------

  predicate Holds(t: Timers, h: Option<nat>, k: Kind) { h.Some? && h.value in t.live && t.live[h.value] == k }

  function Stored(t: Timers, k: Kind): Option<nat> {
    match k case PingTimer => t.ping case PongTimer => t.pong case CloseTimer => t.close
  }

  /** The live timers are the stored, unfired handles. */
  ghost predicate TimersOk(t: Timers, closing: bool) {
    && (t.ping.Some? ==> Holds(t, t.ping, PingTimer))
    && (t.pong.Some? ==> Holds(t, t.pong, PongTimer) && t.pending.Some?)
    && !(t.ping.Some? && t.pong.Some?)
    && (t.close.Some? ==>
          && t.close.value < t.next
          && (Holds(t, t.close, CloseTimer) || (closing && t.close.value !in t.live)))
    && (forall h :: h in t.live ==> h < t.next && Some(h) == Stored(t, t.live[h]))
  }

  ghost predicate ClocksOk(cfg: Config, s: Conn) {
    && TimersOk(s.timers, s.closing)
    && (s.disconnected ==> s.timers.live == map[])
    && (s.denial && cfg.library.Wsproto? ==> s.handshake)
    && (!s.handshake ==> s.timers.ping.None? && s.timers.pong.None?)
    && (s.timers.close.Some? ==> s.closeSent && !s.disconnected)
    && (s.closeSent && !s.closing ==> Holds(s.timers, s.timers.close, CloseTimer))
    && (s.app == Ended ==> s.closing || Holds(s.timers, s.timers.close, CloseTimer))
    && (cfg.keepalive && s.handshake && !s.denial && !s.closeSent && !s.closing ==>
          s.timers.ping.Some? || s.timers.pong.Some?)
  }

  // ---------- reads ----------

  ghost predicate HasMessage(queue: seq<AppEvent>) { exists i :: 0 <= i < |queue| && queue[i].Receive? }

  /** The messages in the queue are from one read, the current one until the close frame is sent. */
  ghost predicate OneRead(queue: seq<AppEvent>, closeSent: bool, readCount: nat) {
    && (forall i, j :: 0 <= i < |queue| && 0 <= j < |queue| && queue[i].Receive? && queue[j].Receive? ==>
          queue[i].read == queue[j].read)
    && (!closeSent ==> forall i :: 0 <= i < |queue| && queue[i].Receive? ==> queue[i].read == readCount)
  }

  ghost predicate ReadsOk(s: Conn) {
    && (s.readPaused ==> s.inbox.queue != [])
    && (HasMessage(s.inbox.queue) && !s.closeSent ==> s.readPaused)
    && (s.timers.close.Some? ==> !s.readPaused)
    && OneRead(s.inbox.queue, s.closeSent, s.peer.readCount)
  }

  ghost predicate Inv(cfg: Config, s: Conn, mid: bool) { EventsOk(s, mid) && ClocksOk(cfg, s) && ReadsOk(s) }

  // ---------- putting an event ----------

  lemma PutOne(s: Conn, e: AppEvent)
    requires Suffix(s.inbox.queue, s.inbox.log)
    ensures Suffix(Put(s, e).inbox.queue, Put(s, e).inbox.log)
  {
  }

  lemma DisconnectFits(log: seq<AppEvent>, code: nat)
    requires InLanguage(log)
    ensures InLanguage(log + [Disconnect(code)]) && Over(log + [Disconnect(code)])
  {
  }

  lemma ReceiveFits(log: seq<AppEvent>, e: AppEvent)
    requires InLanguage(log) && e.Receive? && !Over(log) && log != [] && log[0].Connect?
    ensures InLanguage(log + [e]) && !Over(log + [e])
  {
    assert !log[|log| - 1].Disconnect?;
  }

  lemma QueueGrows(queue: seq<AppEvent>, e: AppEvent)
    ensures HasMessage(queue + [e]) <==> HasMessage(queue) || e.Receive?
  {
    var q := queue + [e];
    if HasMessage(queue) {
      var i :| 0 <= i < |queue| && queue[i].Receive?;
      assert q[i].Receive?;
    }
    if e.Receive? { assert q[|queue|].Receive?; }
  }

  lemma OneReadPut(queue: seq<AppEvent>, e: AppEvent, closeSent: bool, readCount: nat)
    requires OneRead(queue, closeSent, readCount) && (e.Receive? ==> !closeSent && e.read == readCount)
    ensures OneRead(queue + [e], closeSent, readCount)
  {
  }

  lemma OneReadKeeps(queue: seq<AppEvent>, closeSent: bool, readCount: nat)
    requires OneRead(queue, closeSent, readCount)
    ensures OneRead(queue, true, readCount)
    ensures queue != [] ==> OneRead(queue[1..], closeSent, readCount)
    ensures closeSent || !HasMessage(queue) ==> OneRead(queue, closeSent, readCount + 1)
  {
  }

  /** An event of the connection's end is queued. */
  lemma PutDisconnect(s: Conn, code: nat)
    requires InLanguage(s.inbox.log) && Suffix(s.inbox.queue, s.inbox.log) && ReadsOk(s)
    ensures var t := Put(s, Disconnect(code));
            InLanguage(t.inbox.log) && Suffix(t.inbox.queue, t.inbox.log) && Over(t.inbox.log) && ReadsOk(t)
                && t.inbox.log != []
            && (s.inbox.log != [] && s.inbox.log[0].Connect? ==> t.inbox.log[0].Connect?)
  {
    hide InLanguage, Suffix, OneRead, HasMessage, Over;
    PutOne(s, Disconnect(code));
    DisconnectFits(s.inbox.log, code);
    QueueGrows(s.inbox.queue, Disconnect(code));
    OneReadPut(s.inbox.queue, Disconnect(code), s.closeSent, s.peer.readCount);
  }

  // ---------- timers ----------

  lemma SchedulePingOk(t: Timers, closing: bool)
    requires TimersOk(t, closing) && t.ping.None? && t.pong.None?
    ensures TimersOk(SchedulePing(t), closing)
  {
  }

  lemma ScheduleCloseOk(t: Timers, closing: bool)
    requires TimersOk(t, closing) && t.close.None?
    ensures TimersOk(ScheduleClose(t), closing)
  {
  }

  lemma StopKeepaliveOk(t: Timers, closing: bool)
    requires TimersOk(t, closing)
    ensures var u := StopKeepalive(t);
            && TimersOk(u, closing) && u.ping.None? && u.pong.None? && u.close == t.close
            && (forall h :: h in u.live ==> Some(h) == u.close)
  {
  }

  lemma CancelCloseOk(t: Timers, closing: bool)
    requires TimersOk(t, closing)
    ensures var u := CancelClose(t);
            TimersOk(u, closing) && u.close.None? && u.ping == t.ping && u.pong == t.pong
                && (forall h :: h in u.live ==> h in t.live && Some(h) != t.close)
  {
  }

  lemma PongedOk(t: Timers, closing: bool)
    requires TimersOk(t, closing)
    ensures var u := Ponged(t); TimersOk(u, closing) && u.close == t.close
    ensures t.ping.Some? || t.pong.Some? ==> Ponged(t).ping.Some?
    ensures t.ping.None? && t.pong.None? ==> Ponged(t).ping.None? && Ponged(t).pong.None? && Ponged(t).live == t.live
    ensures t.live == map[] ==> t.ping.None? && t.pong.None?
  {
  }

  // ---------- the peer ----------

  lemma FailOk(cfg: Config, s: Conn, code: nat, mid: bool)
    requires Inv(cfg, s, mid) && (s.peer.requested || !mid)
    ensures Inv(cfg, Fail(s, code), mid)
  {
    hide InLanguage, Suffix, OneRead, HasMessage, Over, TimersOk;
    PutDisconnect(s, code);
    OneReadKeeps(Put(s, Disconnect(code)).inbox.queue, s.closeSent, s.peer.readCount);
    ClosingOk(s.timers);
  }

  lemma ClosingOk(t: Timers)
    ensures TimersOk(t, false) ==> TimersOk(t, true)
  {
  }

  lemma ConnectOk(cfg: Config, s: Conn, ok: bool)
    requires Inv(cfg, s, true) && !s.peer.requested
    ensures Inv(cfg, HandleConnect(cfg, s, ok), true)
  {
    hide TimersOk, OneRead, HasMessage;
    assert s.inbox.log == [] && s.inbox.queue == [];
    ClosingOk(s.timers);
    QueueGrows(s.inbox.queue, Connect);
    OneReadPut(s.inbox.queue, Connect, s.closeSent, s.peer.readCount);
    OneReadKeeps(s.inbox.queue, s.closeSent, s.peer.readCount);
  }

  lemma DeliverOk(cfg: Config, s: Conn)
    requires Inv(cfg, s, true) && s.peer.requested && !s.closeSent && !s.peer.closed
    ensures Inv(cfg, Deliver(s), true)
  {
    hide InLanguage, Suffix, OneRead, HasMessage, TimersOk;
    var e := Receive(s.part.text, Concat(s.part.frames), s.peer.readCount);
    ReceiveFits(s.inbox.log, e);
    PutOne(s, e);
    QueueGrows(s.inbox.queue, e);
    OneReadPut(s.inbox.queue, e, s.closeSent, s.peer.readCount);
    hide Over, Concat;
  }

  lemma SansioFragmentOk(cfg: Config, s: Conn, e: Event)
    requires Inv(cfg, s, true) && s.peer.requested && !s.peer.closed && e.Fragment? && cfg.library.Sansio?
    ensures Inv(cfg, HandleFragment(cfg, s, e), true)
  {
    hide Inv, Deliver, Fail, Concat;
    var part := if e.first then Partial([e.data], e.text) else Partial(s.part.frames + [e.data], s.part.text);
    Assembly(cfg, s, part);
    Assembly(cfg, s, Partial([], part.text));
    if !e.fin {
    } else if s.closeSent {
    } else if part.text && !e.decodes {
      FailOk(cfg, s.(part := Partial([], part.text)), 1007, true);
    } else {
      DeliverOk(cfg, s.(part := part));
    }
  }

  lemma WsprotoFragmentOk(cfg: Config, s: Conn, e: Event)
    requires Inv(cfg, s, true) && s.peer.requested && !s.peer.closed && e.Fragment? && cfg.library.Wsproto?
        && !s.closeSent
    ensures Inv(cfg, HandleFragment(cfg, s, e), true)
  {
    hide Inv, Deliver, Fail, Concat;
    var part := Partial(s.part.frames + [e.data], if s.part.frames == [] then e.text else s.part.text);
    Assembly(cfg, s, part);
    if |Concat(part.frames)| > cfg.maxSize {
      FailOk(cfg, s.(part := part), 1009, true);
    } else if e.fin {
      DeliverOk(cfg, s.(part := part));
    }
  }

  /** A message being assembled is not yet visible. */
  lemma Assembly(cfg: Config, s: Conn, part: Partial)
    requires Inv(cfg, s, true)
    ensures Inv(cfg, s.(part := part), true)
  {
    hide InLanguage, Suffix, OneRead, HasMessage, Over, TimersOk;
  }

  lemma PongOk(cfg: Config, s: Conn, payload: Bytes)
    requires Inv(cfg, s, true) && s.peer.requested
    ensures Inv(cfg, HandlePong(s, payload), true)
  {
    hide InLanguage, Suffix, OneRead, HasMessage, Over, TimersOk, Ponged;
    PongedOk(s.timers, s.closing);
    CloseStays(s.timers, s.closing);
  }

  /** Answering a ping leaves the close timer alone. */
  lemma CloseStays(t: Timers, closing: bool)
    requires TimersOk(t, closing)
    ensures Holds(t, t.close, CloseTimer) ==> Holds(Ponged(t), t.close, CloseTimer)
  {
  }

  lemma CloseOk(cfg: Config, s: Conn, code: nat)
    requires Inv(cfg, s, true) && s.peer.requested
    ensures Inv(cfg, HandleClose(cfg, s, code), true)
  {
    hide InLanguage, Suffix, OneRead, HasMessage, Over, TimersOk, CancelClose;
    CancelCloseOk(s.timers, s.closing);
    ClosingOk(CancelClose(s.timers));
    ClosingOk(s.timers);
    PutDisconnect(s, code);
  }

  lemma EventOk(cfg: Config, s: Conn, e: Event)
    requires Inv(cfg, s, true) && e.Request? == !s.peer.requested && (e.Fragment? ==> !s.peer.closed)
    ensures var t := HandleEvent(cfg, s, e);
            Inv(cfg, t, true) && t.peer.requested && (t.peer.closed ==> s.peer.closed || e.Close?)
  {
    hide Inv, HandleConnect, HandleFragment, HandlePong, HandleClose;
    if e.Request? { NotOver(cfg, s); }
    HistoryOf(cfg, s, e);
    match e {
      case Request(ok) =>
        ConnectOk(cfg, s, ok);
      case Fragment(_, _, _, _, _) =>
        if cfg.library.Sansio? { SansioFragmentOk(cfg, s, e); } else if !s.closeSent { WsprotoFragmentOk(cfg, s, e); }
      case Ping =>
      case Pong(payload) => PongOk(cfg, s, payload);
      case Close(code) => CloseOk(cfg, s, code);
    }
  }

  lemma NotOver(cfg: Config, s: Conn)
    requires Inv(cfg, s, true) && !s.peer.requested
    ensures !s.closeSent
  {
  }

  predicate SamePeer(s: Conn, t: Conn) { t.peer == s.peer }

  lemma FragmentHistory(cfg: Config, s: Conn, e: Event)
    requires e.Fragment?
    ensures SamePeer(s, HandleFragment(cfg, s, e))
  {
    hide Concat, Deliver, Fail, SamePeer;
    var part := if e.first then Partial([e.data], e.text) else Partial(s.part.frames + [e.data], s.part.text);
    var joined := Partial(s.part.frames + [e.data], if s.part.frames == [] then e.text else s.part.text);
    PeerKept(s, part);
    PeerKept(s, Partial([], part.text));
    PeerKept(s, joined);
  }

  lemma PeerKept(s: Conn, part: Partial)
    ensures SamePeer(s, s.(part := part)) && SamePeer(s, Deliver(s.(part := part)))
    ensures SamePeer(s, Fail(s.(part := part), 1007)) && SamePeer(s, Fail(s.(part := part), 1009))
  {
    hide Concat, Push;
  }

  lemma HistoryOf(cfg: Config, s: Conn, e: Event)
    requires e.Request? && cfg.library.Wsproto? ==> !s.closeSent
    ensures var t := HandleEvent(cfg, s, e);
            t.peer.requested == (s.peer.requested || e.Request?) && (t.peer.closed ==> s.peer.closed || e.Close?)
  {
    hide HandleFragment, Ponged, CancelClose;
    if e.Fragment? { FragmentHistory(cfg, s, e); }
  }

  lemma {:induction false} EventsOkAll(cfg: Config, s: Conn, es: seq<Event>, peerClosed: bool)
    requires Inv(cfg, s, true) && Legal(s.peer.requested, peerClosed, es) && (s.peer.closed ==> peerClosed)
    ensures Inv(cfg, HandleEvents(cfg, s, es), true)
    decreases |es|
  {
    hide Inv, HandleEvent;
    if es != [] {
      EventOk(cfg, s, es[0]);
      EventsOkAll(cfg, HandleEvent(cfg, s, es[0]), es[1..], peerClosed || es[0].Close?);
    }
  }

  // ---------- reads ----------

  /** At the end of a read nothing of its start matters any more. */
  lemma Between(cfg: Config, s: Conn)
    requires Inv(cfg, s, true)
    ensures Inv(cfg, s, false)
  {
    hide InLanguage, Suffix, OneRead, HasMessage, Over, TimersOk;
  }

  lemma ReadStarts(cfg: Config, s: Conn)
    requires Inv(cfg, s, false) && !s.closing && !s.readPaused
    ensures Inv(cfg, s.(peer := s.peer.(readCount := s.peer.readCount + 1)), true)
  {
    hide InLanguage, Suffix, OneRead, HasMessage, Over, TimersOk;
    OneReadKeeps(s.inbox.queue, s.closeSent, s.peer.readCount);
  }

  lemma CloseTransport(cfg: Config, s: Conn)
    requires Inv(cfg, s, false)
    ensures Inv(cfg, s.(closing := true), false)
  {
    hide InLanguage, Suffix, OneRead, HasMessage, Over, TimersOk;
    ClosingOk(s.timers);
  }

  lemma FeedOk(cfg: Config, s: Conn, es: seq<Event>, broken: Option<nat>)
    requires Inv(cfg, s, false) && !s.closing && !s.readPaused && Legal(s.peer.requested, s.peer.closed, es)
    ensures Inv(cfg, Feed(cfg, s, es, broken), false)
  {
    hide Inv, Fail, HandleEvents, Legal;
    var s1 := s.(peer := s.peer.(readCount := s.peer.readCount + 1));
    ReadStarts(cfg, s);
    match broken {
      case None =>
        EventsOkAll(cfg, s1, es, s.peer.closed);
        Between(cfg, HandleEvents(cfg, s1, es));
      case Some(code) =>
        Between(cfg, s1);
        FailOk(cfg, s1, code, false);
        CloseTransport(cfg, s1);
    }
  }

  // ---------- the application ----------

  lemma HandshakeOk(cfg: Config, s: Conn, m: Message)
    requires Inv(cfg, s, false) && s.peer.requested && !s.handshake && !s.disconnected
    ensures Inv(cfg, SendHandshake(cfg, s, m).conn, false)
  {
    hide InLanguage, Suffix, OneRead, HasMessage, Over, TimersOk, Fail;
    if m.CloseMessage? {
      FailOk(cfg, s, 1006, false);
      hide StartKeepalive;
      assert Fail(s, 1006).closing && Fail(s, 1006).timers == s.timers by { FailedIs(s, 1006); }
    } else if m.Accept? && !s.closing && cfg.keepalive {
      SchedulePingOk(s.timers, s.closing);
      PingKeepsClose(s.timers, s.closing);
    }
  }

  lemma FailedIs(s: Conn, code: nat)
    ensures var t := Fail(s, code); t.closing && t.closeSent && t.timers == s.timers
  {
  }

  lemma PingKeepsClose(t: Timers, closing: bool)
    requires TimersOk(t, closing)
    ensures Holds(t, t.close, CloseTimer) ==> Holds(SchedulePing(t), t.close, CloseTimer)
  {
  }

  lemma StartCloseOk(cfg: Config, s: Conn, code: nat)
    requires Inv(cfg, s, false) && s.peer.requested && !s.closeSent && !s.closing && !s.disconnected
    ensures Inv(cfg, StartClose(Write(Put(s, Disconnect(code)), CloseFrame(code))), false)
  {
    hide InLanguage, Suffix, OneRead, HasMessage, Over, TimersOk, ScheduleClose;
    PutDisconnect(s, code);
    OneReadKeeps(Put(s, Disconnect(code)).inbox.queue, s.closeSent, s.peer.readCount);
    ScheduleCloseOk(s.timers, s.closing);
    assert ScheduleClose(s.timers).ping == s.timers.ping && ScheduleClose(s.timers).pong == s.timers.pong
           && Holds(ScheduleClose(s.timers), ScheduleClose(s.timers).close, CloseTimer) by { Scheduled(s.timers); }
  }

  lemma Scheduled(t: Timers)
    ensures var u := ScheduleClose(t); u.ping == t.ping && u.pong == t.pong && Holds(u, u.close, CloseTimer)
  {
  }

  /** What has been written is history. */
  lemma WrittenOk(cfg: Config, s: Conn, wrote: seq<Out>)
    requires Inv(cfg, s, false)
    ensures Inv(cfg, s.(wrote := wrote), false)
  {
    hide InLanguage, Suffix, OneRead, HasMessage, Over, TimersOk;
  }

  lemma SendOpenOk(cfg: Config, s: Conn, m: Message)
    requires Inv(cfg, s, false) && s.peer.requested && !s.closeSent && !s.disconnected && MayRefuse(s, m)
    ensures Inv(cfg, SendOpen(cfg, s, m).conn, false)
  {
    hide InLanguage, Suffix, OneRead, HasMessage, Over, TimersOk, StartClose;
    if m.SendMessage? {
      WrittenOk(cfg, s, SendData(cfg, s, m.bytes, m.text).wrote);
    } else if m.CloseMessage? {
      if !s.closing {
        StartCloseOk(cfg, s, m.code);
      } else if cfg.library.Wsproto? {
        PutDisconnect(s, m.code);
        OneReadKeeps(Put(s, Disconnect(m.code)).inbox.queue, s.closeSent, s.peer.readCount);
      }
    }
  }

  lemma SendKeeps(cfg: Config, s: Conn, m: Message)
    requires Inv(cfg, s, false) && s.peer.requested && MayRefuse(s, m)
    ensures Inv(cfg, Send(cfg, s, m).conn, false)
  {
    hide Inv, SendHandshake, SendOpen, Fail;
    if s.disconnected {
    } else if !s.handshake && (cfg.library.Wsproto? || !s.denial) {
      HandshakeOk(cfg, s, m);
    } else if !s.closeSent && !s.denial {
      SendOpenOk(cfg, s, m);
    } else if s.denial && m.ResponseBody? {
      FailOk(cfg, s, 1006, false);
    }
  }

  lemma TakeEventOk(cfg: Config, s: Conn)
    requires Inv(cfg, s, false) && s.inbox.queue != []
    ensures Inv(cfg, TakeEvent(s), false)
  {
    hide InLanguage, OneRead, Over, TimersOk, HasMessage, Suffix;
    assert s.inbox.queue[1..] == [] ==> !HasMessage(s.inbox.queue[1..]) by { NoMessage(); }
    OneReadKeeps(s.inbox.queue, s.closeSent, s.peer.readCount);
    RestOf(s.inbox.queue, s.inbox.log);
  }

  lemma NoMessage()
    ensures !HasMessage([])
  {
  }

  lemma RestOf(queue: seq<AppEvent>, log: seq<AppEvent>)
    requires queue != [] && Suffix(queue, log)
    ensures Suffix(queue[1..], log) && (HasMessage(queue[1..]) ==> HasMessage(queue))
  {
    var rest := queue[1..];
    if HasMessage(rest) {
      var i :| 0 <= i < |rest| && rest[i].Receive?;
      assert queue[i + 1].Receive?;
    }
    assert log[|log| - |rest|..] == log[|log| - |queue|..][1..];
  }

  lemma AppEndsOk(cfg: Config, s: Conn)
    requires Inv(cfg, s, false) && s.peer.requested
    ensures Inv(cfg, AppEnds(s), false)
  {
    hide InLanguage, Suffix, OneRead, HasMessage, Over;
    ClosingOk(s.timers);
  }

  // ---------- timers and the end ----------

  lemma PingFiresTimers(t: Timers, closing: bool, h: nat)
    requires TimersOk(t, closing) && h in t.live && t.live[h] == PingTimer
    ensures t.ping == Some(h) && t.pong.None?
    ensures var u := t.(ping := None, live := t.live - {h});
            TimersOk(u, closing) && (Holds(t, t.close, CloseTimer) ==> Holds(u, u.close, CloseTimer))
  {
  }

  lemma PingFiresOk(cfg: Config, s: Conn, h: nat, payload: Bytes)
    requires Inv(cfg, s, false) && h in s.timers.live && s.timers.live[h] == PingTimer
    ensures Inv(cfg, PingFires(cfg, s, h, payload), false)
  {
    hide InLanguage, Suffix, OneRead, HasMessage, Over, TimersOk, SchedulePing, SchedulePong;
    PingFiresTimers(s.timers, s.closing, h);
    var u := s.timers.(ping := None, live := s.timers.live - {h});
    Rearmed(u.(pending := Some(payload)), s.closing);
    assert TimersOk(u.(pending := Some(payload)), s.closing) by { PendingOk(u, s.closing, payload); }
  }

  lemma PendingOk(t: Timers, closing: bool, payload: Bytes)
    requires TimersOk(t, closing)
    ensures TimersOk(t.(pending := Some(payload)), closing)
  {
  }

  lemma Rearmed(t: Timers, closing: bool)
    ensures TimersOk(t, closing) && t.ping.None? && t.pong.None? && t.pending.Some? ==>
      && TimersOk(SchedulePing(t), closing) && TimersOk(SchedulePong(t), closing)
      && SchedulePing(t).close == SchedulePong(t).close == t.close
      && SchedulePing(t).ping.Some? && SchedulePong(t).pong.Some?
      && (Holds(t, t.close, CloseTimer) ==>
            Holds(SchedulePing(t), t.close, CloseTimer) && Holds(SchedulePong(t), t.close, CloseTimer))
  {
  }

  lemma PongFiresTimers(t: Timers, closing: bool, h: nat)
    requires TimersOk(t, closing) && h in t.live && t.live[h] == PongTimer
    ensures t.pong == Some(h) && t.ping.None?
    ensures var u := t.(pong := None, pending := None, live := t.live - {h});
            && TimersOk(u, closing) && TimersOk(u, true)
                && (Holds(t, t.close, CloseTimer) ==> Holds(u, u.close, CloseTimer))
  {
  }

  lemma PongFiresOk(cfg: Config, s: Conn, h: nat)
    requires Inv(cfg, s, false) && h in s.timers.live && s.timers.live[h] == PongTimer
    ensures Inv(cfg, PongFires(s, h), false)
  {
    hide InLanguage, Suffix, OneRead, HasMessage, Over, TimersOk;
    PongFiresTimers(s.timers, s.closing, h);
    OneReadKeeps(s.inbox.queue, s.closeSent, s.peer.readCount);
    assert s.handshake;
  }

  lemma CloseFiresTimers(t: Timers, closing: bool, h: nat)
    requires TimersOk(t, closing) && h in t.live && t.live[h] == CloseTimer
    ensures TimersOk(t.(live := t.live - {h}), true)
  {
  }

  lemma CloseFiresOk(cfg: Config, s: Conn, h: nat)
    requires Inv(cfg, s, false) && h in s.timers.live && s.timers.live[h] == CloseTimer
    ensures Inv(cfg, CloseFires(s, h), false)
  {
    hide InLanguage, Suffix, OneRead, HasMessage, Over, TimersOk;
    CloseFiresTimers(s.timers, s.closing, h);
  }

  lemma EndTimers(t: Timers, closing: bool)
    requires TimersOk(t, closing)
    ensures var u := StopKeepalive(t);
            && TimersOk(u, true) && u.ping.None? && u.pong.None? && u.close == t.close
            && TimersOk(CancelClose(u), true) && CancelClose(u).ping.None? && CancelClose(u).pong.None?
            && CancelClose(u).close.None? && CancelClose(u).live == map[]
            && (t.live == map[] ==> u.live == map[])
  {
    StopKeepaliveOk(t, closing);
    ClosingOk(StopKeepalive(t));
    CancelCloseOk(StopKeepalive(t), true);
    hide StopKeepalive;
    assert CancelClose(StopKeepalive(t)).live.Keys == {};
  }

  lemma ShutdownOk(cfg: Config, s: Conn)
    requires Inv(cfg, s, false)
    ensures Inv(cfg, DoShutdown(s), false)
  {
    hide InLanguage, Suffix, OneRead, HasMessage, Over, TimersOk, StopKeepalive, CancelClose;
    EndTimers(s.timers, s.closing);
    PutDisconnect(s, 1012);
  }

  lemma LoseOk(cfg: Config, s: Conn)
    requires Inv(cfg, s, false)
    ensures Inv(cfg, Lose(s), false)
  {
    hide InLanguage, Suffix, OneRead, HasMessage, Over, TimersOk, StopKeepalive, CancelClose;
    EndTimers(s.timers, s.closing);
    PutDisconnect(s, 1005);
    PutDisconnect(s, 1006);
  }

  // ---------- steps and runs ----------

  lemma AppRuns(cfg: Config, s: Conn)
    requires Inv(cfg, s, false) && s.app == Running
    ensures s.peer.requested
  {
  }

  lemma StepKeepsInv(cfg: Config, s: Conn, e: Step)
    requires Inv(cfg, s, false) && Enabled(s, e)
    ensures Inv(cfg, Take(cfg, s, e), false)
  {
    hide Inv, Feed, Send, TakeEvent, AppEnds, PingFires, PongFires, CloseFires, DoShutdown, Lose, Legal;
    if s.app == Running { AppRuns(cfg, s); }
    match e {
      case DataReceived(events, broken) => FeedOk(cfg, s, events, broken);
      case AppSends(m) => SendKeeps(cfg, s, m);
      case AppReceives => TakeEventOk(cfg, s);
      case AppEnded => AppEndsOk(cfg, s);
      case Timer(h, payload) =>
        match s.timers.live[h] {
          case PingTimer => PingFiresOk(cfg, s, h, payload);
          case PongTimer => PongFiresOk(cfg, s, h);
          case CloseTimer => CloseFiresOk(cfg, s, h);
        }
      case Shutdown => ShutdownOk(cfg, s);
      case ConnectionLost => LoseOk(cfg, s);
    }
  }
}
