/** What each event does to a WebSocket connection in any state that a run can reach: how it ends, what the application
    is told of it, and what a ping that is not answered leads to. */
module WebSocketEvents {
  import opened Text
  import opened WebSocketSpec
  import opened WebSocketMachine
  import opened WebSocketRuns

  predicate Live(s: Conn, k: Kind) { exists h :: h in s.timers.live && s.timers.live[h] == k }

  /** Timers and what is in the queue are as they were. */
  predicate OnlyCloses(s: Conn, t: Conn) { t.inbox == s.inbox && t.closing }

  lemma TimersOf(cfg: Config, es: seq<Step>)
    requires Runs(cfg, FRESH, es)
    ensures var s := Run(cfg, FRESH, es);
            && TimersOk(s.timers, s.closing) && (s.disconnected ==> s.timers.live == map[])
            && (s.timers.close.Some? ==> s.closeSent)
            && (s.closeSent && !s.closing ==> Holds(s.timers, s.timers.close, CloseTimer))
  {
    hide EventsOk, ReadsOk, TimersOk, Run, Runs;
    Reached(cfg, es);
  }

  // ---------- keep-alive ----------

  /** A ping whose deadline passes without its answer ends an open connection: the close is sent and the transport
      closes; if the close had been sent before, the close timer will close it. */
  lemma UnansweredPingCloses(cfg: Config, es: seq<Step>, h: nat, payload: Bytes)
    requires Runs(cfg, FRESH, es)
    requires var s := Run(cfg, FRESH, es); h in s.timers.live && s.timers.live[h] == PongTimer && !s.closing
    ensures var s := Run(cfg, FRESH, es); var t := Take(cfg, s, Timer(h, payload));
            && t.closeSent && !Live(t, PongTimer) && t.inbox == s.inbox
            && if s.closeSent then Live(t, CloseTimer) else t.closing
  {
    hide Run, Runs;
    TimersOf(cfg, es);
    var s := Run(cfg, FRESH, es);
    if s.closeSent { assert s.timers.close.value in Take(cfg, s, Timer(h, payload)).timers.live; }
  }

  /** Every ping is given a payload to be answered with; with a timeout its deadline is armed, without one the next
      ping is; on a connection that is ending nothing is sent and nothing armed. */
  lemma PingIsSent(cfg: Config, es: seq<Step>, h: nat, payload: Bytes)
    requires Runs(cfg, FRESH, es)
    requires var s := Run(cfg, FRESH, es); h in s.timers.live && s.timers.live[h] == PingTimer
    ensures var s := Run(cfg, FRESH, es); var t := Take(cfg, s, Timer(h, payload));
            && t == s.(timers := t.timers)
            && if s.closeSent || s.closing then !Live(t, PingTimer) && !Live(t, PongTimer)
               else t.timers.pending == Some(payload)
                    && Live(t, if cfg.deadline then PongTimer else PingTimer)
                    && !Live(t, if cfg.deadline then PingTimer else PongTimer)
  {
    hide Run, Runs;
    TimersOf(cfg, es);
    var s := Run(cfg, FRESH, es);
    var t := Take(cfg, s, Timer(h, payload));
    if !s.closeSent && !s.closing { assert s.timers.next in t.timers.live; }
  }

  /** The answer to the ping in flight cancels its deadline and arms the next ping; any other changes no timer. */
  lemma PongIsMatched(cfg: Config, es: seq<Step>, payload: Bytes)
    requires Runs(cfg, FRESH, es) && Enabled(Run(cfg, FRESH, es), DataReceived([Pong(payload)], None))
    ensures var s := Run(cfg, FRESH, es); var t := Take(cfg, s, DataReceived([Pong(payload)], None));
            && t.inbox == s.inbox && t.closing == s.closing && t.closeSent == s.closeSent
            && if s.timers.pending == Some(payload) && !(cfg.library.Wsproto? && s.closeSent)
               then t.timers.pending.None? && !Live(t, PongTimer) && (Live(s, PongTimer) ==> Live(t, PingTimer))
               else t.timers == s.timers
  {
    hide Run, Runs, Legal;
    TimersOf(cfg, es);
    var s := Run(cfg, FRESH, es);
    OneEvent(cfg, s.(peer := s.peer.(readCount := s.peer.readCount + 1)), Pong(payload));
    var t := Take(cfg, s, DataReceived([Pong(payload)], None));
    if s.timers.pending == Some(payload) && s.timers.pong.Some? && t.timers != s.timers {
      assert s.timers.next in t.timers.live;
    }
  }

  lemma OneEvent(cfg: Config, s: Conn, e: Event)
    ensures HandleEvents(cfg, s, [e]) == HandleEvent(cfg, s, e)
  {
    hide HandleEvent;
    assert [e][1..] == [];
  }

  // ---------- the end of a connection ----------

  /** The close timer closes the transport. */
  lemma CloseTimerCloses(cfg: Config, es: seq<Step>, h: nat, payload: Bytes)
    requires Runs(cfg, FRESH, es)
    requires var s := Run(cfg, FRESH, es); h in s.timers.live && s.timers.live[h] == CloseTimer
    ensures var s := Run(cfg, FRESH, es); OnlyCloses(s, Take(cfg, s, Timer(h, payload)))
  {
    hide Run, Runs;
  }

  /** A lost connection is announced, as abnormal (1006) if it never was a WebSocket, and nothing is left armed. */
  lemma LossIsAnnounced(cfg: Config, es: seq<Step>)
    requires Runs(cfg, FRESH, es) && Enabled(Run(cfg, FRESH, es), ConnectionLost)
    ensures var s := Run(cfg, FRESH, es); var t := Take(cfg, s, ConnectionLost);
            && t.inbox == Push(s.inbox, Disconnect(if s.handshake then 1005 else 1006))
            && t.disconnected && t.closing && t.timers.live == map[]
  {
    hide Run, Runs;
    TimersOf(cfg, es);
    var s := Run(cfg, FRESH, es);
    var t := Take(cfg, s, ConnectionLost);
    forall h ensures h !in t.timers.live { if h in s.timers.live {} }
  }

  /** A server that shuts down closes the connection, tells the application of an open WebSocket that the service
      restarts (1012), and leaves nothing armed. */
  lemma ShutdownIsAnnounced(cfg: Config, es: seq<Step>)
    requires Runs(cfg, FRESH, es)
    ensures var s := Run(cfg, FRESH, es); var t := Take(cfg, s, Shutdown);
            && t.inbox == (if s.handshake && !s.closeSent then Push(s.inbox, Disconnect(1012)) else s.inbox)
            && t.closing && t.closeSent == s.closeSent && t.timers.live == map[]
  {
    hide Run, Runs;
    TimersOf(cfg, es);
    var s := Run(cfg, FRESH, es);
    var t := Take(cfg, s, Shutdown);
    forall h ensures h !in t.timers.live { if h in s.timers.live {} }
  }

  /** The peer's close frame closes the transport; the application is told its code, unless it has closed itself. */
  lemma PeerCloseIsAnnounced(cfg: Config, es: seq<Step>, code: nat)
    requires Runs(cfg, FRESH, es) && Enabled(Run(cfg, FRESH, es), DataReceived([Close(code)], None))
    ensures var s := Run(cfg, FRESH, es); var t := Take(cfg, s, DataReceived([Close(code)], None));
            && t.closing && t.closeSent == s.closeSent && !Live(t, CloseTimer)
            && t.inbox == if s.closeSent then s.inbox else Push(s.inbox, Disconnect(code))
  {
    hide Run, Runs, Legal;
    TimersOf(cfg, es);
    var s := Run(cfg, FRESH, es);
    OneEvent(cfg, s.(peer := s.peer.(readCount := s.peer.readCount + 1)), Close(code));
  }

  /** The sans-I/O implementation ignores a second close frame in the same read. */
  lemma SecondCloseIsIgnored(cfg: Config, es: seq<Step>, code: nat, again: nat)
    requires Runs(cfg, FRESH, es) && Enabled(Run(cfg, FRESH, es), DataReceived([Close(code), Close(again)], None))
    requires cfg.library.Sansio?
    ensures var s := Run(cfg, FRESH, es);
            Take(cfg, s, DataReceived([Close(code), Close(again)], None)) == Feed(cfg, s, [Close(code)], None)
  {
    hide Run, Runs, Legal;
    TimersOf(cfg, es);
    var s := Run(cfg, FRESH, es);
    var s1 := s.(peer := s.peer.(readCount := s.peer.readCount + 1));
    assert [Close(code), Close(again)][1..] == [Close(again)];
    OneEvent(cfg, s1, Close(code));
    OneEvent(cfg, HandleEvent(cfg, s1, Close(code)), Close(again));
  }

  /** A protocol error closes the transport; the sans-I/O implementation tells the application the code that the
      library chose, the other leaves that to the loss of the connection. */
  lemma ProtocolErrorCloses(cfg: Config, es: seq<Step>, events: seq<Event>, code: nat)
    requires Runs(cfg, FRESH, es) && Enabled(Run(cfg, FRESH, es), DataReceived(events, Some(code)))
    ensures var s := Run(cfg, FRESH, es); var t := Take(cfg, s, DataReceived(events, Some(code)));
            && t.closing
            && t.inbox == if cfg.library.Sansio? then Push(s.inbox, Disconnect(code)) else s.inbox
  {
    hide Run, Runs, Legal, HandleEvents;
  }

  /** A finished application leaves the transport closing, unless the close timer will close it. */
  lemma EndedAppCloses(cfg: Config, es: seq<Step>)
    requires Runs(cfg, FRESH, es) && Enabled(Run(cfg, FRESH, es), AppEnded)
    ensures var s := Run(cfg, FRESH, es); var t := Take(cfg, s, AppEnded);
            && t.inbox == s.inbox && t.app == Ended && (t.closing || Live(t, CloseTimer))
            && (s.closeSent && !s.closing ==> !t.closing)
  {
    hide Run, Runs;
    TimersOf(cfg, es);
    var s := Run(cfg, FRESH, es);
    if s.closeSent && !s.closing { assert s.timers.close.value in s.timers.live; }
  }

  // ---------- the handshake ----------

  /** The handshake request starts the application, which is told first of all that there is a connection; a request
      that the sans-I/O library refuses closes the transport instead. */
  lemma RequestStartsApp(cfg: Config, es: seq<Step>, ok: bool)
    requires Runs(cfg, FRESH, es) && Enabled(Run(cfg, FRESH, es), DataReceived([Request(ok)], None))
    ensures var s := Run(cfg, FRESH, es); var t := Take(cfg, s, DataReceived([Request(ok)], None));
            if cfg.library.Sansio? && !ok then t.app == NotStarted && OnlyCloses(s, t)
            else t.app == Running && !t.handshake && !t.closing && t.inbox == Inbox([Connect], [Connect])
  {
    hide Run, Runs;
    NothingBefore(cfg, es, ok);
    hide Legal;
    var s := Run(cfg, FRESH, es);
    OneEvent(cfg, s.(peer := s.peer.(readCount := s.peer.readCount + 1)), Request(ok));
  }

  lemma NothingBefore(cfg: Config, es: seq<Step>, ok: bool)
    requires Runs(cfg, FRESH, es) && Enabled(Run(cfg, FRESH, es), DataReceived([Request(ok)], None))
    ensures var s := Run(cfg, FRESH, es);
            s.inbox == Inbox([], []) && !s.handshake && !s.closeSent && !s.closing && s.app == NotStarted
  {
    hide Run, Runs, TimersOk, ReadsOk, InLanguage;
    Reached(cfg, es);
  }

  // ---------- what the application sends ----------

  /** The three phases of a connection that is not lost. */
  predicate Handshaking(s: Conn) { !s.disconnected && !s.handshake && !s.denial }

  predicate Open(s: Conn) { !s.disconnected && s.handshake && !s.denial && !s.closeSent }

  predicate Denying(s: Conn) { !s.disconnected && s.denial }

  lemma PhasesOf(cfg: Config, es: seq<Step>, m: Message)
    requires Runs(cfg, FRESH, es)
    ensures var s := Run(cfg, FRESH, es); var r := Send(cfg, s, m);
            && (Handshaking(s) ==> r == SendHandshake(cfg, s, m))
            && (Open(s) ==> r == SendOpen(cfg, s, m))
            && (Denying(s) ==> r == SendDenial(s, m))
            && (!Handshaking(s) && !Open(s) && !Denying(s) ==> r == Sent(s, true))
  {
    hide Run, Runs, TimersOk, ReadsOk, EventsOk, SendHandshake, SendOpen, SendDenial;
    Reached(cfg, es);
  }

  /** `send` raises for a message that is out of place, for one that the library refuses, and always once the
      connection is lost or the close has been sent. */
  lemma RaisesExactly(cfg: Config, es: seq<Step>, m: Message)
    requires Runs(cfg, FRESH, es)
    ensures var s := Run(cfg, FRESH, es);
            !Send(cfg, s, m).raised <==>
            || (Handshaking(s) && (m.Accept? || m.CloseMessage? || (m.ResponseStart? && 100 <= m.status < 600)))
            || (Open(s) && m.SendMessage? && !m.refused)
            || (Open(s) && m.CloseMessage? && (!m.refused || (cfg.library.Sansio? && s.closing)))
            || (Denying(s) && m.ResponseBody?)
    ensures Send(cfg, Run(cfg, FRESH, es), m).raised && !(m.CloseMessage? && m.refused) ==>
              Send(cfg, Run(cfg, FRESH, es), m).conn == Run(cfg, FRESH, es)
  {
    hide Run, Runs, Fail, StartClose, Put, StartKeepalive;
    PhasesOf(cfg, es, m);
    hide Send;
  }

  /** Accepting completes the handshake and arms the first ping; on a connection that is closing it does nothing. */
  lemma AcceptOpens(cfg: Config, es: seq<Step>)
    requires Runs(cfg, FRESH, es) && Enabled(Run(cfg, FRESH, es), AppSends(Accept)) && Handshaking(Run(cfg, FRESH, es))
    ensures var s := Run(cfg, FRESH, es); var t := Take(cfg, s, AppSends(Accept));
            if s.closing then t == s
            else t.handshake && t.inbox == s.inbox && !t.closing && (Live(t, PingTimer) <==> cfg.keepalive)
  {
    hide Run, Runs;
    TimersOf(cfg, es);
    PhasesOf(cfg, es, Accept);
    hide Send;
    var s := Run(cfg, FRESH, es);
    NoPingBefore(cfg, es);
    if cfg.keepalive && !s.closing { assert s.timers.next in Take(cfg, s, AppSends(Accept)).timers.live; }
  }

  lemma NoPingBefore(cfg: Config, es: seq<Step>)
    requires Runs(cfg, FRESH, es) && !Run(cfg, FRESH, es).handshake
    ensures !Live(Run(cfg, FRESH, es), PingTimer) && !Live(Run(cfg, FRESH, es), PongTimer)
  {
    hide Run, Runs, ReadsOk, EventsOk;
    Reached(cfg, es);
  }

  /** Closing before the handshake refuses it, and a denial response that is complete ends it: either closes the
      transport, and the application is told that there is no WebSocket (1006). */
  lemma RefusalIsAnnounced(cfg: Config, es: seq<Step>, m: Message)
    requires Runs(cfg, FRESH, es)
    requires var s := Run(cfg, FRESH, es);
             (m.CloseMessage? && Handshaking(s)) || (m == ResponseBody(false) && Denying(s))
    ensures var s := Run(cfg, FRESH, es); var t := Send(cfg, s, m).conn;
            t.inbox == Push(s.inbox, Disconnect(1006)) && t.closing && t.closeSent
            && (m.CloseMessage? ==> forall n :: Send(cfg, t, n) == Sent(t, true))
  {
    hide Run, Runs;
    PhasesOf(cfg, es, m);
    var t := Send(cfg, Run(cfg, FRESH, es), m).conn;
    if m.CloseMessage? {
      NothingAfterRefusal(cfg, t);
    }
    hide Send;
  }

  lemma NothingAfterRefusal(cfg: Config, t: Conn)
    requires t.handshake && t.closeSent && !t.denial
    ensures forall n :: Send(cfg, t, n) == Sent(t, true)
  {
  }

  /** Starting a response instead of accepting turns the connection into a denial; until the response is complete
      nothing else changes, but that the `wsproto` implementation takes the handshake to be over. */
  lemma DenialStarts(cfg: Config, es: seq<Step>, status: int)
    requires Runs(cfg, FRESH, es) && Handshaking(Run(cfg, FRESH, es)) && 100 <= status < 600
    ensures var s := Run(cfg, FRESH, es); var t := Send(cfg, s, ResponseStart(status)).conn;
            && Denying(t) && t.inbox == s.inbox && t.closing == s.closing && t.timers == s.timers
            && (t.handshake <==> cfg.library.Wsproto?) && Send(cfg, t, ResponseBody(true)).conn == t
  {
    hide Run, Runs;
    PhasesOf(cfg, es, ResponseStart(status));
  }

  /** The application's close of an open connection: its own code comes back to it, reads are active so that the
      peer's close can arrive, and the close timer bounds the wait; the transport is not closed yet. */
  lemma AppCloseStartsHandshake(cfg: Config, es: seq<Step>, code: nat)
    requires Runs(cfg, FRESH, es) && Open(Run(cfg, FRESH, es)) && !Run(cfg, FRESH, es).closing
    ensures var s := Run(cfg, FRESH, es); var t := Send(cfg, s, CloseMessage(code, false)).conn;
            && t.inbox == Push(s.inbox, Disconnect(code)) && t.closeSent && !t.closing && !t.readPaused
            && Live(t, CloseTimer)
  {
    hide Run, Runs;
    PhasesOf(cfg, es, CloseMessage(code, false));
    hide Send;
    var s := Run(cfg, FRESH, es);
    assert s.timers.next in SendOpen(cfg, s, CloseMessage(code, false)).conn.timers.live;
  }

  /** The oldest event is taken, and reads resume when there is no other. */
  lemma ReceiveTakesOldest(cfg: Config, es: seq<Step>)
    requires Runs(cfg, FRESH, es) && Enabled(Run(cfg, FRESH, es), AppReceives)
    ensures var s := Run(cfg, FRESH, es); var t := Take(cfg, s, AppReceives);
            && [s.inbox.queue[0]] + t.inbox.queue == s.inbox.queue && t.inbox.log == s.inbox.log
            && (t.readPaused <==> s.readPaused && t.inbox.queue != [])
            && t.timers == s.timers && t.closing == s.closing && t.closeSent == s.closeSent
  {
    hide Run, Runs;
  }

  // ---------- what the peer is sent ----------

  /** What a message makes `send` write: a message's bytes, or else its text, and the close frame. */
  function Writes(cfg: Config, s: Conn, m: Message): seq<Out> {
    if !Open(s) then []
    else
      match m
      case SendMessage(bytes, text, refused) =>
        if refused || (cfg.library.Wsproto? && s.closing) then []
        else if bytes.Some? then [DataFrame(false, bytes.value)]
        else if text.Some? then [DataFrame(true, text.value)]
        else []
      case CloseMessage(code, refused) => if refused || s.closing then [] else [CloseFrame(code)]
      case _ => []
  }

  /** The same of every message that the application sends, in order. */
  ghost function Written(cfg: Config, s: Conn, es: seq<Step>): seq<Out>
    requires Runs(cfg, s, es)
    decreases |es|
  {
    if es == [] then []
    else
      var rest := Written(cfg, Take(cfg, s, es[0]), es[1..]);
      if es[0].AppSends? then Writes(cfg, s, es[0].message) + rest else rest
  }

  predicate WritesNothing(s: Conn, t: Conn) { t.wrote == s.wrote && (s.closeSent ==> t.closeSent) }

  lemma FragmentWrites(cfg: Config, s: Conn, e: Event)
    requires e.Fragment?
    ensures WritesNothing(s, HandleFragment(cfg, s, e))
  {
    hide Concat, Push, Fail, Deliver;
    var first := Partial([e.data], e.text);
    var next := Partial(s.part.frames + [e.data], s.part.text);
    var joined := Partial(s.part.frames + [e.data], if s.part.frames == [] then e.text else s.part.text);
    PartWrites(s, if e.first then first else next);
    PartWrites(s, joined);
    PartWrites(s, Partial([], (if e.first then first else next).text));
  }

  lemma PartWrites(s: Conn, part: Partial)
    ensures WritesNothing(s, s.(part := part)) && WritesNothing(s, Deliver(s.(part := part)))
    ensures WritesNothing(s, Fail(s.(part := part), 1007)) && WritesNothing(s, Fail(s.(part := part), 1009))
  {
    hide Concat, Push;
  }

  lemma EventWrites(cfg: Config, s: Conn, e: Event)
    ensures WritesNothing(s, HandleEvent(cfg, s, e))
  {
    hide Ponged, CancelClose, HandleFragment, Push;
    if e.Fragment? { FragmentWrites(cfg, s, e); }
  }

  lemma {:induction false} EventsWrite(cfg: Config, s: Conn, es: seq<Event>)
    ensures WritesNothing(s, HandleEvents(cfg, s, es))
    decreases |es|
  {
    if es != [] {
      EventWrites(cfg, s, es[0]);
      hide HandleEvent;
      EventsWrite(cfg, HandleEvent(cfg, s, es[0]), es[1..]);
    }
  }

  lemma OthersWrite(cfg: Config, s: Conn, e: Step)
    requires Enabled(s, e) && !e.AppSends?
    ensures WritesNothing(s, Take(cfg, s, e))
  {
    hide HandleEvents, Legal, WebSocketSpec.StopKeepalive, CancelClose, SchedulePing, SchedulePong, Push;
    if e.DataReceived? {
      EventsWrite(cfg, s.(peer := s.peer.(readCount := s.peer.readCount + 1)), e.events);
    } else if e.Timer? {
    } else {
    }
  }

  lemma SendingWrites(cfg: Config, es: seq<Step>, m: Message)
    requires Runs(cfg, FRESH, es)
    ensures var s := Run(cfg, FRESH, es); var t := Send(cfg, s, m).conn;
            && t.wrote == s.wrote + Writes(cfg, s, m) && (s.closeSent ==> t.closeSent)
            && (m.CloseMessage? && Writes(cfg, s, m) != [] ==> t.closeSent)
  {
    hide Run, Runs, Push, ScheduleClose, StartKeepalive;
    PhasesOf(cfg, es, m);
    hide Send;
    var s := Run(cfg, FRESH, es);
    assert s.wrote + [] == s.wrote;
  }

  /** What an event makes `send` write. */
  function Says(cfg: Config, s: Conn, e: Step): seq<Out> { if e.AppSends? then Writes(cfg, s, e.message) else [] }

  /** One more step of a run. */
  lemma {:induction false} WrittenOne(cfg: Config, s: Conn, es: seq<Step>, e: Step)
    requires Runs(cfg, s, es + [e])
    ensures Runs(cfg, s, es) && Enabled(Run(cfg, s, es), e)
    ensures Run(cfg, s, es + [e]) == Take(cfg, Run(cfg, s, es), e)
    ensures Written(cfg, s, es + [e]) == Written(cfg, s, es) + Says(cfg, Run(cfg, s, es), e)
    decreases |es|
  {
    hide Enabled, Take, Writes;
    if es == [] {
      assert [] + [e] == [e] && [e][1..] == [];
    } else {
      assert (es + [e])[1..] == es[1..] + [e] && (es + [e])[0] == es[0];
      WrittenOne(cfg, Take(cfg, s, es[0]), es[1..], e);
    }
  }

  /** The peer is sent exactly the messages that the application sends while the connection is open, each once and in
      order, and at most one close frame, after which nothing is sent. */
  lemma {:induction false} MessagesReachPeer(cfg: Config, es: seq<Step>)
    requires Runs(cfg, FRESH, es)
    ensures var s := Run(cfg, FRESH, es);
            && s.wrote == Written(cfg, FRESH, es)
            && forall i :: 0 <= i < |s.wrote| && s.wrote[i].CloseFrame? ==> i == |s.wrote| - 1 && s.closeSent
    decreases |es|
  {
    hide Runs, Run, Enabled, Take, Send, Writes;
    if es == [] {
      NothingWritten(cfg);
    } else {
      var front, e := es[..|es| - 1], es[|es| - 1];
      assert front + [e] == es;
      WrittenOne(cfg, FRESH, front, e);
      MessagesReachPeer(cfg, front);
      var s := Run(cfg, FRESH, front);
      if e.AppSends? {
        SendingWrites(cfg, front, e.message);
        SendIs(cfg, s, e.message);
        OneAtMost(cfg, s, e.message);
      } else {
        OthersWrite(cfg, s, e);
      }
    }
  }

  lemma SendIs(cfg: Config, s: Conn, m: Message)
    requires Enabled(s, AppSends(m))
    ensures Take(cfg, s, AppSends(m)) == Send(cfg, s, m).conn
  {
    hide Send;
  }

  lemma OneAtMost(cfg: Config, s: Conn, m: Message)
    ensures var w := Writes(cfg, s, m);
            && |w| <= 1 && (w != [] ==> !s.closeSent)
            && (w != [] && w[0].CloseFrame? ==> m.CloseMessage?)
  {
  }

  lemma NothingWritten(cfg: Config)
    ensures Runs(cfg, FRESH, []) && Run(cfg, FRESH, []) == FRESH && Written(cfg, FRESH, []) == []
  {
  }
}
