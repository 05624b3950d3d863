/** Whole runs of a WebSocket connection, over either library: any reads, application steps, timers, shutdown and
    connection loss, in any order that the environment allows. */
module WebSocketRuns {
  import opened Text
  import opened WebSocketSpec
  import opened WebSocketMachine

  ghost predicate Runs(cfg: Config, s: Conn, es: seq<Step>)
    decreases |es|
  {
    es == [] || (Enabled(s, es[0]) && Runs(cfg, Take(cfg, s, es[0]), es[1..]))
  }

  ghost function Run(cfg: Config, s: Conn, es: seq<Step>): Conn
    requires Runs(cfg, s, es)
    decreases |es|
  {
    if es == [] then s else Run(cfg, Take(cfg, s, es[0]), es[1..])
  }

  lemma {:induction false} RunKeepsInv(cfg: Config, s: Conn, es: seq<Step>)
    requires Inv(cfg, s, false) && Runs(cfg, s, es)
    ensures Inv(cfg, Run(cfg, s, es), false)
    decreases |es|
  {
    if es != [] {
      hide Inv, Enabled, Take;
      StepKeepsInv(cfg, s, es[0]);
      RunKeepsInv(cfg, Take(cfg, s, es[0]), es[1..]);
    }
  }

  lemma Reached(cfg: Config, es: seq<Step>)
    requires Runs(cfg, FRESH, es)
    ensures Inv(cfg, Run(cfg, FRESH, es), false)
  {
    assert Inv(cfg, FRESH, false);
    hide Inv;
    RunKeepsInv(cfg, FRESH, es);
  }

  /** Everything queued for the application, in order, is (connect receive*)? disconnect*, whichever end came first;
      the queue is exactly what it has not taken yet; and a lost connection is always announced last. */
  lemma QueuedEventsInLanguage(cfg: Config, es: seq<Step>)
    requires Runs(cfg, FRESH, es)
    ensures var s := Run(cfg, FRESH, es); var log := s.inbox.log; var queue := s.inbox.queue;
            && (forall i, j :: 0 <= i < j < |log| && log[i].Disconnect? ==> log[j].Disconnect?)
            && (forall i :: 0 <= i < |log| && log[i].Connect? ==> i == 0)
            && (forall i :: 0 <= i < |log| && log[i].Receive? ==> log[0].Connect?)
            && |queue| <= |log| && log[|log| - |queue|..] == queue
            && (s.disconnected ==> log != [] && log[|log| - 1].Disconnect?)
  {
    hide ClocksOk, ReadsOk, Run, Runs;
    Reached(cfg, es);
  }

  /** Every live timer is one of the three stored handles, so no overwritten handle leaks; a stored ping or pong
      handle is live, a stored close handle is live unless it has closed the transport; ping and pong are never both
      armed; nothing is live once the connection is lost; and an application that has ended leaves the transport
      closing or a close timer that will close it. */
  lemma TimersAreTheStoredOnes(cfg: Config, es: seq<Step>)
    requires Runs(cfg, FRESH, es)
    ensures var s := Run(cfg, FRESH, es); var t := s.timers;
            && (forall h :: h in t.live ==> Some(h) == t.ping || Some(h) == t.pong || Some(h) == t.close)
            && (t.ping.Some? ==> t.ping.value in t.live) && (t.pong.Some? ==> t.pong.value in t.live)
            && (t.close.Some? ==> t.close.value in t.live || s.closing)
            && !(t.ping.Some? && t.pong.Some?)
            && (s.disconnected ==> t.live == map[])
            && (s.app == Ended ==> s.closing || (t.close.Some? && t.close.value in t.live))
  {
    hide EventsOk, ReadsOk;
    Reached(cfg, es);
  }

  /** While an accepted connection is open, the next ping or the deadline of the last one is armed, and a deadline
      always has the payload that the peer's answer must carry. */
  lemma KeepaliveNeverStalls(cfg: Config, es: seq<Step>)
    requires Runs(cfg, FRESH, es) && cfg.keepalive
    ensures var s := Run(cfg, FRESH, es);
            && (s.handshake && !s.denial && !s.closeSent && !s.closing ==> s.timers.ping.Some? || s.timers.pong.Some?)
            && (s.timers.pong.Some? ==> s.timers.pending.Some?)
  {
    hide EventsOk, ReadsOk;
    Reached(cfg, es);
  }

  /** Paused reads always have an event for the application to take, whose taking resumes them; a message waiting
      while the connection is open holds reads paused; after the application's close reads are active, so that the
      peer's close can arrive; and the queue never holds messages of two reads. */
  lemma ReadsNeverDeadlock(cfg: Config, es: seq<Step>)
    requires Runs(cfg, FRESH, es)
    ensures var s := Run(cfg, FRESH, es); var q := s.inbox.queue;
            && (s.readPaused ==> q != [])
            && (forall i :: 0 <= i < |q| && q[i].Receive? && !s.closeSent ==> s.readPaused)
            && (s.timers.close.Some? ==> !s.readPaused)
            && (forall i, j :: 0 <= i < |q| && 0 <= j < |q| && q[i].Receive? && q[j].Receive? ==>
                  q[i].read == q[j].read)
  {
    hide EventsOk, ClocksOk;
    Reached(cfg, es);
    var s := Run(cfg, FRESH, es);
    forall i | 0 <= i < |s.inbox.queue| && s.inbox.queue[i].Receive? && !s.closeSent ensures s.readPaused {
      assert HasMessage(s.inbox.queue);
    }
  }
}
