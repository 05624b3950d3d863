/** Messages of a WebSocket connection: how the peer cuts one into fragments, what it sends in between and how the
    fragments fall into reads makes no difference to what the application gets. */
module WebSocketMessages {
  import opened Text
  import opened WebSocketSpec
  import opened WebSocketRuns

  /** Data frames and the control frames that may come between them (section 5.4 of RFC 6455). */
  predicate Frames(es: seq<Event>) { forall i :: 0 <= i < |es| ==> es[i].Fragment? || es[i].Ping? || es[i].Pong? }

  /** The data frames alone. */
  function Data(es: seq<Event>): seq<Event> {
    if es == [] then [] else (if es[0].Fragment? then [es[0]] else []) + Data(es[1..])
  }

  /** Fragments of a message of which more is to come; `begun`: there were others before them. */
  function Pieces(text: bool, begun: bool, parts: seq<Bytes>): seq<Event> {
    seq(|parts|, i requires 0 <= i < |parts| => Fragment(!begun && i == 0, text, parts[i], false, false))
  }

  function MessageOf(text: bool, begun: bool, parts: seq<Bytes>, decodes: bool): seq<Event>
    requires parts != []
  {
    var n := |parts| - 1;
    Pieces(text, begun, parts[..n]) + [Fragment(!begun && n == 0, text, parts[n], true, decodes)]
  }

  predicate TooLong(cfg: Config, data: Bytes) { cfg.library.Wsproto? && |data| > cfg.maxSize }

  /** What a message comes to: its bytes, or the reason for which it was refused. */
  function Outcome(cfg: Config, text: bool, data: Bytes, decodes: bool, readCount: nat): AppEvent {
    if TooLong(cfg, data) then Disconnect(1009)
    else if cfg.library.Sansio? && text && !decodes then Disconnect(1007)
    else Receive(text, data, readCount)
  }

  // ---------- one event ----------

  /** The parts of a message that have arrived are `front`. */
  predicate Gathering(s: Conn, text: bool, front: seq<Bytes>) {
    !s.closeSent && s.part.frames == front && (front != [] ==> s.part.text == text)
  }

  lemma ControlOk(cfg: Config, s: Conn, e: Event)
    requires e.Ping? || e.Pong?
    ensures var t := HandleEvent(cfg, s, e);
            t.inbox == s.inbox && t.part == s.part && t.closeSent == s.closeSent && t.peer == s.peer
  {
  }

  lemma PieceOk(cfg: Config, s: Conn, text: bool, front: seq<Bytes>, data: Bytes)
    requires Gathering(s, text, front)
    ensures var t := HandleEvent(cfg, s, Fragment(front == [], text, data, false, false));
            if TooLong(cfg, Concat(front + [data])) then t.closeSent && t.inbox == Push(s.inbox, Disconnect(1009))
            else Gathering(t, text, front + [data]) && t.inbox == s.inbox && t.peer == s.peer
  {
    hide Concat;
    assert front == [] ==> front + [data] == [data];
    if cfg.library.Sansio? {} else if |Concat(front + [data])| > cfg.maxSize {} else {}
  }

  lemma LastOk(cfg: Config, s: Conn, text: bool, front: seq<Bytes>, data: Bytes, decodes: bool)
    requires Gathering(s, text, front)
    ensures HandleEvent(cfg, s, Fragment(front == [], text, data, true, decodes)).inbox ==
              Push(s.inbox, Outcome(cfg, text, Concat(front + [data]), decodes, s.peer.readCount))
  {
    hide Concat, Push, Deliver, Fail, HandlePong;
    assert front == [] ==> front + [data] == [data];
    var part := Partial(front + [data], text);
    DeliverIs(s, part);
    if cfg.library.Sansio? && text && !decodes {
      FailIs(s, Partial([], text), 1007);
    } else if TooLong(cfg, Concat(front + [data])) {
      FailIs(s, part, 1009);
    }
  }

  lemma DeliverIs(s: Conn, part: Partial)
    ensures Deliver(s.(part := part)).inbox == Push(s.inbox, Receive(part.text, Concat(part.frames), s.peer.readCount))
  {
    hide Concat;
  }

  lemma FailIs(s: Conn, part: Partial, code: nat)
    ensures Fail(s.(part := part), code).inbox == Push(s.inbox, Disconnect(code))
  {
  }

  // ---------- one read ----------

  lemma {:induction false} OnlyControls(cfg: Config, s: Conn, es: seq<Event>)
    requires Frames(es) && Data(es) == []
    ensures HandleEvents(cfg, s, es).inbox == s.inbox
    decreases |es|
  {
    if es != [] {
      ControlOk(cfg, s, es[0]);
      hide HandleEvent;
      OnlyControls(cfg, HandleEvent(cfg, s, es[0]), es[1..]);
    }
  }

  /** After a message was refused for its size, frames are ignored. */
  lemma {:induction false} Refused(cfg: Config, s: Conn, es: seq<Event>)
    requires s.closeSent && cfg.library.Wsproto? && Frames(es)
    ensures HandleEvents(cfg, s, es) == s
    decreases |es|
  {
    if es != [] { Refused(cfg, s, es[1..]); }
  }

  lemma PiecesTail(text: bool, begun: bool, parts: seq<Bytes>, decodes: bool)
    requires parts != []
    ensures Pieces(text, begun, parts) ==
            [Fragment(!begun, text, parts[0], false, false)] + Pieces(text, true, parts[1..])
    ensures |parts| > 1 ==>
              MessageOf(text, begun, parts, decodes) ==
              [Fragment(!begun, text, parts[0], false, false)] + MessageOf(text, true, parts[1..], decodes)
  {
    if |parts| > 1 { assert parts[1..][..|parts| - 2] == parts[..|parts| - 1][1..]; }
  }

  lemma Onwards(front: seq<Bytes>, parts: seq<Bytes>)
    requires parts != []
    ensures front + parts == front + [parts[0]] + parts[1..]
  {
  }

  /** A read that ends before the message does. */
  lemma {:induction false} EventsGather(cfg: Config, s: Conn, es: seq<Event>, text: bool, front: seq<Bytes>,
                                        parts: seq<Bytes>)
    requires Gathering(s, text, front) && Frames(es) && Data(es) == Pieces(text, front != [], parts)
    requires !HandleEvents(cfg, s, es).closeSent
    ensures var t := HandleEvents(cfg, s, es);
            Gathering(t, text, front + parts) && t.inbox == s.inbox && t.peer == s.peer
    decreases |es|
  {
    hide HandleEvent, Pieces;
    if es == [] {
      assert |Pieces(text, front != [], parts)| == |parts| by { PiecesLength(text, front != [], parts); }
      assert front + parts == front;
    } else if es[0].Fragment? {
      PiecesLength(text, front != [], parts);
      PiecesTail(text, front != [], parts, false);
      assert Data(es)[1..] == Data(es[1..]);
      PieceOk(cfg, s, text, front, parts[0]);
      if TooLong(cfg, Concat(front + [parts[0]])) {
        Refused(cfg, HandleEvent(cfg, s, es[0]), es[1..]);
      } else {
        Onwards(front, parts);
        EventsGather(cfg, HandleEvent(cfg, s, es[0]), es[1..], text, front + [parts[0]], parts[1..]);
      }
    } else {
      ControlOk(cfg, s, es[0]);
      assert Data(es) == Data(es[1..]);
      EventsGather(cfg, HandleEvent(cfg, s, es[0]), es[1..], text, front, parts);
    }
  }

  lemma PiecesLength(text: bool, begun: bool, parts: seq<Bytes>)
    ensures |Pieces(text, begun, parts)| == |parts|
  {
  }

  /** The read in which the message ends. */
  lemma {:induction false} EventsFinish(cfg: Config, s: Conn, es: seq<Event>, text: bool, front: seq<Bytes>,
                                        parts: seq<Bytes>, decodes: bool)
    requires Gathering(s, text, front) && Frames(es)
    requires parts != [] && Data(es) == MessageOf(text, front != [], parts, decodes)
    ensures HandleEvents(cfg, s, es).inbox ==
              Push(s.inbox, Outcome(cfg, text, Concat(front + parts), decodes, s.peer.readCount))
    decreases |es|
  {
    hide HandleEvent, Outcome, Concat;
    if es[0].Fragment? {
      assert Data(es)[1..] == Data(es[1..]);
      if |parts| == 1 {
        MessageLength(text, front != [], parts, decodes);
        assert Data(es) == [es[0]] == [Fragment(front == [], text, parts[0], true, decodes)] && parts == [parts[0]];
        LastOk(cfg, s, text, front, parts[0], decodes);
        OnlyControls(cfg, HandleEvent(cfg, s, es[0]), es[1..]);
      } else {
        PiecesTail(text, front != [], parts, decodes);
        PieceOk(cfg, s, text, front, parts[0]);
        Onwards(front, parts);
        if TooLong(cfg, Concat(front + [parts[0]])) {
          LongerStill(cfg, front + [parts[0]], parts[1..], text, decodes, s.peer.readCount);
          Refused(cfg, HandleEvent(cfg, s, es[0]), es[1..]);
        } else {
          EventsFinish(cfg, HandleEvent(cfg, s, es[0]), es[1..], text, front + [parts[0]], parts[1..], decodes);
        }
      }
    } else {
      ControlOk(cfg, s, es[0]);
      assert Data(es) == Data(es[1..]);
      EventsFinish(cfg, HandleEvent(cfg, s, es[0]), es[1..], text, front, parts, decodes);
    }
  }

  lemma {:induction false} LongerStill(cfg: Config, front: seq<Bytes>, more: seq<Bytes>, text: bool, decodes: bool,
                                       readCount: nat)
    requires TooLong(cfg, Concat(front))
    ensures Outcome(cfg, text, Concat(front + more), decodes, readCount) == Disconnect(1009)
  {
    if more == [] {
      assert front + more == front;
    } else {
      var n := |more| - 1;
      LongerStill(cfg, front, more[..n], text, decodes, readCount);
      assert front + more == front + more[..n] + [more[n]];
      ConcatOne(front + more[..n], more[n]);
    }
  }

  // ---------- many reads, and whatever happens between them ----------

  /** The events of all reads. */
  function EventsOf(steps: seq<Step>): seq<Event> {
    if steps == [] then []
    else (if steps[0].DataReceived? then steps[0].events else []) + EventsOf(steps[1..])
  }

  /** Reads bring data and control frames only, and no protocol error. */
  predicate Unbroken(steps: seq<Step>) {
    forall i :: 0 <= i < |steps| && steps[i].DataReceived? ==> steps[i].broken.None? && Frames(steps[i].events)
  }

  lemma {:induction false} DataBoth(a: seq<Event>, b: seq<Event>)
    ensures Data(a + b) == Data(a) + Data(b)
  {
    if a == [] {
      assert a + b == b;
    } else {
      DataBoth(a[1..], b);
      assert (a + b)[0] == a[0] && (a + b)[1..] == a[1..] + b;
      var head := if a[0].Fragment? then [a[0]] else [];
      assert head + (Data(a[1..]) + Data(b)) == (head + Data(a[1..])) + Data(b);
    }
  }

  lemma EventStays(cfg: Config, s: Conn, e: Event)
    ensures s.closeSent ==> HandleEvent(cfg, s, e).closeSent
    ensures s.closing ==> HandleEvent(cfg, s, e).closing
  {
    hide Concat;
  }

  lemma {:induction false} EventsStay(cfg: Config, s: Conn, es: seq<Event>)
    ensures s.closeSent ==> HandleEvents(cfg, s, es).closeSent
    ensures s.closing ==> HandleEvents(cfg, s, es).closing
    decreases |es|
  {
    if es != [] {
      hide HandleEvent;
      EventStays(cfg, s, es[0]);
      EventsStay(cfg, HandleEvent(cfg, s, es[0]), es[1..]);
    }
  }

  /** It closes nothing, and leaves the message and the log alone unless it closes something. */
  predicate Quiet(s: Conn, t: Conn) {
    && (s.closeSent ==> t.closeSent) && (s.closing ==> t.closing)
    && (!t.closeSent && !t.closing ==> t.part == s.part && t.inbox.log == s.inbox.log)
  }

  lemma SendQuiet(cfg: Config, s: Conn, m: Message)
    requires MayRefuse(s, m)
    ensures Quiet(s, Send(cfg, s, m).conn)
  {
    hide ScheduleClose, StartKeepalive;
  }

  lemma TimerQuiet(cfg: Config, s: Conn, h: nat, payload: Bytes)
    requires h in s.timers.live
    ensures Quiet(s, TimerFires(cfg, s, h, payload))
  {
    hide SchedulePing, SchedulePong;
  }

  lemma QuietStep(cfg: Config, s: Conn, e: Step)
    requires Enabled(s, e) && !e.DataReceived?
    ensures Quiet(s, Take(cfg, s, e))
  {
    hide Legal, Send, TimerFires, StopKeepalive, CancelClose;
    match e {
      case AppSends(m) => SendQuiet(cfg, s, m);
      case Timer(h, payload) => TimerQuiet(cfg, s, h, payload);
      case _ =>
    }
  }

  lemma StepStays(cfg: Config, s: Conn, e: Step)
    requires Enabled(s, e)
    ensures var t := Take(cfg, s, e); (s.closeSent ==> t.closeSent) && (s.closing ==> t.closing)
  {
    if e.DataReceived? {
      hide HandleEvents;
      EventsStay(cfg, s.(peer := s.peer.(readCount := s.peer.readCount + 1)), e.events);
    } else {
      QuietStep(cfg, s, e);
    }
  }

  lemma {:induction false} RunStays(cfg: Config, s: Conn, steps: seq<Step>)
    requires Runs(cfg, s, steps)
    ensures var t := Run(cfg, s, steps); (s.closeSent ==> t.closeSent) && (s.closing ==> t.closing)
    decreases |steps|
  {
    if steps != [] {
      hide Take, Enabled;
      StepStays(cfg, s, steps[0]);
      RunStays(cfg, Take(cfg, s, steps[0]), steps[1..]);
    }
  }

  /** The pieces of one read and those of the reads after it. */
  lemma SplitPieces(text: bool, begun: bool, parts: seq<Bytes>, k: nat)
    requires k <= |parts|
    ensures Pieces(text, begun, parts)[..k] == Pieces(text, begun, parts[..k])
    ensures Pieces(text, begun, parts)[k..] == Pieces(text, begun || k > 0, parts[k..])
  {
  }

  lemma SplitMessage(text: bool, parts: seq<Bytes>, decodes: bool, k: nat)
    requires k < |parts|
    ensures MessageOf(text, false, parts, decodes)[..k] == Pieces(text, false, parts[..k])
    ensures MessageOf(text, false, parts, decodes)[k..] == MessageOf(text, k > 0, parts[k..], decodes)
  {
    var n := |parts| - 1;
    assert parts[k..][..n - k] == parts[..n][k..];
    assert parts[..n][..k] == parts[..k];
  }

  /** The pieces of the first read and the others. */
  lemma FirstRead(steps: seq<Step>, text: bool, begun: bool, parts: seq<Bytes>)
    requires steps != [] && steps[0].DataReceived? && Data(EventsOf(steps)) == Pieces(text, begun, parts)
    ensures var k := |Data(steps[0].events)|;
            && k <= |parts|
            && Data(steps[0].events) == Pieces(text, begun, parts[..k])
            && Data(EventsOf(steps[1..])) == Pieces(text, begun || k > 0, parts[k..])
  {
    hide Data, Pieces;
    var first, rest := Data(steps[0].events), Data(EventsOf(steps[1..]));
    DataBoth(steps[0].events, EventsOf(steps[1..]));
    PiecesLength(text, begun, parts);
    SplitPieces(text, begun, parts, |first|);
    assert (first + rest)[..|first|] == first && (first + rest)[|first|..] == rest;
  }

  lemma UnbrokenRest(steps: seq<Step>)
    requires steps != [] && Unbroken(steps)
    ensures Unbroken(steps[1..])
    ensures steps[0].DataReceived? ==> steps[0].broken.None? && Frames(steps[0].events)
  {
    assert forall i :: 0 <= i < |steps| - 1 ==> steps[1..][i] == steps[i + 1];
  }

  lemma {:induction false} StepsGather(cfg: Config, s: Conn, steps: seq<Step>, text: bool, front: seq<Bytes>,
                                       parts: seq<Bytes>)
    requires Runs(cfg, s, steps) && Unbroken(steps) && Gathering(s, text, front)
    requires Data(EventsOf(steps)) == Pieces(text, front != [], parts)
    requires !Run(cfg, s, steps).closeSent && !Run(cfg, s, steps).closing
    ensures var t := Run(cfg, s, steps); Gathering(t, text, front + parts) && t.inbox.log == s.inbox.log
    decreases |steps|
  {
    hide Pieces, Unbroken, Frames, Enabled, Feed;
    if steps == [] {
      PiecesLength(text, front != [], parts);
      assert front + parts == front;
    } else {
      var e, rest := steps[0], steps[1..];
      RunStays(cfg, Take(cfg, s, e), rest);
      UnbrokenRest(steps);
      if e.DataReceived? {
        FirstRead(steps, text, front != [], parts);
        var k := |Data(e.events)|;
        ReadGathers(cfg, s, e.events, text, front, parts[..k]);
        hide Data, EventsOf, Gathering;
        assert front + parts[..k] + parts[k..] == front + parts;
        StepsGather(cfg, Take(cfg, s, e), rest, text, front + parts[..k], parts[k..]);
      } else {
        hide Data, Take;
        QuietStep(cfg, s, e);
        assert EventsOf(steps) == EventsOf(rest);
        StepsGather(cfg, Take(cfg, s, e), rest, text, front, parts);
      }
    }
  }

  lemma ReadGathers(cfg: Config, s: Conn, es: seq<Event>, text: bool, front: seq<Bytes>, parts: seq<Bytes>)
    requires Gathering(s, text, front) && Frames(es) && Data(es) == Pieces(text, front != [], parts)
    requires !Feed(cfg, s, es, None).closeSent
    ensures var t := Feed(cfg, s, es, None); Gathering(t, text, front + parts) && t.inbox == s.inbox
  {
    hide Data, Pieces, HandleEvents;
    EventsGather(cfg, s.(peer := s.peer.(readCount := s.peer.readCount + 1)), es, text, front, parts);
  }

  /** However a message is cut into fragments, whatever control frames come between them, and over however many
      reads, with whatever else happens between those: as long as nothing ends the connection before its last
      fragment is read, the application is sent one event for it, which depends on its bytes alone. */
  lemma FragmentationIrrelevant(cfg: Config, s: Conn, steps: seq<Step>, last: seq<Event>, text: bool,
                                parts: seq<Bytes>, decodes: bool)
    requires parts != [] && s.part.frames == [] && Runs(cfg, s, steps) && Unbroken(steps)
    requires Enabled(Run(cfg, s, steps), DataReceived(last, None)) && !Run(cfg, s, steps).closeSent
    requires Frames(last) && Data(last) != []
    requires Data(EventsOf(steps)) + Data(last) == MessageOf(text, false, parts, decodes)
    ensures var b := Run(cfg, s, steps);
            var outcome := Outcome(cfg, text, Concat(parts), decodes, b.peer.readCount + 1);
            && Take(cfg, b, DataReceived(last, None)).inbox == Push(b.inbox, outcome)
            && b.inbox.log == s.inbox.log
  {
    hide Runs, Run, Data, Pieces, MessageOf, HandleEvents, Outcome, Concat, EventsOf, Unbroken, Frames;
    LastRead(Data(EventsOf(steps)), Data(last), text, parts, decodes);
    RunStays(cfg, s, steps);
    var k := |Data(EventsOf(steps))|;
    StepsGather(cfg, s, steps, text, [], parts[..k]);
    assert [] + parts[..k] == parts[..k] && parts[..k] + parts[k..] == parts;
    var b := Run(cfg, s, steps);
    EventsFinish(cfg, b.(peer := b.peer.(readCount := b.peer.readCount + 1)), last, text, parts[..k], parts[k..],
                 decodes);
  }

  lemma LastRead(before: seq<Event>, last: seq<Event>, text: bool, parts: seq<Bytes>, decodes: bool)
    requires parts != [] && last != [] && before + last == MessageOf(text, false, parts, decodes)
    ensures var k := |before|;
            && k < |parts| && before == Pieces(text, false, parts[..k])
            && last == MessageOf(text, k > 0, parts[k..], decodes)
  {
    hide Pieces, MessageOf;
    MessageLength(text, false, parts, decodes);
    SplitMessage(text, parts, decodes, |before|);
    assert (before + last)[..|before|] == before && (before + last)[|before|..] == last;
  }

  lemma MessageLength(text: bool, begun: bool, parts: seq<Bytes>, decodes: bool)
    requires parts != []
    ensures |MessageOf(text, begun, parts, decodes)| == |parts|
  {
  }
}
