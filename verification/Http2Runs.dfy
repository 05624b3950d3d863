/** Whole runs of an HTTP/2 connection: any reads, application steps, timer, shutdown and connection loss,
    in any order that the environment allows. */
module Http2Runs {
  import opened Text
  import opened Http2Spec
  import opened Http2Streams
  import opened Http2Multiplexer
  import Flow

  ghost predicate Runs(s: Conn, es: seq<Event>)
    decreases |es|
  {
    es == [] || (Enabled(s, es[0]) && Runs(Step(s, es[0]), es[1..]))
  }

  ghost function Run(s: Conn, es: seq<Event>): Conn
    requires Runs(s, es)
    decreases |es|
  {
    if es == [] then s else Run(Step(s, es[0]), es[1..])
  }

  lemma {:induction false} RunKeepsInv(s: Conn, es: seq<Event>)
    requires Inv(s) && Rested(s) && Runs(s, es)
    ensures Inv(Run(s, es)) && Rested(Run(s, es))
    decreases |es|
  {
    if es != [] {
      hide Inv, Rested, Enabled, Step;
      StepKeepsInv(s, es[0]);
      RunKeepsInv(Step(s, es[0]), es[1..]);
    }
  }

  lemma FreshOk()
    ensures Inv(FRESH) && Rested(FRESH)
  {
  }

  /** A stream whose response is not complete, that the peer has not reset and whose task has not finished. */
  predicate InFlight(c: Cycle) { !c.out.complete && !c.peerReset && c.phase != Ended }

  /** The map holds exactly the streams in flight; requests seen are those counted plus those whose
      `on_response` has not fired. */
  lemma MapHoldsStreamsInFlight(es: seq<Event>)
    requires Runs(FRESH, es)
    ensures var s := Run(FRESH, es);
            && (forall id :: id in s.cycles <==> id in s.streams && InFlight(s.streams[id]))
            && |s.streams| == s.total + |set id | id in s.streams && !s.streams[id].out.complete
                && s.streams[id].phase != Ended|
  {
    hide OutOk, Unreset, FlowOk;
    FreshOk();
    RunKeepsInv(FRESH, es);
    var s := Run(FRESH, es);
    assert Pending(s) == set id | id in s.streams && !s.streams[id].out.complete && s.streams[id].phase != Ended;
  }

  /** An open connection that has completed a read and has no streams has its keep-alive timer armed. */
  lemma IdleConnectionIsTimed(es: seq<Event>)
    requires Runs(FRESH, es)
    ensures var s := Run(FRESH, es); s.hasRead && !s.closing && s.cycles == {} ==> s.timer == Armed
    ensures var s := Run(FRESH, es); s.timer == Fired ==> s.closing
  {
    hide StreamsOk, MapOk, CountOk, FlowOk;
    FreshOk();
    RunKeepsInv(FRESH, es);
  }

  /** A stream buffering more than the limit holds reads paused; an open connection without streams never
      does; and the transport is paused and resumed strictly in turn. */
  lemma ReadBackpressure(es: seq<Event>)
    requires Runs(FRESH, es)
    ensures var s := Run(FRESH, es);
            && (forall id :: id in s.cycles ==>
                  id in s.streams && (|s.streams[id].body| > Flow.HIGH_WATER_LIMIT ==> s.flow.paused))
            && (!s.closing && s.cycles == {} ==> !s.flow.paused)
            && Flow.Mirrors(s.flow)
  {
    hide StreamOk, CountOk;
    FreshOk();
    RunKeepsInv(FRESH, es);
    var s := Run(FRESH, es);
    forall id | id in s.cycles
      ensures id in s.streams && (|s.streams[id].body| > Flow.HIGH_WATER_LIMIT ==> s.flow.paused)
    {
      MemberOf(s, id);
      assert Overfull(s, id) ==> s.flow.paused;
    }
  }

  /** On every stream the end is called exactly once the response is complete, and the data sent are the accepted
      bodies; if its start message, if any, was accepted, the calls match informational* (response data* end?)? reset?,
      and a response that has ended under a declared length sent exactly that many bytes. */
  lemma StreamCallsInOrder(es: seq<Event>, id: nat)
    requires Runs(FRESH, es) && id in Run(FRESH, es).streams
    ensures var o := Run(FRESH, es).streams[id].out; var t := Follow(o.calls);
            && (t.ended <==> o.complete)
            && t.sent == Concat(o.bodies)
            && (Clean(o) ==>
                  && !t.bad
                  && (t.ended && o.declared.Some? ==> |t.sent| == o.declared.value)
                  && (o.bodyless ==> t.sent == ""))
  {
    hide Follow, MapOk, CountOk, FlowOk;
    FreshOk();
    RunKeepsInv(FRESH, es);
    StreamOf(Run(FRESH, es), id);
  }

  // ---------- shutdown ----------

  lemma {:induction false} HandleAllKeepsRequest(s: Conn, frames: seq<Frame>)
    requires s.shutdownRequested
    ensures HandleAll(s, frames).shutdownRequested
    decreases |frames|
  {
    if frames != [] {
      assert Handle(s, frames[0]).shutdownRequested by { hide NewOut; }
      hide Handle;
      HandleAllKeepsRequest(Handle(s, frames[0]), frames[1..]);
    }
  }

  lemma RespondKeepsRequest(s: Conn, id: nat)
    requires id in s.streams
    ensures Respond(s, id).shutdownRequested == s.shutdownRequested
    ensures Finish(s, id).shutdownRequested == s.shutdownRequested
  {
    hide Overfull;
  }

  lemma SendKeepsRequest(s: Conn, id: nat, m: Message)
    requires id in s.streams
    ensures AppSends(s, id, m).shutdownRequested == s.shutdownRequested
  {
    hide Send, Respond;
    var c := s.streams[id];
    var r := Send(c.out, m);
    var done := r.out.complete && !r.raised;
    RespondKeepsRequest(s.(streams := s.streams[id := c.(out := r.out, eventSet := c.eventSet || done)]), id);
  }

  lemma EndKeepsRequest(s: Conn, id: nat, how: Outcome)
    requires id in s.streams
    ensures AppEnds(s, id, how).shutdownRequested == s.shutdownRequested
  {
    hide Finish;
    RespondKeepsRequest(s, id);
    RespondKeepsRequest(AbortStream(s, id), id);
  }

  lemma ReceiveKeepsRequest(s: Conn, id: nat)
    requires id in s.streams
    ensures ReceiveBegin(s, id).shutdownRequested == s.shutdownRequested
    ensures ReceiveEnd(s, id).shutdownRequested == s.shutdownRequested
  {
    hide Overfull;
  }

  lemma StepKeepsRequest(s: Conn, e: Event)
    requires Enabled(s, e) && s.shutdownRequested
    ensures Step(s, e).shutdownRequested
  {
    hide AppSends, AppEnds, ReceiveBegin, ReceiveEnd, Finish, FreshIds, SendRaises, HandleAll;
    match e {
      case DataReceived(frames, _) => HandleAllKeepsRequest(s.(timer := NoTimer), frames);
      case ReceiveBegins(id) => ReceiveKeepsRequest(s, id);
      case ReceiveEnds(id) => ReceiveKeepsRequest(s, id);
      case AppSent(id, m) => SendKeepsRequest(s, id, m);
      case AppEnded(id, how) => EndKeepsRequest(s, id, how);
      case Sends500(id) =>
        SendKeepsRequest(s, id, START_500);
        var s1 := AppSends(s, id, START_500);
        if id in s1.streams { RespondKeepsRequest(s1, id); }
      case Ends500(id) =>
        SendKeepsRequest(s, id, BODY_500);
        var s1 := AppSends(s, id, BODY_500);
        if id in s1.streams { RespondKeepsRequest(s1, id); }
      case _ =>
    }
  }

  lemma {:induction false} RunKeepsRequest(s: Conn, es: seq<Event>)
    requires Runs(s, es) && s.shutdownRequested
    ensures Run(s, es).shutdownRequested
    decreases |es|
  {
    if es != [] {
      hide Enabled, Step;
      StepKeepsRequest(s, es[0]);
      RunKeepsRequest(Step(s, es[0]), es[1..]);
    }
  }

  /** After `shutdown()`, whatever still happens, the transport is closing as soon as every stream has been
      answered, reset by the peer or left by its task. */
  lemma ShutdownDrains(es: seq<Event>, later: seq<Event>)
    requires Runs(FRESH, es) && Runs(DoShutdown(Run(FRESH, es)), later)
    requires var s := Run(DoShutdown(Run(FRESH, es)), later); forall id :: id in s.streams ==> !InFlight(s.streams[id])
    ensures Run(DoShutdown(Run(FRESH, es)), later).closing
  {
    hide OutOk, Unreset, CountOk, FlowOk;
    FreshOk();
    RunKeepsInv(FRESH, es);
    OnlyFlagsShutdown(Run(FRESH, es));
    RunKeepsInv(DoShutdown(Run(FRESH, es)), later);
    RunKeepsRequest(DoShutdown(Run(FRESH, es)), later);
    var s := Run(DoShutdown(Run(FRESH, es)), later);
    forall id ensures id !in s.cycles { MemberOf(s, id); if id in s.streams { StreamOf(s, id); } }
  }

  // ---------- isolation ----------

  predicate About(e: Event, id: nat) {
    match e
    case ReceiveBegins(k) => k == id
    case ReceiveEnds(k) => k == id
    case AppSent(k, _) => k == id
    case AppEnded(k, _) => k == id
    case Sends500(k) => k == id
    case Ends500(k) => k == id
    case _ => true
  }

  ghost predicate Same(s: Conn, t: Conn, id: nat) {
    && (id in s.streams ==> id in t.streams && t.streams[id] == s.streams[id])
    && (id in s.cycles <==> id in t.cycles)
    && (TimerMeansIdle(s) ==> TimerMeansIdle(t))
  }

  lemma ClosedSame(s: Conn, id: nat)
    ensures Same(s, OnStreamClosed(s), id)
  {
    hide Overfull;
  }

  lemma RespondSame(s: Conn, k: nat, id: nat)
    requires k in s.streams && k != id
    ensures Same(s, Respond(s, k), id) && k in Respond(s, k).streams
  {
    hide OnStreamClosed;
    var c := s.streams[k];
    var t := s.(total := s.total + 1, cycles := s.cycles - {k}, streams := s.streams[k := c.(onResponse := false)]);
    ClosedSame(t, id);
    PhaseIgnored(t, k, t.streams[k]);
  }

  lemma FinishSame(s: Conn, k: nat, id: nat)
    requires k in s.streams && k != id
    ensures Same(s, Finish(s, k), id)
  {
    hide Respond;
    RespondSame(s, k, id);
  }

  lemma AppSendsSame(s: Conn, k: nat, m: Message, id: nat)
    requires k in s.streams && k != id
    ensures Same(s, AppSends(s, k, m), id) && k in AppSends(s, k, m).streams
  {
    hide Respond, Send;
    var c := s.streams[k];
    if c.disconnected {
    } else {
      var r := Send(c.out, m);
      var done := r.out.complete && !r.raised;
      RespondSame(s.(streams := s.streams[k := c.(out := r.out, eventSet := c.eventSet || done)]), k, id);
    }
  }

  lemma AppEndsSame(s: Conn, k: nat, how: Outcome, id: nat)
    requires k in s.streams && k != id
    ensures Same(s, AppEnds(s, k, how), id)
  {
    hide Finish;
    FinishSame(s, k, id);
    FinishSame(AbortStream(s, k), k, id);
  }

  lemma ReceiveSame(s: Conn, k: nat, id: nat)
    requires k in s.streams && k != id
    ensures Same(s, ReceiveBegin(s, k), id) && Same(s, ReceiveEnd(s, k), id)
  {
    hide Overfull;
  }

  lemma TaskStepSame(s: Conn, e: Event, id: nat)
    requires Enabled(s, e) && !About(e, id)
    ensures Same(s, Step(s, e), id)
  {
    hide AppSends, AppEnds, ReceiveBegin, ReceiveEnd, Finish, SendRaises, Same;
    match e {
      case ReceiveBegins(k) => ReceiveSame(s, k, id);
      case ReceiveEnds(k) => ReceiveSame(s, k, id);
      case AppSent(k, m) => AppSendsSame(s, k, m, id);
      case AppEnded(k, how) => AppEndsSame(s, k, how, id);
      case Sends500(k) =>
        AppSendsSame(s, k, START_500, id);
        var s1 := AppSends(s, k, START_500);
        FinishSame(s1, k, id);
        Chain(s, s1, Finish(s1, k), id);
        var s2 := s1.(streams := s1.streams[k := s1.streams[k].(phase := Finishing500)]);
        OtherStream(s1, k, s2, id);
        Chain(s, s1, s2, id);
      case Ends500(k) =>
        AppSendsSame(s, k, BODY_500, id);
        var s1 := AppSends(s, k, BODY_500);
        FinishSame(s1, k, id);
        Chain(s, s1, Finish(s1, k), id);
    }
  }

  lemma Chain(s: Conn, t: Conn, u: Conn, id: nat)
    requires Same(s, t, id) && Same(t, u, id)
    ensures Same(s, u, id)
  {
  }

  lemma OtherStream(s: Conn, k: nat, t: Conn, id: nat)
    requires k in s.streams && k != id && k in t.streams && t == s.(streams := s.streams[k := t.streams[k]])
    ensures Same(s, t, id)
  {
  }

  /** A step of one stream's task, even one that resets it, changes nothing in any other stream. */
  lemma SiblingsSurvive(s: Conn, e: Event, id: nat)
    requires Enabled(s, e) && id in s.streams && !About(e, id)
    ensures id in Step(s, e).streams && Step(s, e).streams[id] == s.streams[id]
    ensures id in s.cycles <==> id in Step(s, e).cycles
  {
    hide Step, Enabled;
    TaskStepSame(s, e, id);
  }

  // ---------- the keep-alive timer and streams ----------

  /** The expectation that an armed timer means no streams. */
  predicate TimerMeansIdle(s: Conn) { s.timer == Armed ==> s.cycles == {} }

  /** One frame breaks it exactly when it is a request that arrives while the timer is armed. */
  lemma FrameKeepsTimerMeaning(s: Conn, f: Frame)
    requires TimerMeansIdle(s)
    ensures TimerMeansIdle(Handle(s, f)) <==> !(f.Request? && s.timer == Armed)
  {
    hide Overfull, NewOut;
    if f.Request? { assert f.id in Handle(s, f).cycles; }
  }

  /** Every event other than a read keeps it. */
  lemma OtherStepsKeepTimerMeaning(s: Conn, e: Event)
    requires TimerMeansIdle(s) && Enabled(s, e) && !e.DataReceived?
    ensures TimerMeansIdle(Step(s, e))
  {
    if e.TimerFires? || e.Shutdown? || e.ConnectionLost? {
    } else {
      hide Step, Enabled;
      TaskStepSame(s, e, e.id + 1);
    }
  }

  lemma {:induction false} HandleAllSnoc(s: Conn, frames: seq<Frame>)
    requires frames != []
    ensures HandleAll(s, frames) == Handle(HandleAll(s, frames[..|frames| - 1]), frames[|frames| - 1])
    decreases |frames|
  {
    hide Handle;
    if |frames| == 1 {
      assert frames[1..] == [];
    } else {
      HandleAllSnoc(Handle(s, frames[0]), frames[1..]);
      assert frames[1..][..|frames| - 2] == frames[..|frames| - 1][1..];
    }
  }

  /** The map after some frames of a read: requests enter it and resets leave it. */
  function LiveAfter(cycles: set<nat>, frames: seq<Frame>): set<nat> {
    if frames == [] then cycles
    else
      var live := LiveAfter(cycles, frames[..|frames| - 1]);
      match frames[|frames| - 1]
      case Request(id, _, _, _) => live + {id}
      case RstStream(id) => live - {id}
      case _ => live
  }

  /** The reset at `i` empties the map, and nothing before it has asked for a shutdown. */
  predicate Empties(s: Conn, frames: seq<Frame>, i: nat)
    requires i < |frames|
  {
    && frames[i].RstStream? && LiveAfter(s.cycles, frames[..i]) == {frames[i].id}
    && !s.shutdownRequested && GoAway !in frames[..i]
  }

  /** What a frame does to the map, the shutdown flag and the transport, and when it arms the timer. */
  lemma FrameFacts(s: Conn, f: Frame)
    requires s.cycles <= s.streams.Keys && (s.closing ==> s.shutdownRequested)
    ensures var t := Handle(s, f);
            && t.cycles <= t.streams.Keys && (t.closing ==> t.shutdownRequested)
            && t.cycles == LiveAfter(s.cycles, [f])
            && (t.shutdownRequested <==> s.shutdownRequested || f == GoAway)
            && (s.timer == Armed && s.cycles == {} ==> t.timer == Armed) && (s.timer != Fired ==> t.timer != Fired)
            && (s.timer == NoTimer ==>
                  (t.timer == Armed <==> f.RstStream? && s.cycles == {f.id} && !s.shutdownRequested))
  {
    hide Overfull, NewOut;
    assert [f][..0] == [];
  }

  lemma LiveOne(cycles: set<nat>, frames: seq<Frame>, f: Frame)
    ensures LiveAfter(cycles, frames + [f]) == LiveAfter(LiveAfter(cycles, frames), [f])
  {
    assert (frames + [f])[..|frames|] == frames && [f][..0] == [];
  }

  /** A read starts with the timer cancelled. */
  lemma {:induction false} PrefixFacts(s: Conn, frames: seq<Frame>)
    requires s.cycles <= s.streams.Keys && !s.closing
    ensures var t := HandleAll(s, frames);
            && t.cycles <= t.streams.Keys && (t.closing ==> t.shutdownRequested)
            && t.cycles == LiveAfter(s.cycles, frames)
            && (t.shutdownRequested <==> s.shutdownRequested || GoAway in frames)
            && (s.timer != Fired ==> t.timer != Fired)
  {
    hide Handle, LiveAfter;
    if frames == [] {
      NoFrames(s);
      assert LiveAfter(s.cycles, []) == s.cycles by { NoneLive(s.cycles); }
    } else {
      var n := |frames| - 1;
      var front, f := frames[..n], frames[n];
      PrefixFacts(s, front);
      HandleAllSnoc(s, frames);
      FrameFacts(HandleAll(s, front), f);
      LiveOne(s.cycles, front, f);
      assert front + [f] == frames;
    }
  }

  lemma NoneLive(cycles: set<nat>)
    ensures LiveAfter(cycles, []) == cycles
  {
  }

  lemma PrefixStep(s: Conn, frames: seq<Frame>, k: nat)
    requires k < |frames| && s.cycles <= s.streams.Keys && !s.closing && s.timer == NoTimer
    ensures var a, b := HandleAll(s, frames[..k]), HandleAll(s, frames[..k + 1]);
            && (TimerMeansIdle(a) ==> (TimerMeansIdle(b) <==> !(frames[k].Request? && a.timer == Armed)))
            && (a.timer == Armed && a.cycles == {} ==> b.timer == Armed)
            && a.timer != Fired && (a.timer == NoTimer ==> (b.timer == Armed <==> Empties(s, frames, k)))
            && (Empties(s, frames, k) ==> a.cycles != {})
  {
    hide Handle, HandleAll, TimerMeansIdle, LiveAfter;
    var a := HandleAll(s, frames[..k]);
    assert frames[..k + 1][..k] == frames[..k];
    HandleAllSnoc(s, frames[..k + 1]);
    PrefixFacts(s, frames[..k]);
    FrameFacts(a, frames[k]);
    if TimerMeansIdle(a) { FrameKeepsTimerMeaning(a, frames[k]); }
  }

  lemma {:induction false} ArmedBy(s: Conn, frames: seq<Frame>, k: nat)
    requires k <= |frames| && s.cycles <= s.streams.Keys && !s.closing && s.timer == NoTimer
    requires HandleAll(s, frames[..k]).timer == Armed
    ensures exists i :: 0 <= i < k && Empties(s, frames, i)
  {
    hide HandleAll, Empties;
    if k == 0 {
      NoFrames(s);
    } else {
      PrefixStep(s, frames, k - 1);
      if HandleAll(s, frames[..k - 1]).timer == Armed { ArmedBy(s, frames, k - 1); }
    }
  }

  lemma {:induction false} StaysArmed(s: Conn, frames: seq<Frame>, i: nat, k: nat)
    requires i < k <= |frames| && s.cycles <= s.streams.Keys && !s.closing && s.timer == NoTimer
    requires Empties(s, frames, i)
    requires forall j :: 0 <= j <= |frames| ==> TimerMeansIdle(HandleAll(s, frames[..j]))
    ensures HandleAll(s, frames[..k]).timer == Armed
    decreases k
  {
    hide HandleAll, Empties;
    PrefixStep(s, frames, k - 1);
    assert TimerMeansIdle(HandleAll(s, frames[..k - 1]));
    if i < k - 1 { StaysArmed(s, frames, i, k - 1); }
  }

  /** Throughout a read on an open connection an armed timer means no streams, unless a reset empties the map before
      any shutdown is asked for and a request follows it: then, and only then, it does not. */
  lemma ReadKeepsTimerMeaningExactly(es: seq<Event>, frames: seq<Frame>)
    requires Runs(FRESH, es) && Enabled(Run(FRESH, es), DataReceived(frames, false))
    ensures var s := Run(FRESH, es).(timer := NoTimer);
            (forall k :: 0 <= k <= |frames| ==> TimerMeansIdle(HandleAll(s, frames[..k]))) <==>
            !(exists i, k :: 0 <= i < k < |frames| && Empties(s, frames, i) && frames[k].Request?)
  {
    FreshOk();
    RunKeepsInv(FRESH, es);
    var s := Run(FRESH, es).(timer := NoTimer);
    assert s.cycles <= s.streams.Keys && !s.closing by { MapInStreams(Run(FRESH, es)); }
    hide Inv, HandleAll, Empties, Runs, Run;
    if forall k :: 0 <= k <= |frames| ==> TimerMeansIdle(HandleAll(s, frames[..k])) {
      forall i, k | 0 <= i < k < |frames| && Empties(s, frames, i) ensures !frames[k].Request? {
        StaysArmed(s, frames, i, k);
        PrefixStep(s, frames, k);
      }
    } else if forall i, k :: 0 <= i < k < |frames| && Empties(s, frames, i) ==> !frames[k].Request? {
      forall k | 0 <= k <= |frames| ensures TimerMeansIdle(HandleAll(s, frames[..k])) { IdleUpTo(s, frames, k); }
    }
  }

  lemma {:induction false} IdleUpTo(s: Conn, frames: seq<Frame>, k: nat)
    requires k <= |frames| && s.cycles <= s.streams.Keys && !s.closing && s.timer == NoTimer
    requires forall i, j :: 0 <= i < j < |frames| && Empties(s, frames, i) ==> !frames[j].Request?
    ensures TimerMeansIdle(HandleAll(s, frames[..k]))
  {
    hide HandleAll, Empties;
    if k == 0 {
      NoFrames(s);
    } else {
      IdleUpTo(s, frames, k - 1);
      PrefixStep(s, frames, k - 1);
      if HandleAll(s, frames[..k - 1]).timer == Armed { ArmedBy(s, frames, k - 1); }
    }
  }

  lemma MapInStreams(s: Conn)
    requires Inv(s)
    ensures s.cycles <= s.streams.Keys
  {
    hide StreamsOk, CountOk, FlowOk;
  }

  lemma NoFrames(s: Conn)
    ensures HandleAll(s, []) == s
  {
  }

  /** A read starts with the timer cancelled, so only a stream that closes earlier in the same read arms it. */
  predicate NoRequestAfterReset(frames: seq<Frame>) {
    forall i, j :: 0 <= i < j < |frames| && frames[i].RstStream? ==> !frames[j].Request?
  }

  lemma {:induction false} HandleAllKeepsTimerMeaning(s: Conn, frames: seq<Frame>)
    requires TimerMeansIdle(s) && NoRequestAfterReset(frames)
    requires s.timer == Armed ==> forall i :: 0 <= i < |frames| ==> !frames[i].Request?
    ensures TimerMeansIdle(HandleAll(s, frames))
    decreases |frames|
  {
    if frames != [] {
      FrameKeepsTimerMeaning(s, frames[0]);
      FrameArms(s, frames[0]);
      hide Handle, TimerMeansIdle;
      assert forall i :: 0 <= i < |frames| - 1 ==> frames[1..][i] == frames[i + 1];
      HandleAllKeepsTimerMeaning(Handle(s, frames[0]), frames[1..]);
    }
  }

  lemma FrameArms(s: Conn, f: Frame)
    ensures Handle(s, f).timer == Armed ==> s.timer == Armed || f.RstStream?
  {
    hide Overfull, NewOut;
  }

  lemma ReadKeepsTimerMeaning(s: Conn, frames: seq<Frame>, broken: bool)
    requires NoRequestAfterReset(frames)
    ensures TimerMeansIdle(Feed(s, frames, broken))
  {
    HandleAllKeepsTimerMeaning(s.(timer := NoTimer), frames);
    hide HandleAll;
  }

  /** A reset that empties the map, then a new request in the same read, leaves the timer armed over a live
      stream: the connection is closed under it when the timer fires. */
  lemma TimerCanOutliveIdleness()
    ensures var first := DataReceived([Request(1, false, false, [])], false);
            var second := DataReceived([RstStream(1), Request(3, false, false, [])], false);
            && Runs(FRESH, [first, second])
            && var s := Run(FRESH, [first, second]);
               s.timer == Armed && s.cycles == {3} && Enabled(s, TimerFires) && Step(s, TimerFires).closing
               && InFlight(s.streams[3])
  {
    var first := DataReceived([Request(1, false, false, [])], false);
    var batch := [RstStream(1), Request(3, false, false, [])];
    var second := DataReceived(batch, false);
    var s1 := Step(FRESH, first);
    assert [Request(1, false, false, [])][1..] == [];
    assert s1.cycles == {1} && s1.streams.Keys == {1};
    assert batch[1..] == [Request(3, false, false, [])] && batch[1..][1..] == [];
    var a := s1.(timer := NoTimer);
    var b := Handle(a, RstStream(1));
    assert b.cycles == {} && b.timer == Armed;
    var c := Handle(b, Request(3, false, false, []));
    assert HandleAll(b, batch[1..]) == HandleAll(c, []);
    assert HandleAll(a, batch) == c;
    assert [first, second][1..] == [second] && [second][1..] == [];
    assert Run(FRESH, [first, second]) == Run(s1, [second]) == Run(Step(s1, second), []);
  }
}
