/** The request bodies of an HTTP/2 connection: what the peer sends on a stream reaches its application, over every
    run. */
module Http2Uploads {
  import opened Text
  import opened Http2Spec
  import opened Http2Streams
  import opened Http2Multiplexer
  import opened Http2Runs

  // ---------- what the peer has sent, from the frames alone ----------

  /** The body of a request so far, and whether its end has been seen. */
  datatype Upload = Upload(data: Bytes, ended: bool)

  function UploadOne(u: Option<Upload>, f: Frame, id: nat): Option<Upload> {
    if f.Request? && f.id == id then Some(Upload("", false))
    else if u.None? then None
    else if f.Data? && f.id == id then Some(u.value.(data := u.value.data + f.data))
    else if f.EndOfMessage? && f.id == id then Some(u.value.(ended := true))
    else u
  }

  function UploadAll(u: Option<Upload>, frames: seq<Frame>, id: nat): Option<Upload>
    decreases |frames|
  {
    if frames == [] then u else UploadAll(UploadOne(u, frames[0], id), frames[1..], id)
  }

  function Uploaded(u: Option<Upload>, es: seq<Event>, id: nat): Option<Upload>
    decreases |es|
  {
    if es == [] then u
    else Uploaded(if es[0].DataReceived? then UploadAll(u, es[0].frames, id) else u, es[1..], id)
  }

  // ---------- what the application has received ----------

  /** What `receive` returns: data and whether there is more, or None for a disconnect. */
  function Returns(s: Conn, id: nat): Option<(Bytes, bool)>
    requires id in s.streams
  {
    var c := s.streams[id];
    if c.disconnected || c.out.complete then None else Some((c.body, c.moreBody))
  }

  /** Everything that the receives of a stream have returned, in order. */
  ghost function Received(s: Conn, es: seq<Event>, id: nat): seq<(Bytes, bool)>
    requires Runs(s, es)
    decreases |es|
  {
    if es == [] then []
    else
      var rest := Received(Step(s, es[0]), es[1..], id);
      if es[0] == ReceiveEnds(id) && Returns(s, id).Some? then [Returns(s, id).value] + rest else rest
  }

  function Datas(got: seq<(Bytes, bool)>): (r: seq<Bytes>)
    ensures |r| == |got|
  {
    seq(|got|, i requires 0 <= i < |got| => got[i].0)
  }

  // ---------- what they have to do with each other ----------

  /** Only the last can say that there is no more. */
  predicate EndsOnce(got: seq<(Bytes, bool)>) { forall i :: 0 <= i < |got| - 1 ==> got[i].1 }

  predicate SaidEnd(got: seq<(Bytes, bool)>) { got != [] && !got[|got| - 1].1 }

  /** While the response is in progress: received and buffered is what was sent, and the application is woken for
      whatever it has not been told yet. */
  predicate InStep(c: Cycle, u: Upload, got: seq<(Bytes, bool)>) {
    && u.data == Concat(Datas(got)) + c.body
    && (c.moreBody <==> !u.ended)
    && (!c.disconnected && c.body != "" ==> c.eventSet)
    && (!c.disconnected && u.ended && !SaidEnd(got) ==> c.eventSet)
  }

  predicate Agrees(s: Conn, id: nat, u: Option<Upload>, got: seq<(Bytes, bool)>) {
    && (id !in s.streams ==> got == [])
    && (Live(s, id) ==> u.Some? && InStep(s.streams[id], u.value, got))
  }

  /** A step that has nothing to do with the request body of stream `id`. */
  predicate Kept(s: Conn, t: Conn, id: nat) {
    && (id in s.streams <==> id in t.streams)
    && (Live(t, id) ==>
          && Live(s, id)
          && var c, d := s.streams[id], t.streams[id];
             && d.body == c.body && d.moreBody == c.moreBody && (c.disconnected ==> d.disconnected)
             && (!d.disconnected ==> d.eventSet == c.eventSet))
  }

  lemma KeptBoth(s: Conn, t: Conn, r: Conn, id: nat)
    requires Kept(s, t, id) && Kept(t, r, id)
    ensures Kept(s, r, id)
  {
  }

  lemma KeptAgrees(s: Conn, t: Conn, id: nat, u: Option<Upload>, got: seq<(Bytes, bool)>)
    requires Kept(s, t, id) && Agrees(s, id, u, got)
    ensures Agrees(t, id, u, got)
  {
    hide Concat, Datas, SaidEnd;
  }

  lemma ClosedKept(s: Conn, id: nat)
    ensures Kept(s, OnStreamClosed(s), id) && OnStreamClosed(s).streams == s.streams
    ensures OnStreamClosed(s).cycles == s.cycles
  {
    hide Overfull;
  }

  lemma RespondKept(s: Conn, k: nat, id: nat)
    requires k in s.streams
    ensures Kept(s, Respond(s, k), id) && Respond(s, k).streams.Keys == s.streams.Keys
  {
    hide OnStreamClosed;
    var c := s.streams[k];
    var t := s.(total := s.total + 1, cycles := s.cycles - {k}, streams := s.streams[k := c.(onResponse := false)]);
    ClosedKept(t, id);
  }

  lemma FinishKept(s: Conn, k: nat, id: nat)
    requires k in s.streams
    ensures Kept(s, Finish(s, k), id)
  {
    hide Respond;
    RespondKept(s, k, id);
  }

  /** What a message changes in its own stream, before `on_response`. */
  lemma MessageKept(s: Conn, k: nat, out: Out, event: bool, id: nat)
    requires k in s.streams && (s.streams[k].out.complete ==> out.complete)
    requires event && !out.complete ==> s.streams[k].eventSet
    requires s.streams[k].eventSet ==> event
    ensures Kept(s, s.(streams := s.streams[k := s.streams[k].(out := out, eventSet := event)]), id)
  {
  }

  lemma AppSendsKept(s: Conn, k: nat, m: Message, id: nat)
    requires k in s.streams && OutOk(s.streams[k].out)
    ensures Kept(s, AppSends(s, k, m), id) && k in AppSends(s, k, m).streams
  {
    hide Respond, Send, OutOk, Kept;
    var c := s.streams[k];
    if c.disconnected {
      assert Kept(s, s, id) by { Unchanged(s, id); }
    } else {
      var r := Send(c.out, m);
      var done := r.out.complete && !r.raised;
      var t := s.(streams := s.streams[k := c.(out := r.out, eventSet := c.eventSet || done)]);
      SendStays(c.out, m);
      MessageKept(s, k, r.out, c.eventSet || done, id);
      RespondKept(t, k, id);
      KeptBoth(s, t, Respond(t, k), id);
    }
  }

  lemma Unchanged(s: Conn, id: nat)
    ensures Kept(s, s, id)
  {
  }

  lemma SendStays(o: Out, m: Message)
    requires OutOk(o)
    ensures o.complete ==> Send(o, m).out.complete
  {
    hide Clean, Orderly, Counted, SendBody, SendStart, SendTrailers;
  }

  lemma AbortKept(s: Conn, k: nat, id: nat)
    requires k in s.streams
    ensures Kept(s, AbortStream(s, k), id) && k in AbortStream(s, k).streams
  {
  }

  lemma AppEndsKept(s: Conn, k: nat, how: Outcome, id: nat)
    requires k in s.streams
    ensures Kept(s, AppEnds(s, k, how), id)
  {
    hide Finish, AbortStream, Kept;
    PhaseKept(s, k, Starting500, id);
    FinishKept(s, k, id);
    AbortKept(s, k, id);
    FinishKept(AbortStream(s, k), k, id);
    KeptBoth(s, AbortStream(s, k), Finish(AbortStream(s, k), k), id);
  }

  lemma PhaseKept(s: Conn, k: nat, p: Phase, id: nat)
    requires k in s.streams
    ensures Kept(s, s.(streams := s.streams[k := s.streams[k].(phase := p)]), id)
  {
  }

  lemma ReceiveBeginKept(s: Conn, k: nat, id: nat)
    requires k in s.streams
    ensures Kept(s, ReceiveBegin(s, k), id)
  {
    hide Overfull;
  }

  /** Every event but a read and the end of a receive. */
  lemma OtherStepKept(s: Conn, e: Event, id: nat)
    requires Inv(s) && Enabled(s, e) && !e.DataReceived? && e != ReceiveEnds(id)
    ensures Kept(s, Step(s, e), id)
  {
    hide AppSends, AppEnds, ReceiveBegin, Finish, SendRaises, Kept, Inv, OutOk, FreshIds;
    match e {
      case ReceiveBegins(k) => ReceiveBeginKept(s, k, id);
      case ReceiveEnds(k) => OtherReceiveKept(s, k, id);
      case AppSent(k, m) =>
        SoundStream(s, k);
        AppSendsKept(s, k, m, id);
      case AppEnded(k, how) => AppEndsKept(s, k, how, id);
      case Sends500(k) =>
        SoundStream(s, k);
        AppSendsKept(s, k, START_500, id);
        var s1 := AppSends(s, k, START_500);
        FinishKept(s1, k, id);
        PhaseKept(s1, k, Finishing500, id);
        KeptBoth(s, s1, Finish(s1, k), id);
        KeptBoth(s, s1, s1.(streams := s1.streams[k := s1.streams[k].(phase := Finishing500)]), id);
      case Ends500(k) =>
        SoundStream(s, k);
        AppSendsKept(s, k, BODY_500, id);
        var s1 := AppSends(s, k, BODY_500);
        FinishKept(s1, k, id);
        KeptBoth(s, s1, Finish(s1, k), id);
      case TimerFires => FlagsKept(s, id);
      case Shutdown => FlagsKept(s, id);
      case ConnectionLost => LoseKept(s, id);
    }
  }

  lemma SoundStream(s: Conn, k: nat)
    requires Inv(s) && k in s.streams
    ensures OutOk(s.streams[k].out)
  {
    hide OutOk, MapOk, CountOk, FlowOk;
  }

  lemma OtherReceiveKept(s: Conn, k: nat, id: nat)
    requires k in s.streams && k != id
    ensures Kept(s, ReceiveEnd(s, k), id)
  {
  }

  lemma FlagsKept(s: Conn, id: nat)
    ensures Kept(s, DoShutdown(s), id) && Kept(s, CloseConnection(s.(timer := Fired)), id)
  {
  }

  lemma LoseKept(s: Conn, id: nat)
    ensures Kept(s, Lose(s), id)
  {
  }

  // ---------- frames ----------

  lemma FrameElsewhere(s: Conn, f: Frame, id: nat, u: Option<Upload>)
    requires match f case Request(k, _, _, _) => k != id case Data(k, _) => k != id case EndOfMessage(k) => k != id
             case _ => true
    ensures Kept(s, Handle(s, f), id) && (u.Some? ==> UploadOne(u, f, id) == u)
  {
    hide NewOut, OnStreamClosed, Flow.Pause;
    if f.RstStream? && f.id in s.cycles && f.id in s.streams {
      var c := s.streams[f.id];
      var live := !c.out.complete;
      var d := c.(peerReset := true, disconnected := c.disconnected || live, eventSet := c.eventSet || live);
      ClosedKept(s.(cycles := s.cycles - {f.id}, streams := s.streams[f.id := d]), id);
    }
  }

  lemma FrameAgrees(s: Conn, f: Frame, id: nat, u: Option<Upload>, got: seq<(Bytes, bool)>)
    requires Agrees(s, id, u, got) && (f.Request? ==> f.id !in s.streams)
    ensures Agrees(Handle(s, f), id, UploadOne(u, f, id), got)
  {
    hide Concat, Datas, NewOut, Flow.Pause;
    if f.Request? && f.id == id {
      NothingReceived();
    } else if f.Data? && f.id == id {
      if Live(s, id) { Assoc(Concat(Datas(got)), s.streams[id].body, f.data); }
    } else if f.EndOfMessage? && f.id == id {
    } else {
      FrameElsewhere(s, f, id, u);
      hide Handle;
      KeptAgrees(s, Handle(s, f), id, u, got);
    }
  }

  lemma NothingReceived()
    ensures Concat(Datas([])) == "" && "" + "" == ""
  {
    assert Datas([]) == [];
  }

  lemma {:induction false} FramesAgree(s: Conn, frames: seq<Frame>, id: nat, u: Option<Upload>,
                                       got: seq<(Bytes, bool)>)
    requires Agrees(s, id, u, got) && FreshIds(s.streams.Keys, frames)
    ensures Agrees(HandleAll(s, frames), id, UploadAll(u, frames, id), got)
    decreases |frames|
  {
    if frames != [] {
      FreshTail(s.streams.Keys, frames);
      FrameAgrees(s, frames[0], id, u, got);
      FrameKeys(s, frames[0]);
      hide Handle, Agrees, FreshIds, UploadOne;
      FramesAgree(Handle(s, frames[0]), frames[1..], id, UploadOne(u, frames[0], id), got);
    }
  }

  lemma FrameKeys(s: Conn, f: Frame)
    ensures Handle(s, f).streams.Keys == s.streams.Keys + (if f.Request? then {f.id} else {})
  {
    hide NewOut, Overfull;
  }

  // ---------- receives ----------

  lemma ReceiveAgrees(s: Conn, id: nat, u: Option<Upload>, got: seq<(Bytes, bool)>)
    requires Agrees(s, id, u, got) && id in s.streams
    ensures Agrees(ReceiveEnd(s, id), id, u, if Returns(s, id).Some? then got + [Returns(s, id).value] else got)
  {
    hide Concat, Datas;
    if Returns(s, id).Some? {
      OneMore(got, Returns(s, id).value);
      if Live(s, id) { Assoc(Concat(Datas(got)), s.streams[id].body, ""); }
    }
  }

  lemma OneMore(got: seq<(Bytes, bool)>, one: (Bytes, bool))
    ensures Concat(Datas(got + [one])) == Concat(Datas(got)) + one.0 == Concat(Datas(got)) + one.0 + ""
  {
    assert Datas(got + [one]) == Datas(got) + [one.0];
    ConcatOne(Datas(got), one.0);
    Assoc(Concat(Datas(got)) + one.0, "", "");
  }

  // ---------- runs ----------

  function Got(s: Conn, e: Event, id: nat, got: seq<(Bytes, bool)>): seq<(Bytes, bool)>
    requires Enabled(s, e)
  {
    if e == ReceiveEnds(id) && Returns(s, id).Some? then got + [Returns(s, id).value] else got
  }

  lemma StepAgrees(s: Conn, e: Event, id: nat, u: Option<Upload>, got: seq<(Bytes, bool)>)
    requires Inv(s) && Enabled(s, e) && Agrees(s, id, u, got)
    ensures Agrees(Step(s, e), id, if e.DataReceived? then UploadAll(u, e.frames, id) else u, Got(s, e, id, got))
  {
    hide Inv, Agrees, Kept;
    if e.DataReceived? {
      hide FreshIds, HandleAll, UploadAll;
      FlagAgrees(s, NoTimer, s.closing, s.hasRead, id, u, got);
      var s0 := s.(timer := NoTimer);
      FramesAgree(s0, e.frames, id, u, got);
      var s1 := HandleAll(s0, e.frames);
      FlagAgrees(s1, Step(s, e).timer, Step(s, e).closing, true, id, UploadAll(u, e.frames, id), got);
    } else if e == ReceiveEnds(id) {
      ReceiveAgrees(s, id, u, got);
    } else {
      OtherStepKept(s, e, id);
      hide Step;
      KeptAgrees(s, Step(s, e), id, u, got);
    }
  }

  lemma FlagAgrees(s: Conn, timer: Timer, closing: bool, hasRead: bool, id: nat, u: Option<Upload>,
      got: seq<(Bytes, bool)>)
    requires Agrees(s, id, u, got)
    ensures Agrees(s.(timer := timer, closing := closing, hasRead := hasRead), id, u, got)
  {
    hide InStep;
  }

  lemma {:induction false} RunAgrees(s: Conn, es: seq<Event>, id: nat, u: Option<Upload>, got: seq<(Bytes, bool)>)
    requires Inv(s) && Rested(s) && Runs(s, es) && Agrees(s, id, u, got)
    ensures Agrees(Run(s, es), id, Uploaded(u, es, id), got + Received(s, es, id))
    decreases |es|
  {
    hide Inv, Rested, Enabled, Step, Agrees, Returns, UploadAll;
    if es == [] {
      assert got + [] == got;
    } else {
      var e := es[0];
      StepAgrees(s, e, id, u, got);
      StepKeepsInv(s, e);
      var rest := Received(Step(s, e), es[1..], id);
      RunAgrees(Step(s, e), es[1..], id, if e.DataReceived? then UploadAll(u, e.frames, id) else u, Got(s, e, id, got));
      assert Got(s, e, id, got) + rest == got + Received(s, es, id);
    }
  }

  /** While the response on a stream is in progress, what the peer has sent of the request body is what the application
      has received of it and what is buffered; the buffer says that there is more until the end has been seen; and an
      application that has not been told everything is woken. */
  lemma UploadReachesApplication(es: seq<Event>, id: nat)
    requires Runs(FRESH, es) && id in Run(FRESH, es).cycles
    requires id in Run(FRESH, es).streams && !Run(FRESH, es).streams[id].out.complete
    ensures var c, u, got := Run(FRESH, es).streams[id], Uploaded(None, es, id), Received(FRESH, es, id);
            && u.Some? && u.value.data == Concat(Datas(got)) + c.body
            && (c.moreBody <==> !u.value.ended)
            && (!c.disconnected && (c.body != "" || (u.value.ended && !SaidEnd(got))) ==> c.eventSet)
  {
    hide Inv, Rested, Runs, Run, Received, Uploaded, Concat, Datas, SaidEnd;
    FreshOk();
    assert Agrees(FRESH, id, None, []);
    RunAgrees(FRESH, es, id, None, []);
    assert [] + Received(FRESH, es, id) == Received(FRESH, es, id);
  }

  // ---------- the end of a request ----------

  /** Nothing of the request follows its end (section 5.1 of RFC 9113). */
  predicate NothingAfterEnd(u: Option<Upload>, f: Frame, id: nat) {
    u.Some? && u.value.ended ==> !(f.Data? && f.id == id) && !(f.EndOfMessage? && f.id == id)
  }

  predicate FramesInSequence(u: Option<Upload>, frames: seq<Frame>, id: nat)
    decreases |frames|
  {
    frames == [] ||
    (NothingAfterEnd(u, frames[0], id) && FramesInSequence(UploadOne(u, frames[0], id), frames[1..], id))
  }

  predicate InSequence(u: Option<Upload>, es: seq<Event>, id: nat)
    decreases |es|
  {
    es == [] ||
    if es[0].DataReceived? then
      FramesInSequence(u, es[0].frames, id) && InSequence(UploadAll(u, es[0].frames, id), es[1..], id)
    else InSequence(u, es[1..], id)
  }

  /** The end, once said, was said last and with the last byte, and nothing is left to wake the application for. */
  predicate Said(s: Conn, id: nat, u: Option<Upload>, got: seq<(Bytes, bool)>) {
    && EndsOnce(got)
    && (SaidEnd(got) ==>
          && id in s.streams && u.Some? && u.value.ended && u.value.data == Concat(Datas(got))
          && (Live(s, id) && !s.streams[id].disconnected ==> !s.streams[id].eventSet))
  }

  lemma KeptSaid(s: Conn, t: Conn, id: nat, u: Option<Upload>, got: seq<(Bytes, bool)>)
    requires Kept(s, t, id) && Said(s, id, u, got)
    ensures Said(t, id, u, got)
  {
    hide Concat, Datas, EndsOnce;
  }

  lemma FrameSaid(s: Conn, f: Frame, id: nat, u: Option<Upload>, got: seq<(Bytes, bool)>)
    requires Said(s, id, u, got) && (f.Request? ==> f.id !in s.streams) && NothingAfterEnd(u, f, id)
    ensures Said(Handle(s, f), id, UploadOne(u, f, id), got)
  {
    hide Concat, Datas, NewOut, Flow.Pause, EndsOnce;
    if (f.Request? || f.Data? || f.EndOfMessage?) && f.id == id {
    } else {
      FrameElsewhere(s, f, id, u);
      hide Handle;
      KeptSaid(s, Handle(s, f), id, u, got);
    }
  }

  lemma {:induction false} FramesSaid(s: Conn, frames: seq<Frame>, id: nat, u: Option<Upload>,
                                      got: seq<(Bytes, bool)>)
    requires Said(s, id, u, got) && FreshIds(s.streams.Keys, frames) && FramesInSequence(u, frames, id)
    ensures Said(HandleAll(s, frames), id, UploadAll(u, frames, id), got)
    decreases |frames|
  {
    if frames != [] {
      FreshTail(s.streams.Keys, frames);
      FrameSaid(s, frames[0], id, u, got);
      FrameKeys(s, frames[0]);
      hide Handle, Said, FreshIds, UploadOne;
      FramesSaid(Handle(s, frames[0]), frames[1..], id, UploadOne(u, frames[0], id), got);
    }
  }

  lemma OnlyLiveReturns(s: Conn, id: nat)
    requires Inv(s) && InPhase(s, id, Running) && Returns(s, id).Some?
    ensures Live(s, id)
  {
    hide OutOk, CountOk, FlowOk;
  }

  lemma ReceiveSaid(s: Conn, id: nat, u: Option<Upload>, got: seq<(Bytes, bool)>)
    requires Inv(s) && Enabled(s, ReceiveEnds(id)) && Agrees(s, id, u, got) && Said(s, id, u, got)
    ensures Said(ReceiveEnd(s, id), id, u, if Returns(s, id).Some? then got + [Returns(s, id).value] else got)
  {
    hide Concat, Datas, Inv;
    if Returns(s, id).Some? {
      OnlyLiveReturns(s, id);
      OneMore(got, Returns(s, id).value);
    }
  }

  lemma StepSaid(s: Conn, e: Event, id: nat, u: Option<Upload>, got: seq<(Bytes, bool)>)
    requires Inv(s) && Enabled(s, e) && Agrees(s, id, u, got) && Said(s, id, u, got)
    requires e.DataReceived? ==> FramesInSequence(u, e.frames, id)
    ensures Said(Step(s, e), id, if e.DataReceived? then UploadAll(u, e.frames, id) else u, Got(s, e, id, got))
  {
    hide Inv, Agrees, Said, Kept, FramesInSequence;
    if e.DataReceived? {
      hide FreshIds, HandleAll, UploadAll;
      FlagSaid(s, NoTimer, s.closing, s.hasRead, id, u, got);
      var s0 := s.(timer := NoTimer);
      FramesSaid(s0, e.frames, id, u, got);
      var s1 := HandleAll(s0, e.frames);
      FlagSaid(s1, Step(s, e).timer, Step(s, e).closing, true, id, UploadAll(u, e.frames, id), got);
    } else if e == ReceiveEnds(id) {
      ReceiveSaid(s, id, u, got);
    } else {
      OtherStepKept(s, e, id);
      hide Step;
      KeptSaid(s, Step(s, e), id, u, got);
    }
  }

  lemma FlagSaid(s: Conn, timer: Timer, closing: bool, hasRead: bool, id: nat, u: Option<Upload>,
      got: seq<(Bytes, bool)>)
    requires Said(s, id, u, got)
    ensures Said(s.(timer := timer, closing := closing, hasRead := hasRead), id, u, got)
  {
    hide EndsOnce, SaidEnd;
  }

  lemma {:induction false} RunSaid(s: Conn, es: seq<Event>, id: nat, u: Option<Upload>, got: seq<(Bytes, bool)>)
    requires Inv(s) && Rested(s) && Runs(s, es) && Agrees(s, id, u, got) && Said(s, id, u, got) && InSequence(u, es, id)
    ensures Said(Run(s, es), id, Uploaded(u, es, id), got + Received(s, es, id))
    decreases |es|
  {
    hide Inv, Rested, Enabled, Step, Agrees, Said, Returns, UploadAll, FramesInSequence;
    if es == [] {
      assert got + [] == got;
    } else {
      var e := es[0];
      StepAgrees(s, e, id, u, got);
      StepSaid(s, e, id, u, got);
      StepKeepsInv(s, e);
      var rest := Received(Step(s, e), es[1..], id);
      RunSaid(Step(s, e), es[1..], id, if e.DataReceived? then UploadAll(u, e.frames, id) else u, Got(s, e, id, got));
      assert Got(s, e, id, got) + rest == got + Received(s, es, id);
    }
  }

  /** If nothing follows the end of the request, "no more body" is said at most once and last, when the end has been
      seen, and by then the application has received everything. */
  lemma EndIsSaidOnce(es: seq<Event>, id: nat)
    requires Runs(FRESH, es) && InSequence(None, es, id)
    ensures var u, got := Uploaded(None, es, id), Received(FRESH, es, id);
            && (forall i :: 0 <= i < |got| - 1 ==> got[i].1)
            && (got != [] && !got[|got| - 1].1 ==>
                  u.Some? && u.value.ended && u.value.data == Concat(Datas(got)))
  {
    hide Inv, Rested, Runs, Run, Received, Uploaded, Concat, Datas, InSequence;
    FreshOk();
    assert Agrees(FRESH, id, None, []) && Said(FRESH, id, None, []);
    RunSaid(FRESH, es, id, None, []);
    assert [] + Received(FRESH, es, id) == Received(FRESH, es, id);
  }
}
