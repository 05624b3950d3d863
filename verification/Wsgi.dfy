/** The bridge from a WSGI application in a worker thread to the event loop (WSGIResponder in wsgi.py): a queue that
    both sides touch, and an event that the thread can only have set by posting a callback. */
module Wsgi {
  import opened Text

  datatype Message = Start(status: int) | Body(chunk: Bytes, more: bool)

  /** `Empty`: the sender has seen an empty queue and is about to wait. */
  datatype Sender = Looping | Sending(message: Message) | Empty | Waiting | Returned

  /** The worker thread is between appending a message and posting the callback that sets the event, or not. */
  datatype Worker = Working(posting: bool) | Finished

  /** `posted`: callbacks handed to the loop and not yet run. `log` is the history of everything ever appended,
      None being the end; `taken` and `sent` are how much of it the sender has taken, and passed on. */
  datatype Bridge = Bridge(
    queue: seq<Option<Message>>, eventSet: bool, posted: nat, worker: Worker, sender: Sender, closed: bool,
    started: bool, log: seq<Option<Message>>, sent: seq<Message>)

  const FRESH := Bridge([], false, 0, Working(false), Looping, false, false, [], [])

  function Append(b: Bridge, m: Option<Message>): Bridge { b.(queue := b.queue + [m], log := b.log + [m]) }

  /** One step of one of the two threads; the loop's own callbacks and tasks never overlap, but the worker may do its
      steps between any two of the others. */
  datatype Step =
    | StartResponse(status: int)  // worker: `start_response`
    | Chunk(chunk: Bytes)         // worker: the application yields a chunk
    | EndOfChunks                 // worker: the empty last body
    | Post                        // worker: `call_soon_threadsafe`
    | WorkerEnds                  // worker: returns or raises
    | RunCallback                 // loop: a posted callback sets the event
    | Close                       // loop: `__call__` appends None and sets the event, also when it is cancelled
    | Look                        // sender: looks at the queue
    | Wait                        // sender: `wait`, which returns at once if the event is set
    | Wake                        // sender: resumes after `wait`, and clears the event
    | Passed                      // sender: `send` has returned

  predicate Enabled(b: Bridge, e: Step) {
    match e
    case StartResponse(_) => b.worker == Working(false)
    case Chunk(_) => b.worker == Working(false)
    case EndOfChunks => b.worker == Working(false)
    case Post => b.worker == Working(true)
    case WorkerEnds => b.worker == Working(false)
    case RunCallback => b.posted > 0
    case Close => !b.closed
    case Look => b.sender == Looping
    case Wait => b.sender == Empty
    case Wake => b.sender == Waiting && b.eventSet
    case Passed => b.sender.Sending?
  }

  function Do(b: Bridge, e: Step): Bridge
    requires Enabled(b, e)
  {
    match e
    case StartResponse(status) =>
      if b.started then b else Append(b, Some(Start(status))).(started := true, worker := Working(true))
    case Chunk(chunk) => Append(b, Some(Body(chunk, true))).(worker := Working(true))
    case EndOfChunks => Append(b, Some(Body("", false))).(worker := Working(true))
    case Post => b.(posted := b.posted + 1, worker := Working(false))
    case WorkerEnds => b.(worker := Finished)
    case RunCallback => b.(posted := b.posted - 1, eventSet := true)
    case Close => Append(b, None).(closed := true, eventSet := true)
    case Look =>
      if b.queue == [] then b.(sender := Empty)
      else if b.queue[0].None? then b.(queue := b.queue[1..], sender := Returned)
      else b.(queue := b.queue[1..], sender := Sending(b.queue[0].value))
    case Wait => if b.eventSet then b.(sender := Looping, eventSet := false) else b.(sender := Waiting)
    case Wake => b.(sender := Looping, eventSet := false)
    case Passed => b.(sender := Looping, sent := b.sent + [b.sender.message])
  }

  ghost predicate Runs(b: Bridge, es: seq<Step>)
    decreases |es|
  {
    es == [] || (Enabled(b, es[0]) && Runs(Do(b, es[0]), es[1..]))
  }

  ghost function Run(b: Bridge, es: seq<Step>): Bridge
    requires Runs(b, es)
    decreases |es|
  {
    if es == [] then b else Run(Do(b, es[0]), es[1..])
  }

  /** What the sender has taken from the queue: the messages sent, the one being sent, and the end. */
  function Taken(b: Bridge): seq<Option<Message>> {
    Somes(b.sent) + (if b.sender.Sending? then [Some(b.sender.message)] else if b.sender.Returned? then [None] else [])
  }

  function Somes(ms: seq<Message>): seq<Option<Message>> { seq(|ms|, i requires 0 <= i < |ms| => Some(ms[i])) }

  /** A sender that waits, or is about to, on a queue that is not empty will find the event set: it is, or a callback
      that sets it is posted or about to be. */
  predicate WakeupPending(b: Bridge) {
    (b.sender == Empty || b.sender == Waiting) && b.queue != [] ==>
      b.eventSet || b.posted > 0 || b.worker == Working(true)
  }

  /** The end is appended at most once, and so is a start message. */
  ghost predicate LogOk(log: seq<Option<Message>>, closed: bool, started: bool) {
    && (closed <==> None in log)
    && (forall i, j :: 0 <= i < j < |log| ==> !(log[i].None? && log[j].None?))
    && (!started ==> forall i :: 0 <= i < |log| && log[i].Some? ==> !log[i].value.Start?)
    && (forall i, j :: 0 <= i < j < |log| && log[i].Some? && log[j].Some? ==>
          !(log[i].value.Start? && log[j].value.Start?))
  }

  ghost predicate Inv(b: Bridge) {
    b.log == Taken(b) + b.queue && LogOk(b.log, b.closed, b.started) && WakeupPending(b)
  }

  lemma LogGrows(log: seq<Option<Message>>, closed: bool, started: bool, m: Option<Message>)
    requires LogOk(log, closed, started)
    requires (m.None? ==> !closed) && (m.Some? && m.value.Start? ==> !started)
    ensures LogOk(log + [m], closed || m.None?, started || (m.Some? && m.value.Start?))
  {
    var longer := log + [m];
    assert longer[|log|] == m;
    assert forall i :: 0 <= i < |log| ==> longer[i] == log[i];
  }

  lemma AppendOk(b: Bridge, m: Option<Message>)
    requires b.log == Taken(b) + b.queue
    ensures var c := Append(b, m); c.log == Taken(c) + c.queue
  {
    assert Taken(b) + b.queue + [m] == Taken(b) + (b.queue + [m]);
  }

  lemma LookOk(b: Bridge)
    requires b.log == Taken(b) + b.queue && b.sender == Looping && b.queue != []
    ensures var c := Do(b, Look); c.log == Taken(c) + c.queue
  {
    var c := Do(b, Look);
    assert Taken(c) == Taken(b) + [b.queue[0]];
    assert b.queue == [b.queue[0]] + c.queue;
  }

  lemma PassedOk(b: Bridge)
    requires b.sender.Sending?
    ensures Taken(Do(b, Passed)) == Taken(b)
  {
    assert Somes(b.sent + [b.sender.message]) == Somes(b.sent) + [Some(b.sender.message)];
  }

  lemma StepKeepsInv(b: Bridge, e: Step)
    requires Inv(b) && Enabled(b, e)
    ensures Inv(Do(b, e))
  {
    hide LogOk, Somes;
    match e {
      case StartResponse(status) =>
        if !b.started {
          AppendOk(b, Some(Start(status)));
          LogGrows(b.log, b.closed, b.started, Some(Start(status)));
        }
      case Chunk(chunk) =>
        AppendOk(b, Some(Body(chunk, true)));
        LogGrows(b.log, b.closed, b.started, Some(Body(chunk, true)));
      case EndOfChunks =>
        AppendOk(b, Some(Body("", false)));
        LogGrows(b.log, b.closed, b.started, Some(Body("", false)));
      case Close =>
        AppendOk(b, None);
        LogGrows(b.log, b.closed, b.started, None);
      case Look => if b.queue != [] { LookOk(b); }
      case Passed => PassedOk(b);
      case _ =>
    }
  }

  lemma {:induction false} RunKeepsInv(b: Bridge, es: seq<Step>)
    requires Inv(b) && Runs(b, es)
    ensures Inv(Run(b, es))
    decreases |es|
  {
    if es != [] {
      hide Inv, Do, Enabled;
      StepKeepsInv(b, es[0]);
      RunKeepsInv(Do(b, es[0]), es[1..]);
    }
  }

  lemma Reached(es: seq<Step>)
    requires Runs(FRESH, es)
    ensures Inv(Run(FRESH, es))
  {
    assert Inv(FRESH);
    hide Inv;
    RunKeepsInv(FRESH, es);
  }

  /** No wakeup is lost, under every interleaving of the thread, the posted callbacks and the sender. */
  lemma NoLostWakeup(es: seq<Step>)
    requires Runs(FRESH, es)
    ensures var b := Run(FRESH, es);
            b.sender == Waiting && b.queue != [] ==> b.eventSet || b.posted > 0 || b.worker == Working(true)
  {
    Reached(es);
  }

  /** What the application and the end of `__call__` hand over, in order: the first start message, every chunk, the
      empty last body, and the end. */
  function HandedOver(es: seq<Step>, started: bool): seq<Option<Message>>
    decreases |es|
  {
    if es == [] then []
    else
      match es[0]
      case StartResponse(status) =>
        (if started then [] else [Some(Start(status))]) + HandedOver(es[1..], true)
      case Chunk(chunk) => [Some(Body(chunk, true))] + HandedOver(es[1..], started)
      case EndOfChunks => [Some(Body("", false))] + HandedOver(es[1..], started)
      case Close => [None] + HandedOver(es[1..], started)
      case _ => HandedOver(es[1..], started)
  }

  lemma {:induction false} LogIsHandedOver(b: Bridge, es: seq<Step>)
    requires Runs(b, es)
    ensures Run(b, es).log == b.log + HandedOver(es, b.started)
    ensures Run(b, es).closed <==> b.closed || Close in es
    decreases |es|
  {
    if es == [] {
      assert b.log + [] == b.log;
    } else {
      var c := Do(b, es[0]);
      LogIsHandedOver(c, es[1..]);
      hide Run, Runs;
      var rest := HandedOver(es[1..], c.started);
      assert es == [es[0]] + es[1..];
      match es[0] {
        case StartResponse(status) =>
          if b.started { assert [] + rest == rest; } else { Hand(b.log, Some(Start(status)), rest); }
        case Chunk(chunk) => Hand(b.log, Some(Body(chunk, true)), rest);
        case EndOfChunks => Hand(b.log, Some(Body("", false)), rest);
        case Close => Hand(b.log, None, rest);
        case _ =>
      }
    }
  }

  lemma Hand(log: seq<Option<Message>>, m: Option<Message>, rest: seq<Option<Message>>)
    ensures log + [m] + rest == log + ([m] + rest)
  {
  }

  lemma HandedOverIs(es: seq<Step>)
    requires Runs(FRESH, es)
    ensures Run(FRESH, es).log == HandedOver(es, false) && (Run(FRESH, es).closed <==> Close in es)
  {
    LogIsHandedOver(FRESH, es);
    assert [] + HandedOver(es, false) == HandedOver(es, false);
  }

  /** What has been sent is what was handed over, once each and in order; and at most one start message is among it. */
  lemma SentInOrder(es: seq<Step>)
    requires Runs(FRESH, es)
    ensures var b := Run(FRESH, es);
            && Somes(b.sent) <= HandedOver(es, false)
            && (forall i, j :: 0 <= i < j < |b.sent| ==> !(b.sent[i].Start? && b.sent[j].Start?))
  {
    hide HandedOver;
    Reached(es);
    HandedOverIs(es);
    var b := Run(FRESH, es);
    assert Somes(b.sent) <= Taken(b) <= b.log;
    forall i, j | 0 <= i < j < |b.sent| ensures !(b.sent[i].Start? && b.sent[j].Start?) {
      assert b.log[i] == Some(b.sent[i]) && b.log[j] == Some(b.sent[j]);
    }
  }

  lemma EndIsLogged(b: Bridge)
    requires Inv(b) && b.closed
    ensures None in b.log && b.log == Taken(b) + b.queue && WakeupPending(b)
  {
    hide Somes, Taken, WakeupPending;
  }

  /** With an empty queue, a waiting sender has taken messages only. */
  lemma NothingTaken(b: Bridge)
    requires b.log == Taken(b) + b.queue && b.sender == Waiting && b.queue == []
    ensures None !in b.log
  {
    assert b.log == Somes(b.sent);
  }

  lemma AllSent(b: Bridge)
    requires b.log == Taken(b) + b.queue && b.sender == Returned
    ensures |b.sent| < |b.log| && b.log[|b.sent|].None? && b.log[..|b.sent|] == Somes(b.sent)
  {
  }

  /** Once `__call__` has handed over the end, if nothing more can happen by itself, the sender has returned, and it
      has sent everything that was handed over before the end. */
  lemma NothingIsLeftUnsent(es: seq<Step>)
    requires Runs(FRESH, es) && Close in es
    requires var b := Run(FRESH, es);
             && b.worker == Finished && b.posted == 0
             && !Enabled(b, Look) && !Enabled(b, Wait) && !Enabled(b, Wake) && !Enabled(b, Passed)
    ensures var b := Run(FRESH, es); var handed := HandedOver(es, false);
            b.sender == Returned && exists n :: 0 <= n < |handed| && handed[n].None? && handed[..n] == Somes(b.sent)
  {
    hide Inv, Runs, Run, Somes, Taken, HandedOver;
    Reached(es);
    HandedOverIs(es);
    var b := Run(FRESH, es);
    EndIsLogged(b);
    if b.sender == Waiting { NothingTaken(b); }
    AllSent(b);
  }

  // ---------- the WSGIResponder object ----------

  class WSGIResponder {
    var sendQueue: seq<Option<Message>>
    var sendEvent: bool
    var responseStarted: bool
    var posted: nat  // callbacks that the loop has still to run
    ghost var abs: Bridge

    ghost predicate Valid()
      reads this
    {
      abs.queue == sendQueue && abs.eventSet == sendEvent && abs.started == responseStarted && abs.posted == posted
    }

    constructor ()
      ensures Valid() && abs == FRESH
    {
      sendQueue, sendEvent, responseStarted, posted := [], false, false, 0;
      abs := FRESH;
    }

    /** The request body: the bodies of the messages received, up to the last. */
    method ReadBody(messages: seq<(Bytes, bool)>) returns (body: Bytes, count: nat)
      requires exists k :: 0 <= k < |messages| && !messages[k].1
      ensures 0 < count <= |messages| && !messages[count - 1].1 && (forall k :: 0 <= k < count - 1 ==> messages[k].1)
      ensures body == Concat(Bodies(messages[..count]))
    {
      hide Concat;
      count := 1;
      body := messages[0].0;
      ConcatOne([], body);
      ConcatNone();
      assert Bodies(messages[..1]) == [] + [body];
      while messages[count - 1].1
        invariant 0 < count <= |messages| && (forall k :: 0 <= k < count - 1 ==> messages[k].1)
        invariant body == Concat(Bodies(messages[..count]))
        decreases |messages| - count
      {
        assert messages[|messages| - 1] == messages[count - 1] || count < |messages|;
        ConcatOne(Bodies(messages[..count]), messages[count].0);
        assert Bodies(messages[..count + 1]) == Bodies(messages[..count]) + [messages[count].0];
        body := body + messages[count].0;
        count := count + 1;
      }
    }

    /** `start_response`, in the worker thread, up to posting the callback. */
    method StartResponse(status: int) returns (appended: bool)
      requires Valid() && Enabled(abs, Step.StartResponse(status))
      modifies this
      ensures Valid() && abs == Do(old(abs), Step.StartResponse(status)) && appended == !old(responseStarted)
    {
      ghost var next := Do(abs, Step.StartResponse(status));
      appended := !responseStarted;
      if !responseStarted {
        responseStarted := true;
        sendQueue := sendQueue + [Some(Start(status))];
      }
      abs := next;
    }

    /** The body of the loop over the application's chunks, or the empty body after it, up to posting the callback. */
    method AppendBody(chunk: Bytes, more: bool)
      requires Valid() && abs.worker == Working(false) && (!more ==> chunk == "")
      modifies this
      ensures Valid() && abs == Do(old(abs), if more then Chunk(chunk) else EndOfChunks)
    {
      sendQueue := sendQueue + [Some(Body(chunk, more))];
      abs := Do(abs, if more then Chunk(chunk) else EndOfChunks);
    }

    /** `call_soon_threadsafe(self.send_event.set)` */
    method PostSet()
      requires Valid() && Enabled(abs, Post)
      modifies this
      ensures Valid() && abs == Do(old(abs), Post)
    {
      posted := posted + 1;
      abs := Do(abs, Post);
    }

    /** The loop runs a posted callback. */
    method Callback()
      requires Valid() && Enabled(abs, RunCallback)
      modifies this
      ensures Valid() && abs == Do(old(abs), RunCallback)
    {
      posted := posted - 1;
      sendEvent := true;
      abs := Do(abs, RunCallback);
    }

    /** The `finally` of `__call__`. */
    method Close()
      requires Valid() && Enabled(abs, Step.Close)
      modifies this
      ensures Valid() && abs == Do(old(abs), Step.Close)
    {
      sendQueue := sendQueue + [None];
      sendEvent := true;
      abs := Do(abs, Step.Close);
    }

    /** `sender`, from the test of the queue to its next `await`, or to its end. */
    method SenderLooks() returns (next: Option<Message>)
      requires Valid() && Enabled(abs, Look)
      modifies this
      ensures Valid() && abs == Do(old(abs), Look)
      ensures next == if abs.sender.Sending? then Some(abs.sender.message) else None
    {
      ghost var after := Do(abs, Look);
      next := None;
      if sendQueue != [] {
        next := sendQueue[0];
        sendQueue := sendQueue[1..];
      }
      abs := after;
    }

    /** `send_event.wait()` and `send_event.clear()`; `suspends` says that the event was not set. */
    method SenderWaits() returns (suspends: bool)
      requires Valid() && Enabled(abs, Wait)
      modifies this
      ensures Valid() && abs == Do(old(abs), Wait) && suspends == (abs.sender == Waiting)
    {
      ghost var after := Do(abs, Wait);
      suspends := !sendEvent;
      sendEvent := false;
      abs := after;
    }

    method SenderWakes()
      requires Valid() && Enabled(abs, Wake)
      modifies this
      ensures Valid() && abs == Do(old(abs), Wake)
    {
      sendEvent := false;
      abs := Do(abs, Wake);
    }
  }

  function Bodies(messages: seq<(Bytes, bool)>): seq<Bytes> {
    seq(|messages|, i requires 0 <= i < |messages| => messages[i].0)
  }
}
