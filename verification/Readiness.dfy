/** The health check of one worker (Process in multiprocess.py): pings to the child, answers from it that may come
    after the parent has stopped waiting, and so be read as the answer to a later ping. */
module Readiness {
  import opened Text

  /** `pings`: sent, not yet read by the child. `holding`: the child has read one and not yet answered. `replies`:
      answers not yet read by the parent. `sent` and `received` are history. */
  datatype Pipe = Pipe(waiting: bool, pings: nat, holding: bool, replies: seq<bool>, started: bool,
                       sent: nat, received: seq<bool>)

  const FRESH := Pipe(false, 0, false, [], false, 0, [])

  datatype Step =
    | Ping          // the parent sends a ping and starts to wait
    | Recv          // the parent reads the oldest answer
    | GiveUp        // the time is over, or the pipe is broken
    | Take          // the child reads a ping
    | Reply         // the child answers whether its server has started
    | ServerStarts  // `Server.started` becomes True, for good

  predicate Enabled(p: Pipe, e: Step) {
    match e
    case Ping => !p.waiting
    case Recv => p.waiting && p.replies != []
    case GiveUp => p.waiting
    case Take => !p.holding && p.pings > 0
    case Reply => p.holding
    case ServerStarts => true
  }

  function Do(p: Pipe, e: Step): Pipe
    requires Enabled(p, e)
  {
    match e
    case Ping => p.(waiting := true, pings := p.pings + 1, sent := p.sent + 1)
    case Recv => p.(waiting := false, replies := p.replies[1..], received := p.received + [p.replies[0]])
    case GiveUp => p.(waiting := false)
    case Take => p.(holding := true, pings := p.pings - 1)
    case Reply => p.(holding := false, replies := p.replies + [p.started])
    case ServerStarts => p.(started := true)
  }

  ghost predicate Runs(p: Pipe, es: seq<Step>)
    decreases |es|
  {
    es == [] || (Enabled(p, es[0]) && Runs(Do(p, es[0]), es[1..]))
  }

  ghost function Run(p: Pipe, es: seq<Step>): Pipe
    requires Runs(p, es)
    decreases |es|
  {
    if es == [] then p else Run(Do(p, es[0]), es[1..])
  }

  /** Every answer ever given, read or not. */
  function Answers(p: Pipe): seq<bool> { p.received + p.replies }

  predicate Inv(p: Pipe) {
    && p.pings + (if p.holding then 1 else 0) + |Answers(p)| == p.sent
    && (!p.started ==> forall i :: 0 <= i < |Answers(p)| ==> !Answers(p)[i])
  }

  lemma StepKeepsInv(p: Pipe, e: Step)
    requires Inv(p) && Enabled(p, e)
    ensures Inv(Do(p, e)) && Answers(p) <= Answers(Do(p, e))
    ensures p.started ==> Do(p, e).started &&
                          forall i :: |Answers(p)| <= i < |Answers(Do(p, e))| ==> Answers(Do(p, e))[i]
  {
    var q := Do(p, e);
    if e.Recv? {
      assert Answers(q) == Answers(p);
    } else if e.Reply? {
      assert Answers(q) == Answers(p) + [p.started];
    } else {
      assert Answers(q) == Answers(p);
    }
  }

  lemma {:induction false} RunKeepsInv(p: Pipe, es: seq<Step>)
    requires Inv(p) && Runs(p, es)
    ensures Inv(Run(p, es)) && Answers(p) <= Answers(Run(p, es))
    ensures p.started ==> Run(p, es).started &&
                          forall i :: |Answers(p)| <= i < |Answers(Run(p, es))| ==> Answers(Run(p, es))[i]
    decreases |es|
  {
    if es != [] {
      StepKeepsInv(p, es[0]);
      hide Inv, Do, Enabled, Answers;
      RunKeepsInv(Do(p, es[0]), es[1..]);
      var q, r := Do(p, es[0]), Run(p, es);
      if p.started {
        forall i | |Answers(p)| <= i < |Answers(r)| ensures Answers(r)[i] {
          if i < |Answers(q)| { assert Answers(r)[i] == Answers(q)[i]; }
        }
      }
    }
  }

  /** Answers never outnumber pings; a check that reads True is of a worker whose server has started. */
  lemma ReadyIsSound(es: seq<Step>, i: nat)
    requires Runs(FRESH, es) && i < |Run(FRESH, es).received|
    ensures |Answers(Run(FRESH, es))| <= Run(FRESH, es).sent
    ensures Run(FRESH, es).received[i] ==> Run(FRESH, es).started
  {
    RunKeepsInv(FRESH, es);
    assert Answers(Run(FRESH, es))[i] == Run(FRESH, es).received[i];
  }

  /** The answers read are False exactly up to those already given when the server started: a started worker is
      reported not ready at most once for each answer left in the pipe by a check that gave up, and once reported
      ready it is never reported otherwise. */
  lemma StaleAnswersAreBounded(es: seq<Step>, later: seq<Step>, i: nat)
    requires Runs(FRESH, es) && !Run(FRESH, es).started
    requires var p := Do(Run(FRESH, es), ServerStarts); Runs(p, later) && i < |Run(p, later).received|
    ensures var s := Run(FRESH, es);
            Run(Do(s, ServerStarts), later).received[i] <==> i >= |s.received| + |s.replies|
  {
    var s := Run(FRESH, es);
    var p := Do(s, ServerStarts);
    var t := Run(p, later);
    RunKeepsInv(FRESH, es);
    RunKeepsInv(p, later);
    assert Answers(p) == Answers(s);
    assert t.received[i] == Answers(t)[i];
    if i < |Answers(s)| { assert Answers(t)[i] == Answers(s)[i]; }
  }

  // ---------- the Process object ----------

  /** What the child does while the parent waits, as far as it can. */
  function ChildDoes(p: Pipe, es: seq<Step>): (q: Pipe)
    ensures q.waiting == p.waiting && q.received == p.received
    decreases |es|
  {
    if es == [] then p
    else if (es[0].Take? || es[0].Reply? || es[0].ServerStarts?) && Enabled(p, es[0]) then
      ChildDoes(Do(p, es[0]), es[1..])
    else ChildDoes(p, es[1..])
  }

  lemma {:induction false} ChildKeeps(p: Pipe, es: seq<Step>)
    requires Inv(p)
    ensures Inv(ChildDoes(p, es))
    decreases |es|
  {
    if es != [] {
      if (es[0].Take? || es[0].Reply? || es[0].ServerStarts?) && Enabled(p, es[0]) {
        StepKeepsInv(p, es[0]);
        ChildKeeps(Do(p, es[0]), es[1..]);
      } else {
        ChildKeeps(p, es[1..]);
      }
    }
  }

  /** One turn of `wait_until_ready`. */
  datatype Turn = Turn(exit: bool, alive: bool, during: seq<Step>, broken: bool, between: seq<Step>)

  /** One health check: a ping, what the child does before the time is over, and the oldest answer in the pipe, if
      there is one and the pipe is not broken. */
  function Checked(p: Pipe, during: seq<Step>, broken: bool): (Pipe, Option<bool>)
    requires !p.waiting
  {
    var waited := ChildDoes(Do(p, Ping), during);
    if broken || waited.replies == [] then (Do(waited, GiveUp), None)
    else (Do(waited, Recv), Some(waited.replies[0]))
  }

  /** All turns of `wait_until_ready`: the pipe afterwards, and the result. */
  function Waited(p: Pipe, turns: seq<Turn>): (Pipe, bool)
    requires !p.waiting
    decreases |turns|
  {
    if turns == [] || turns[0].exit || !turns[0].alive then (p, false)
    else
      var (q, started) := Checked(p, turns[0].during, turns[0].broken);
      if started == Some(true) then (q, true) else Waited(ChildDoes(q, turns[0].between), turns[1..])
  }

  lemma CheckedIsSound(p: Pipe, during: seq<Step>, broken: bool)
    requires Inv(p) && !p.waiting
    ensures var (q, started) := Checked(p, during, broken);
            && Inv(q) && !q.waiting && (started == Some(true) ==> q.started)
            && q.received == p.received + if started.Some? then [started.value] else []
  {
    StepKeepsInv(p, Ping);
    ChildKeeps(Do(p, Ping), during);
    var waited := ChildDoes(Do(p, Ping), during);
    StepKeepsInv(waited, GiveUp);
    assert p.received + [] == p.received;
    if waited.replies != [] {
      StepKeepsInv(waited, Recv);
      assert Answers(waited)[|waited.received|] == waited.replies[0];
    }
  }

  /** It is True exactly if an answer that it has read says so, and then the worker's server has started. */
  lemma {:induction false} WaitedIsSound(p: Pipe, turns: seq<Turn>)
    requires Inv(p) && !p.waiting
    ensures var (q, ready) := Waited(p, turns);
            && Inv(q) && !q.waiting && (ready ==> q.started)
            && p.received <= q.received && (ready <==> true in q.received[|p.received|..])
    decreases |turns|
  {
    hide Inv, Checked;
    if turns == [] || turns[0].exit || !turns[0].alive {
    } else {
      var (q, started) := Checked(p, turns[0].during, turns[0].broken);
      CheckedIsSound(p, turns[0].during, turns[0].broken);
      if started != Some(true) {
        ChildKeeps(q, turns[0].between);
        WaitedIsSound(ChildDoes(q, turns[0].between), turns[1..]);
        var (r, ready) := Waited(p, turns);
        assert r.received[|p.received|..] == q.received[|p.received|..] + r.received[|q.received|..];
      } else {
        assert q.received[|p.received|..] == [true];
      }
    }
  }

  class Process {
    var pipe: Pipe

    ghost predicate Valid()
      reads this
    {
      Inv(pipe) && !pipe.waiting
    }

    constructor ()
      ensures Valid() && pipe == FRESH
    {
      pipe := FRESH;
    }

    /** `_healthcheck`: what the child does before the time is over, and whether the pipe turns out to be broken. */
    method Healthcheck(during: seq<Step>, broken: bool) returns (started: Option<bool>)
      requires Valid()
      modifies this
      ensures Valid() && (started == Some(true) ==> pipe.started)
      ensures var waited := ChildDoes(Do(old(pipe), Ping), during);
              if broken || waited.replies == [] then started == None && pipe == waited.(waiting := false)
              else started == Some(waited.replies[0]) && pipe == waited.(
                     waiting := false, replies := waited.replies[1..],
                         received := waited.received + [waited.replies[0]])
      ensures (pipe, started) == Checked(old(pipe), during, broken)
    {
      CheckedIsSound(pipe, during, broken);
      pipe := Do(pipe, Ping);
      pipe := ChildDoes(pipe, during);
      if !broken && pipe.replies != [] {
        started := Some(pipe.replies[0]);
        pipe := Do(pipe, Recv);
      } else {
        started := None;
        pipe := Do(pipe, GiveUp);
      }
    }

    method IsReady(during: seq<Step>, broken: bool) returns (ready: bool)
      requires Valid()
      modifies this
      ensures Valid() && (ready ==> pipe.started)
      ensures pipe == Checked(old(pipe), during, broken).0
      ensures ready <==> Checked(old(pipe), during, broken).1 == Some(true)
    {
      var started := Healthcheck(during, broken);
      ready := started.Some? && started.value;
    }

    /** `wait_until_ready`, turn by turn until the deadline: True exactly if an answer it has read says so. */
    method WaitUntilReady(turns: seq<Turn>) returns (ready: bool)
      requires Valid()
      modifies this
      ensures Valid() && (ready ==> pipe.started) && (pipe, ready) == Waited(old(pipe), turns)
      ensures old(pipe.received) <= pipe.received && (ready <==> true in pipe.received[|old(pipe.received)|..])
    {
      hide Checked, ChildDoes;
      WaitedIsSound(pipe, turns);
      assert turns[0..] == turns;
      for k := 0 to |turns|
        invariant Valid() && Waited(old(pipe), turns) == Waited(pipe, turns[k..])
      {
        assert turns[k..][0] == turns[k] && turns[k..][1..] == turns[k + 1..];
        if turns[k].exit || !turns[k].alive { return false; }
        ready := IsReady(turns[k].during, turns[k].broken);
        if ready { return; }
        ChildKeeps(pipe, turns[k].between);
        pipe := ChildDoes(pipe, turns[k].between);
      }
      ready := false;
    }
  }
}
