/** What the supervisor keeps through every signal, restart and health check: no child is ever lost, the number of
    workers is the number asked for, and a restart never costs capacity. */
module Supervisor {
  import opened Lists
  import Readiness
  import opened SupervisorSpec

  // ---------- children ----------

  /** The children started and not yet told to stop, by terminating or killing them. */
  ghost function Serving(trace: seq<Action>): set<nat> {
    if trace == [] then {} else After(Serving(trace[..|trace| - 1]), trace[|trace| - 1])
  }

  function After(serving: set<nat>, a: Action): set<nat> {
    if a.Started? then serving + {a.c} else if a.Terminated? || a.Killed? then serving - {a.c} else serving
  }

  /** Exactly the children below `next` have been started. */
  ghost predicate StartedBelow(trace: seq<Action>, next: nat) {
    forall c: nat :: Started(c) in trace <==> c < next
  }

  /** Every child ever started is in `processes` or has been joined. */
  ghost predicate NoneLost(processes: seq<nat>, next: nat, trace: seq<Action>) {
    && (forall i :: 0 <= i < |processes| ==> processes[i] < next)
    && (forall c: nat :: c < next ==> c in processes || Joined(c) in trace)
  }

  ghost predicate Inv(s: Sup) {
    && Distinct(s.processes) && |s.processes| == s.num && s.num >= 1
    && StartedBelow(s.trace, s.next) && NoneLost(s.processes, s.next, s.trace)
    && (!s.exit ==> Serving(s.trace) == Elements(s.processes))
    && s.handled + s.queue == s.arrived
  }

  lemma ServingOne(trace: seq<Action>, a: Action)
    ensures Serving(trace + [a]) == After(Serving(trace), a)
  {
    assert (trace + [a])[..|trace|] == trace;
  }

  lemma StartedOne(trace: seq<Action>, a: Action, next: nat)
    requires StartedBelow(trace, next) && (a.Started? ==> a.c == next)
    ensures StartedBelow(trace + [a], if a.Started? then next + 1 else next)
  {
    forall c: nat ensures Started(c) in trace + [a] <==> c < (if a.Started? then next + 1 else next) {
      assert Started(c) in trace + [a] <==> Started(c) in trace || Started(c) == a;
    }
  }

  /** A worker's place is taken by a new child, after it has been joined. */
  lemma Replaced(processes: seq<nat>, i: nat, next: nat, trace: seq<Action>, longer: seq<Action>)
    requires Distinct(processes) && NoneLost(processes, next, trace) && i < |processes|
    requires trace <= longer && Joined(processes[i]) in longer
    ensures Distinct(processes[i := next]) && NoneLost(processes[i := next], next + 1, longer)
    ensures Elements(processes[i := next]) == Elements(processes) - {processes[i]} + {next}
  {
    var p := processes[i := next];
    assert forall c :: c in trace ==> c in longer;
    forall c: nat | c < next + 1 ensures c in p || Joined(c) in longer {
      if c == next {
        assert p[i] == next;
      } else if c in processes && c != processes[i] {
        var k :| 0 <= k < |processes| && processes[k] == c;
        assert p[k] == c;
      }
    }
    forall c ensures c in Elements(p) <==> c in Elements(processes) - {processes[i]} + {next} {
      if c in Elements(processes) && c != processes[i] {
        var k :| 0 <= k < |processes| && processes[k] == c;
        assert p[k] == c;
      }
      if c == next { assert p[i] == c; }
    }
  }

  lemma Extended(processes: seq<nat>, next: nat, trace: seq<Action>, longer: seq<Action>)
    requires Distinct(processes) && NoneLost(processes, next, trace) && trace <= longer
    ensures NoneLost(processes, next, longer)
    ensures Distinct(processes + [next]) && NoneLost(processes + [next], next + 1, longer)
    ensures Elements(processes + [next]) == Elements(processes) + {next}
  {
    assert forall a :: a in trace ==> a in longer;
    var p := processes + [next];
    assert p[|processes|] == next;
  }

  lemma {:induction false} Cardinality(s: seq<nat>)
    requires Distinct(s)
    ensures |Elements(s)| == |s|
  {
    if s != [] {
      var n := |s| - 1;
      Cardinality(s[..n]);
      assert Elements(s) == Elements(s[..n]) + {s[n]};
      assert s[n] !in s[..n];
    }
  }

  // ---------- capacity ----------

  /** From position `from` on, at every moment, at least `n` children are serving, and a worker is terminated only
      right after its replacement is ready. */
  ghost predicate Kept(trace: seq<Action>, from: nat, n: nat) {
    && from <= |trace|
    && (forall k :: from <= k <= |trace| ==> |Serving(trace[..k])| >= n)
    && (forall k :: from <= k < |trace| && trace[k].Terminated? ==> k > from && trace[k - 1].Ready?)
  }

  lemma KeptStart(trace: seq<Action>, n: nat)
    requires |Serving(trace)| >= n
    ensures Kept(trace, |trace|, n)
  {
    assert trace[..|trace|] == trace;
  }

  lemma KeptOne(trace: seq<Action>, from: nat, n: nat, a: Action)
    requires Kept(trace, from, n) && |Serving(trace + [a])| >= n
    requires a.Terminated? ==> |trace| > from && trace[|trace| - 1].Ready?
    ensures Kept(trace + [a], from, n)
  {
    hide Serving;
    var longer := trace + [a];
    forall k | from <= k <= |longer| ensures |Serving(longer[..k])| >= n {
      if k == |longer| { assert longer[..k] == longer; } else { assert longer[..k] == trace[..k]; }
    }
    forall k | from <= k < |longer| && longer[k].Terminated? ensures k > from && longer[k - 1].Ready? {
      if k < |trace| { assert trace[k].Terminated?; }
    }
  }

  lemma KeptChain(trace: seq<Action>, longer: seq<Action>, from: nat, n: nat)
    requires Kept(trace, from, n) && Kept(longer, |trace|, n) && trace <= longer
    ensures Kept(longer, from, n)
  {
    forall k | from <= k <= |longer| ensures |Serving(longer[..k])| >= n {
      if k <= |trace| { assert longer[..k] == trace[..k]; }
    }
    assert forall k :: 0 <= k < |trace| ==> longer[k] == trace[k];
  }

  // ---------- one worker ----------

  ghost function Swap(s: Sup, i: nat): Sup
    requires i < |s.processes|
  {
    var p := s.processes[i];
    Did(Start(s), [Ready(s.next), Terminated(p), Joined(p)]).(processes := s.processes[i := s.next])
  }

  /** The trace of one replacement, on its own. */
  lemma SwapTrace(t0: seq<Action>, serving: set<nat>, n: nat, p: nat)
    requires Serving(t0) == serving && n !in serving && p in serving && StartedBelow(t0, n)
    ensures var t := t0 + [Started(n)] + [Ready(n)] + [Terminated(p)] + [Joined(p)];
            && Serving(t) == serving + {n} - {p} && Kept(t, |t0|, |serving|) && StartedBelow(t, n + 1)
            && t0 <= t && Joined(p) in t
  {
    hide Serving, StartedBelow, Kept;
    var t1 := t0 + [Started(n)];
    var t2 := t1 + [Ready(n)];
    var t3 := t2 + [Terminated(p)];
    var t4 := t3 + [Joined(p)];
    ServingOne(t0, Started(n));
    ServingOne(t1, Ready(n));
    ServingOne(t2, Terminated(p));
    ServingOne(t3, Joined(p));
    StartedOne(t0, Started(n), n);
    StartedOne(t1, Ready(n), n + 1);
    StartedOne(t2, Terminated(p), n + 1);
    StartedOne(t3, Joined(p), n + 1);
    assert |serving + {n}| == |serving| + 1 && |serving + {n} - {p}| == |serving|;
    KeptStart(t0, |serving|);
    KeptOne(t0, |t0|, |serving|, Started(n));
    KeptOne(t1, |t0|, |serving|, Ready(n));
    KeptOne(t2, |t0|, |serving|, Terminated(p));
    KeptOne(t3, |t0|, |serving|, Joined(p));
    assert t4[|t0| + 3] == Joined(p);
  }

  lemma SwapOk(s: Sup, i: nat)
    requires Inv(s) && !s.exit && i < |s.processes|
    ensures var u := Swap(s, i);
            Inv(u) && s.trace <= u.trace && Kept(u.trace, |s.trace|, s.num) && u.num == s.num && !u.exit
            && |u.processes| == |s.processes|
  {
    hide Serving, StartedBelow, Kept, NoneLost, Distinct, Elements;
    var p, n := s.processes[i], s.next;
    Fresher(s);
    Cardinality(s.processes);
    assert p in Elements(s.processes) by { Member(s.processes, i); }
    SwapTrace(s.trace, Elements(s.processes), n, p);
    var u := Swap(s, i);
    assert u.trace == s.trace + [Started(n)] + [Ready(n)] + [Terminated(p)] + [Joined(p)];
    Replaced(s.processes, i, n, s.trace, u.trace);
    assert Elements(s.processes) - {p} + {n} == Elements(s.processes) + {n} - {p};
  }

  lemma Member(processes: seq<nat>, i: nat)
    requires i < |processes|
    ensures processes[i] in Elements(processes)
  {
  }

  lemma Fresher(s: Sup)
    requires NoneLost(s.processes, s.next, s.trace)
    ensures s.next !in Elements(s.processes)
  {
  }

  lemma AbortTrace(t0: seq<Action>, serving: set<nat>, n: nat)
    requires Serving(t0) == serving && n !in serving && StartedBelow(t0, n)
    ensures var t := t0 + [Started(n)] + [Killed(n)] + [Joined(n)];
            && Serving(t) == serving && Kept(t, |t0|, |serving|) && StartedBelow(t, n + 1) && t0 <= t && Joined(n) in t
  {
    hide Serving, StartedBelow, Kept;
    var t1 := t0 + [Started(n)];
    var t2 := t1 + [Killed(n)];
    var t3 := t2 + [Joined(n)];
    ServingOne(t0, Started(n));
    ServingOne(t1, Killed(n));
    ServingOne(t2, Joined(n));
    StartedOne(t0, Started(n), n);
    StartedOne(t1, Killed(n), n + 1);
    StartedOne(t2, Joined(n), n + 1);
    KeptStart(t0, |serving|);
    KeptOne(t0, |t0|, |serving|, Started(n));
    KeptOne(t1, |t0|, |serving|, Killed(n));
    KeptOne(t2, |t0|, |serving|, Joined(n));
    assert t3[|t0| + 2] == Joined(n);
  }

  /** A replacement that is not ready in time is taken away again. */
  lemma AbortOk(s: Sup, exit: bool)
    requires Inv(s) && !s.exit
    ensures var u := Did(Start(s), [Killed(s.next), Joined(s.next)]).(exit := exit);
            Inv(u) && s.trace <= u.trace && Kept(u.trace, |s.trace|, s.num) && u.num == s.num
  {
    hide Serving, StartedBelow, Kept, NoneLost, Distinct, Elements;
    var n := s.next;
    var u := Did(Start(s), [Killed(n), Joined(n)]).(exit := exit);
    Fresher(s);
    Cardinality(s.processes);
    AbortTrace(s.trace, Elements(s.processes), n);
    assert u.trace == s.trace + [Started(n)] + [Killed(n)] + [Joined(n)];
    JoinedAtOnce(s.processes, n, s.trace, u.trace);
  }

  lemma JoinedAtOnce(processes: seq<nat>, next: nat, trace: seq<Action>, longer: seq<Action>)
    requires NoneLost(processes, next, trace) && trace <= longer && Joined(next) in longer
    ensures NoneLost(processes, next + 1, longer)
  {
    assert forall a :: a in trace ==> a in longer;
  }

  // ---------- restart ----------

  lemma {:induction false} RestartOk(s: Sup, i: nat, answers: nat -> Replacement)
    requires Inv(s)
    ensures var t := RestartFrom(s, i, answers); Inv(t) && t.num == s.num && s.trace <= t.trace
    ensures !s.exit ==> Kept(RestartFrom(s, i, answers).trace, |s.trace|, s.num)
    decreases |s.processes| - i
  {
    hide Inv, Kept, Did, Start;
    if i >= |s.processes| || s.exit || answers(i).exit {
      Untouched(s);
    } else if !BecomesReady(answers(i)) {
      AbortOk(s, answers(i).exitMeanwhile);
    } else {
      SwapOk(s, i);
      var u := Swap(s, i);
      RestartOk(u, i + 1, answers);
      var t := RestartFrom(u, i + 1, answers);
      KeptChain(u.trace, t.trace, |s.trace|, s.num);
    }
  }

  lemma Untouched(s: Sup)
    requires Inv(s)
    ensures Inv(s.(exit := true)) && (!s.exit ==> Kept(s.trace, |s.trace|, s.num))
  {
    hide Serving, StartedBelow, NoneLost, Distinct, Elements, Kept;
    Cardinality(s.processes);
    if !s.exit { KeptStart(s.trace, s.num); }
  }

  /** The workers in service: those that were, and the children that have become ready since, less those told
      to stop. */
  function InService(service: set<nat>, actions: seq<Action>): set<nat> {
    if actions == [] then service
    else
      var before, a := InService(service, actions[..|actions| - 1]), actions[|actions| - 1];
      if a.Ready? then before + {a.c} else if a.Terminated? || a.Killed? then before - {a.c} else before
  }

  lemma {:induction false} InServiceThen(service: set<nat>, a: seq<Action>, b: seq<Action>)
    ensures InService(service, a + b) == InService(InService(service, a), b)
  {
    if b == [] {
      assert a + b == a;
    } else {
      InServiceThen(service, a, b[..|b| - 1]);
      assert (a + b)[..|a + b| - 1] == a + b[..|b| - 1];
    }
  }

  lemma InServiceOne(service: set<nat>, actions: seq<Action>, a: Action)
    ensures InService(service, actions + [a]) == InService(InService(service, actions), [a])
    ensures InService(service, [a]) == (if a.Ready? then service + {a.c}
                                        else if a.Terminated? || a.Killed? then service - {a.c} else service)
  {
    InServiceThen(service, actions, [a]);
    assert [a][..0] == [];
  }

  function SwapSteps(n: nat, p: nat): seq<Action> { [Started(n), Ready(n), Terminated(p), Joined(p)] }

  /** One replacement, step by step. */
  lemma SwapInService(service: set<nat>, n: nat, p: nat, k: nat)
    requires n !in service && p in service && k <= 4
    ensures InService(service, SwapSteps(n, p)[..k]) ==
              if k < 2 then service else if k == 2 then service + {n} else service + {n} - {p}
  {
    hide InService;
    var steps := SwapSteps(n, p);
    if k == 0 {
      assert steps[..0] == [];
      NoneDone(service);
    } else {
      SwapInService(service, n, p, k - 1);
      assert steps[..k] == steps[..k - 1] + [steps[k - 1]];
      InServiceOne(service, steps[..k - 1], steps[k - 1]);
      InServiceOne(InService(service, steps[..k - 1]), [], steps[k - 1]);
    }
  }

  lemma SwapKeepsService(service: set<nat>, n: nat, p: nat, k: nat)
    requires n !in service && p in service && k <= 4
    ensures |InService(service, SwapSteps(n, p)[..k])| >= |service|
  {
    hide InService;
    SwapInService(service, n, p, k);
    assert |service + {n}| == |service| + 1 && |service + {n} - {p}| == |service|;
  }

  lemma NoneDone(service: set<nat>)
    ensures InService(service, []) == service
  {
  }

  lemma {:induction false} RestartKeepsService(s: Sup, i: nat, answers: nat -> Replacement, k: nat)
    requires Inv(s) && !s.exit && |s.trace| <= k <= |RestartFrom(s, i, answers).trace|
    requires s.trace <= RestartFrom(s, i, answers).trace
    ensures |InService(Elements(s.processes), RestartFrom(s, i, answers).trace[|s.trace|..k])| >= s.num
    decreases |s.processes| - i
  {
    hide Inv, InService, Elements, BecomesReady, Swap, Kept;
    var t, m, e := RestartFrom(s, i, answers), |s.trace|, Elements(s.processes);
    FullService(s);
    if i >= |s.processes| || answers(i).exit {
      assert t.trace[m..k] == [];
      NoneDone(e);
    } else if !BecomesReady(answers(i)) {
      AbortedService(e, s.next, t.trace[m..k]);
    } else {
      hide RestartFrom;
      SwapThen(s, i, answers, k);
      if k > m + 4 { RestartKeepsService(Swap(s, i), i + 1, answers, k); }
      SwappedService(s, i, t.trace, k);
    }
  }

  /** A replacement and what follows it. */
  lemma SwapThen(s: Sup, i: nat, answers: nat -> Replacement, k: nat)
    requires Inv(s) && !s.exit && i < |s.processes| && !answers(i).exit && BecomesReady(answers(i))
    ensures var u, t := Swap(s, i), RestartFrom(s, i, answers);
            && Inv(u) && !u.exit && u.num == s.num && |u.processes| == |s.processes|
            && u.trace == s.trace + SwapSteps(s.next, s.processes[i])
            && t == RestartFrom(u, i + 1, answers) && u.trace <= t.trace
  {
    hide Inv, Kept, BecomesReady;
    SwapOk(s, i);
    RestartOk(Swap(s, i), i + 1, answers);
    assert Swap(s, i).trace == s.trace + SwapSteps(s.next, s.processes[i]);
  }

  lemma SwappedService(s: Sup, i: nat, trace: seq<Action>, k: nat)
    requires Inv(s) && !s.exit && i < |s.processes| && |s.trace| <= k <= |trace|
    requires s.trace + SwapSteps(s.next, s.processes[i]) <= trace
    requires k > |s.trace| + 4 ==> |InService(Elements(Swap(s, i).processes), trace[|s.trace| + 4..k])| >= s.num
    ensures |InService(Elements(s.processes), trace[|s.trace|..k])| >= s.num
  {
    hide Inv, InService, Elements, Swap;
    var m, e, steps := |s.trace|, Elements(s.processes), SwapSteps(s.next, s.processes[i]);
    FullService(s);
    Member(s.processes, i);
    if k <= m + 4 {
      assert trace[m..k] == steps[..k - m];
      SwapKeepsService(e, s.next, s.processes[i], k - m);
    } else {
      assert trace[m..k] == steps[..4] + trace[m + 4..k];
      SwapInService(e, s.next, s.processes[i], 4);
      SwappedElements(s, i);
      InServiceThen(e, steps[..4], trace[m + 4..k]);
    }
  }

  lemma FullService(s: Sup)
    requires Inv(s)
    ensures |Elements(s.processes)| == s.num && s.next !in Elements(s.processes)
  {
    hide Serving, StartedBelow, Elements, Distinct;
    Cardinality(s.processes);
    Fresher(s);
  }

  lemma SwappedElements(s: Sup, i: nat)
    requires Inv(s) && i < |s.processes|
    ensures Elements(Swap(s, i).processes) == Elements(s.processes) + {s.next} - {s.processes[i]}
  {
    hide Serving, StartedBelow, Kept, NoneLost, Distinct, Elements;
    var u := Swap(s, i);
    Fresher(s);
    assert u.trace[|s.trace| + 3] == Joined(s.processes[i]);
    Replaced(s.processes, i, s.next, s.trace, u.trace);
    assert Elements(s.processes) - {s.processes[i]} + {s.next} == Elements(s.processes) + {s.next} - {s.processes[i]}
      by { FullService(s); Member(s.processes, i); }
  }

  /** A child that never becomes ready is never in service. */
  lemma AbortedService(service: set<nat>, n: nat, actions: seq<Action>)
    requires n !in service && actions <= [Started(n), Killed(n), Joined(n)]
    ensures InService(service, actions) == service
  {
    hide InService;
    var steps := [Started(n), Killed(n), Joined(n)];
    assert steps[..0] == [] && steps[..1] == [] + [Started(n)] && steps[..2] == steps[..1] + [Killed(n)];
    assert steps[..3] == steps == steps[..2] + [Joined(n)] && actions == steps[..|actions|];
    NoneDone(service);
    InServiceOne(service, [], Started(n));
    InServiceOne(service, steps[..1], Killed(n));
    InServiceOne(service, steps[..2], Joined(n));
  }

  /** At position `k` the worker in place `j` is told to stop: the child that takes its place has been started, its
      server has started since, and it has just reported so. */
  predicate HandsOver(s: Sup, t: Sup, answers: nat -> Replacement, k: nat, j: nat)
    requires k < |t.trace| && j < |s.processes| && j < |t.processes|
  {
    && k >= |s.trace| + 2
    && t.trace[k - 2] == Started(t.processes[j]) && t.trace[k - 1] == Ready(t.processes[j])
    && t.trace[k] == Terminated(s.processes[j])
    && Readiness.Waited(Readiness.FRESH, answers(j).turns).0.started
  }

  lemma {:induction false} RestartHandsOver(s: Sup, i: nat, answers: nat -> Replacement, k: nat)
    requires !s.exit && s.trace <= RestartFrom(s, i, answers).trace
    requires |s.trace| <= k < |RestartFrom(s, i, answers).trace| && RestartFrom(s, i, answers).trace[k].Terminated?
    ensures |RestartFrom(s, i, answers).processes| == |s.processes|
    ensures exists j :: i <= j < |s.processes| && HandsOver(s, RestartFrom(s, i, answers), answers, k, j)
    decreases |s.processes| - i
  {
    hide Readiness.Waited;
    var t := RestartFrom(s, i, answers);
    if i >= |s.processes| || answers(i).exit || !BecomesReady(answers(i)) {
      assert false;
    } else {
      var u := Swap(s, i);
      RestartExtends(u, i + 1, answers);
      if k < |u.trace| {
        Readiness.WaitedIsSound(Readiness.FRESH, answers(i).turns);
        assert t.trace[k] == u.trace[k] && t.trace[k - 1] == u.trace[k - 1] && t.trace[k - 2] == u.trace[k - 2];
        assert HandsOver(s, t, answers, k, i);
      } else {
        RestartHandsOver(u, i + 1, answers, k);
        var j :| i + 1 <= j < |u.processes| && HandsOver(u, t, answers, k, j);
        assert HandsOver(s, t, answers, k, j);
      }
    }
  }

  lemma {:induction false} RestartExtends(s: Sup, i: nat, answers: nat -> Replacement)
    ensures var t := RestartFrom(s, i, answers);
            && s.trace <= t.trace && |t.processes| == |s.processes|
            && forall j :: 0 <= j < i && j < |s.processes| ==> t.processes[j] == s.processes[j]
    decreases |s.processes| - i
  {
    if i >= |s.processes| || s.exit || answers(i).exit || !BecomesReady(answers(i)) {
    } else {
      RestartExtends(Swap(s, i), i + 1, answers);
    }
  }

  /** A rolling restart never leaves fewer workers in service than were asked for, where a new child is in service
      once it has reported ready; and each worker is told to stop only when the child that takes its place has just
      done so. */
  lemma RestartKeepsCapacity(s: Sup, answers: nat -> Replacement)
    requires Inv(s) && !s.exit
    ensures var t := RestartFrom(s, 0, answers);
            && s.trace <= t.trace && t.num == |t.processes| == s.num
            && (forall k :: |s.trace| <= k <= |t.trace| ==> |Serving(t.trace[..k])| >= s.num)
            && (forall k :: |s.trace| <= k <= |t.trace| ==>
                  |InService(Elements(s.processes), t.trace[|s.trace|..k])| >= s.num)
            && (forall k :: |s.trace| <= k < |t.trace| && t.trace[k].Terminated? ==>
                  exists j :: 0 <= j < |s.processes| && HandsOver(s, t, answers, k, j))
  {
    hide Serving, RestartFrom, StartedBelow, NoneLost, Distinct, Elements, InService, HandsOver;
    RestartOk(s, 0, answers);
    var t := RestartFrom(s, 0, answers);
    forall k | |s.trace| <= k <= |t.trace| ensures |InService(Elements(s.processes), t.trace[|s.trace|..k])| >= s.num {
      RestartKeepsService(s, 0, answers, k);
    }
    forall k | |s.trace| <= k < |t.trace| && t.trace[k].Terminated?
      ensures exists j :: 0 <= j < |s.processes| && HandsOver(s, t, answers, k, j)
    {
      RestartHandsOver(s, 0, answers, k);
    }
  }

  // ---------- health checks ----------

  /** A dead worker is killed, joined and, unless the supervisor is to stop, replaced. */
  lemma DeadTrace(t0: seq<Action>, serving: set<nat>, n: nat, p: nat)
    requires Serving(t0) == serving && n !in serving && p in serving && StartedBelow(t0, n)
    ensures var u := t0 + [Killed(p)] + [Joined(p)]; var t := u + [Started(n)];
            && t0 <= u <= t && Joined(p) in u && Joined(p) in t && StartedBelow(u, n) && StartedBelow(t, n + 1)
            && Serving(t) == serving + {n} - {p} && Serving(t0 + [Killed(p)]) == serving - {p}
  {
    hide Serving, StartedBelow;
    var t1 := t0 + [Killed(p)];
    var t2 := t1 + [Joined(p)];
    ServingOne(t0, Killed(p));
    ServingOne(t1, Joined(p));
    ServingOne(t2, Started(n));
    StartedOne(t0, Killed(p), n);
    StartedOne(t1, Joined(p), n);
    StartedOne(t2, Started(n), n);
    assert t2[|t0| + 1] == Joined(p) && (t2 + [Started(n)])[|t0| + 1] == Joined(p);
    assert serving - {p} + {n} == serving + {n} - {p};
  }

  lemma Longer(processes: seq<nat>, next: nat, trace: seq<Action>, longer: seq<Action>)
    requires NoneLost(processes, next, trace) && trace <= longer
    ensures NoneLost(processes, next, longer)
  {
    assert forall a :: a in trace ==> a in longer;
  }

  lemma DeadOk(s: Sup, i: nat)
    requires Inv(s) && !s.exit && i < |s.processes|
    ensures var u := Did(s, [Killed(s.processes[i]), Joined(s.processes[i])]);
            var v := Start(u).(processes := s.processes[i := s.next]);
            && Inv(u.(exit := true)) && Inv(v) && s.trace <= u.trace <= v.trace && !v.exit && v.num == s.num
            && |v.processes| == |s.processes| && |s.trace| < |u.trace| && u.num == s.num
            && |Serving(u.trace[..|s.trace| + 1])| == s.num - 1
  {
    hide Serving, StartedBelow, NoneLost, Distinct, Elements;
    var p, n := s.processes[i], s.next;
    Fresher(s);
    Cardinality(s.processes);
    Member(s.processes, i);
    DeadTrace(s.trace, Elements(s.processes), n, p);
    var u := Did(s, [Killed(p), Joined(p)]);
    var v := Start(u).(processes := s.processes[i := n]);
    assert u.trace == s.trace + [Killed(p)] + [Joined(p)];
    assert u.trace[..|s.trace| + 1] == s.trace + [Killed(p)];
    Longer(s.processes, n, s.trace, u.trace);
    Replaced(s.processes, i, n, s.trace, v.trace);
    assert Elements(s.processes) - {p} + {n} == Elements(s.processes) + {n} - {p};
  }

  lemma {:induction false} KeepAliveOk(s: Sup, i: nat, health: nat -> Health)
    requires Inv(s) && !s.exit
    ensures var t := KeepAliveFrom(s, i, health); Inv(t) && t.num == s.num && s.trace <= t.trace
    decreases |s.processes| - i
  {
    hide Inv, Did, Start;
    if i < |s.processes| {
      match health(i) {
        case Alive => KeepAliveOk(s, i + 1, health);
        case Dead(startupFailure, exitMeanwhile) =>
          DeadOk(s, i);
          var u := Did(s, [Killed(s.processes[i]), Joined(s.processes[i])]);
          if !(startupFailure || exitMeanwhile) {
            KeepAliveOk(Start(u).(processes := s.processes[i := s.next]), i + 1, health);
          }
      }
    }
  }

  /** A round of health checks keeps the number of workers serving at all times if and only if it finds every one
      of them alive: it kills a dead worker before it starts the next. */
  lemma {:induction false} HealthCheckKeepsCapacityExactly(s: Sup, i: nat, health: nat -> Health)
    requires Inv(s) && !s.exit && i <= |s.processes|
    ensures var t := KeepAliveFrom(s, i, health);
            (forall k :: |s.trace| <= k <= |t.trace| ==> |Serving(t.trace[..k])| >= s.num) <==>
            (forall j :: i <= j < |s.processes| ==> health(j).Alive?)
    decreases |s.processes| - i
  {
    hide Inv, Did, Start, Serving;
    var t := KeepAliveFrom(s, i, health);
    KeepAliveOk(s, i, health);
    if i == |s.processes| {
      assert |Serving(s.trace)| == s.num by { Untouched(s); FullStrength(s); }
      assert s.trace[..|s.trace|] == s.trace;
    } else if health(i).Alive? {
      HealthCheckKeepsCapacityExactly(s, i + 1, health);
    } else {
      DeadOk(s, i);
      var u := Did(s, [Killed(s.processes[i]), Joined(s.processes[i])]);
      if !(health(i).startupFailure || health(i).exitMeanwhile) {
        KeepAliveOk(Start(u).(processes := s.processes[i := s.next]), i + 1, health);
      }
      assert u.trace <= t.trace;
      assert t.trace[..|s.trace| + 1] == u.trace[..|s.trace| + 1];
    }
  }

  /** A single worker that is found dead leaves a moment without any. */
  lemma HealthCheckCanDropToNone(health: nat -> Health)
    requires health(0) == Dead(false, false)
    ensures var s := Init(1); var t := KeepAliveFrom(s, 0, health);
            && !s.exit && s.num == 1 && s.trace == [Started(0)]
            && t.trace == [Started(0), Killed(0), Joined(0), Started(1)] && Serving(t.trace[..2]) == {}
  {
    var s := Init(1);
    var empty := Sup([], 1, false, [], 0, [], [], []);
    assert InitFrom(Start(empty).(processes := empty.processes + [0]), 0) == s;
    var t := KeepAliveFrom(s, 0, health);
    assert t.trace[..2] == [] + [Started(0)] + [Killed(0)];
    ServingOne([], Started(0));
    ServingOne([] + [Started(0)], Killed(0));
  }

  lemma FullStrength(s: Sup)
    requires Inv(s) && !s.exit
    ensures |Serving(s.trace)| == s.num
  {
    hide Serving, StartedBelow, NoneLost;
    Cardinality(s.processes);
  }

  // ---------- signals ----------

  lemma TtinOk(s: Sup)
    requires Inv(s)
    ensures Inv(HandleTtin(s))
  {
    hide Serving, StartedBelow, NoneLost, Distinct, Elements;
    ServingOne(s.trace, Started(s.next));
    StartedOne(s.trace, Started(s.next), s.next);
    Extended(s.processes, s.next, s.trace, s.trace + [Started(s.next)]);
  }

  lemma Popped(processes: seq<nat>, next: nat, trace: seq<Action>, longer: seq<Action>)
    requires Distinct(processes) && NoneLost(processes, next, trace) && processes != [] && trace <= longer
    requires Joined(processes[|processes| - 1]) in longer
    ensures var front := processes[..|processes| - 1];
            && Distinct(front) && NoneLost(front, next, longer)
            && Elements(front) == Elements(processes) - {processes[|processes| - 1]}
  {
    assert forall a :: a in trace ==> a in longer;
    var front := processes[..|processes| - 1];
    forall c | c in processes && c != processes[|processes| - 1] ensures c in front {
      var k :| 0 <= k < |processes| && processes[k] == c;
      assert front[k] == c;
    }
  }

  lemma TtouOk(s: Sup)
    requires Inv(s)
    ensures Inv(HandleTtou(s))
  {
    hide Serving, StartedBelow, NoneLost, Distinct, Elements;
    if s.num > 1 {
      var p := s.processes[|s.processes| - 1];
      var t1 := s.trace + [Terminated(p)];
      var t2 := t1 + [Joined(p)];
      ServingOne(s.trace, Terminated(p));
      ServingOne(t1, Joined(p));
      StartedOne(s.trace, Terminated(p), s.next);
      StartedOne(t1, Joined(p), s.next);
      assert s.trace + [Terminated(p), Joined(p)] == t2;
      assert t2[|s.trace| + 1] == Joined(p);
      Popped(s.processes, s.next, s.trace, t2);
    }
  }

  lemma QueueOf(s: Sup, sig: Signal, answers: nat -> Replacement)
    ensures var t := HandleSignal(s, sig, answers);
            t.queue == s.queue && t.handled == s.handled && t.arrived == s.arrived
  {
    hide RestartFrom;
    QueueKept(s, 0, answers);
  }

  lemma SignalOk(s: Sup, sig: Signal, answers: nat -> Replacement)
    requires Inv(s)
    ensures Inv(HandleSignal(s, sig, answers))
  {
    hide Inv, RestartFrom, HandleTtin, HandleTtou;
    match sig {
      case Int => Untouched(s);
      case Term => Untouched(s);
      case Break => Untouched(s);
      case Hup => RestartOk(s, 0, answers);
      case Ttin => TtinOk(s);
      case Ttou => TtouOk(s);
      case OtherSignal =>
    }
  }

  lemma {:induction false} QueueKept(s: Sup, i: nat, answers: nat -> Replacement)
    ensures var t := RestartFrom(s, i, answers); t.queue == s.queue && t.handled == s.handled && t.arrived == s.arrived
    ensures HandleTtin(s).queue == HandleTtou(s).queue == s.queue
        && HandleTtin(s).handled == HandleTtou(s).handled == s.handled
    ensures HandleTtin(s).arrived == HandleTtou(s).arrived == s.arrived
    decreases |s.processes| - i
  {
    if i >= |s.processes| || s.exit || answers(i).exit || !BecomesReady(answers(i)) {
    } else {
      QueueKept(Swap(s, i), i + 1, answers);
    }
  }

  lemma ArriveOk(s: Sup, sigs: seq<Signal>)
    requires Inv(s)
    ensures Inv(Arrive(s, sigs))
  {
    hide Serving, StartedBelow, NoneLost, Distinct, Elements;
    assert s.handled + (s.queue + sigs) == s.handled + s.queue + sigs;
  }

  lemma TakeOk(s: Sup, m: Meanwhile)
    requires Inv(s) && s.queue != []
    ensures Inv(TakeSignal(s, m))
  {
    var sig := s.queue[0];
    var u := s.(queue := s.queue[1..], handled := s.handled + [sig]);
    assert s.handled + [sig] + s.queue[1..] == s.handled + s.queue;
    assert Inv(u) by { hide Serving, StartedBelow, NoneLost, Distinct, Elements; }
    hide Inv, HandleSignal, Arrive;
    SignalOk(u, sig, m.answers);
    ArriveOk(HandleSignal(u, sig, m.answers), m.arrivals);
  }

  lemma {:induction false} TakeAllOk(s: Sup, n: nat, k: nat, env: nat -> Meanwhile)
    requires Inv(s)
    ensures Inv(TakeSignals(s, n, k, env))
    decreases n - k
  {
    hide Inv, TakeSignal;
    if k >= n || s.queue == [] {
    } else {
      TakeOk(s, env(k));
      TakeAllOk(TakeSignal(s, env(k)), n, k + 1, env);
    }
  }

  // ---------- the main loop ----------

  lemma TurnOk(s: Sup, r: Round)
    requires Inv(s)
    ensures Inv(Turn(s, r))
  {
    hide Inv, Arrive, TakeSignals, KeepAliveFrom;
    ArriveOk(s, r.before);
    var a := Arrive(s, r.before);
    TakeAllOk(a, |a.queue|, 0, r.env);
    var s1 := HandleSignals(a, r.env);
    Untouched(s1);
    if !s1.exit && !r.exit {
      assert s1.(exit := false) == s1;
      KeepAliveOk(s1, 0, r.health);
    }
  }

  lemma {:induction false} TurnsOk(s: Sup, rounds: seq<Round>)
    requires Inv(s)
    ensures Inv(Turns(s, rounds))
    decreases |rounds|
  {
    hide Inv, Turn;
    if rounds == [] || s.exit {
    } else {
      TurnOk(s, rounds[0]);
      TurnsOk(Turn(s, rounds[0]), rounds[1..]);
    }
  }

  /** Part of the way through `init_processes`. */
  lemma {:induction false} InitOk(s: Sup, n: nat)
    requires Inv(s.(num := |s.processes|)) && s.num == |s.processes| + n
    ensures Inv(InitFrom(s, n))
    decreases n
  {
    hide Inv;
    if n == 0 {
      assert s.(num := |s.processes|) == s;
    } else {
      var t := s.(num := |s.processes|);
      var u := Start(s).(processes := s.processes + [s.next]);
      TtinOk(t);
      assert u.(num := |u.processes|) == HandleTtin(t);
      InitOk(u, n - 1);
    }
  }

  lemma FirstOk(workers: nat)
    requires workers >= 1
    ensures Inv(Init(workers))
  {
    hide *;
    var u := Sup([0], workers, false, [], 1, [Started(0)], [], []);
    OneWorker();
    assert u.(num := |u.processes|) == Sup([0], 1, false, [], 1, [Started(0)], [], []);
    InitOk(u, workers - 1);
    FirstStep(workers, u);
  }

  lemma OneWorker()
    ensures Inv(Sup([0], 1, false, [], 1, [Started(0)], [], []))
  {
    hide Serving, StartedBelow, NoneLost, Distinct, Elements;
    FirstTrace();
  }

  lemma FirstStep(workers: nat, u: Sup)
    requires workers >= 1 && u == Sup([0], workers, false, [], 1, [Started(0)], [], [])
    ensures Init(workers) == InitFrom(u, workers - 1)
  {
    var s := Sup([], workers, false, [], 0, [], [], []);
    assert [] + [Started(0)] == [Started(0)] && [] + [0] == [0];
    assert Start(s).(processes := s.processes + [s.next]) == u;
  }

  lemma FirstTrace()
    ensures Serving([Started(0)]) == {0} == Elements<nat>([0]) && StartedBelow([Started(0)], 1)
    ensures Distinct<nat>([0]) && NoneLost([0], 1, [Started(0)])
  {
    ServingOne([], Started(0));
    StartedOne([], Started(0), 0);
    assert [] + [Started(0)] == [Started(0)];
    assert forall c :: c in Elements<nat>([0]) <==> c in [0];
    assert 0 in [0];
  }

  /** The children of `processes` that have been joined at the end are all there are. */
  lemma FinishJoins(s: Sup)
    requires Inv(s)
    ensures forall c: nat :: Started(c) in Finish(s).trace ==> Joined(c) in Finish(s).trace
    ensures s.trace <= Finish(s).trace
  {
    hide Serving, Distinct;
    var ends := All(s.processes, (c: nat) => Terminated(c));
    var joins := All(s.processes, (c: nat) => Joined(c));
    var t := Finish(s).trace;
    assert t == s.trace + ends + joins;
    forall c: nat | Started(c) in t ensures Joined(c) in t {
      assert Started(c) !in ends && Started(c) !in joins;
      assert Started(c) in s.trace;
      if c in s.processes {
        var i :| 0 <= i < |s.processes| && s.processes[i] == c;
        assert joins[i] == Joined(c);
      }
    }
  }

  // ---------- what holds after every run ----------

  /** After every turn of the main loop, whatever signals came, health checks failed and restarts were cut short:
      as many workers as asked for, at least one; every child ever started is among them or has been joined; unless
      the supervisor is stopping, they are exactly the children it has not told to stop; and every signal that has
      arrived has been handled once, in order of arrival, or is still queued. */
  lemma NoChildIsLost(workers: nat, rounds: seq<Round>)
    requires workers >= 1
    ensures var s := Turns(Init(workers), rounds);
            && |s.processes| == s.num >= 1
            && (forall c: nat :: Started(c) in s.trace ==> c in s.processes || Joined(c) in s.trace)
            && (!s.exit ==> Serving(s.trace) == Elements(s.processes))
            && s.handled + s.queue == s.arrived
  {
    FirstOk(workers);
    TurnsOk(Init(workers), rounds);
    hide Serving, Distinct, Elements, Turns, Init;
    var s := Turns(Init(workers), rounds);
    forall c: nat | Started(c) in s.trace ensures c in s.processes || Joined(c) in s.trace { }
  }

  /** When `run` returns, every child that was ever started has been joined. */
  lemma AllJoinedAtTheEnd(workers: nat, rounds: seq<Round>, c: nat)
    requires workers >= 1 && Started(c) in Run(workers, rounds).trace
    ensures Joined(c) in Run(workers, rounds).trace
  {
    FirstOk(workers);
    TurnsOk(Init(workers), rounds);
    hide Inv, Turns, Init, Finish;
    FinishJoins(Turns(Init(workers), rounds));
  }
}
