/** What signals and health checks do to the workers, told from the signals and answers alone. */
module SupervisorSignals {
  import opened Lists
  import opened SupervisorSpec
  import opened Supervisor

  predicate Stops(sig: Signal) { sig == Int || sig == Term || sig == Break }

  /** How many workers the signals ask for: one more for each TTIN, one fewer for each TTOU, but never none. */
  function Asked(workers: nat, handled: seq<Signal>): nat {
    if handled == [] then workers
    else
      var n := Asked(workers, handled[..|handled| - 1]);
      match handled[|handled| - 1]
      case Ttin => n + 1
      case Ttou => if n > 1 then n - 1 else n
      case _ => n
  }

  lemma {:induction false} AskedBoth(workers: nat, a: seq<Signal>, b: seq<Signal>)
    ensures Asked(workers, a + b) == Asked(Asked(workers, a), b)
  {
    if b == [] {
      assert a + b == a;
    } else {
      AskedBoth(workers, a, b[..|b| - 1]);
      assert (a + b)[..|a + b| - 1] == a + b[..|b| - 1];
    }
  }

  lemma AskedOne(workers: nat, handled: seq<Signal>, sig: Signal)
    ensures Asked(workers, handled + [sig]) ==
              var n := Asked(workers, handled);
              if sig == Ttin then n + 1 else if sig == Ttou && n > 1 then n - 1 else n
  {
    assert (handled + [sig])[..|handled|] == handled;
  }

  // ---------- one signal ----------

  /** Nothing but the exit flag and the queue differs. */
  predicate SameWorkers(s: Sup, t: Sup) {
    t.processes == s.processes && t.num == s.num && t.next == s.next && t.trace == s.trace
  }

  /** The oldest signal is handled: TTIN starts a worker, TTOU stops the latest one unless it is the only one, INT, TERM
      and BREAK ask for the end, and a signal without a handler does nothing. */
  lemma SignalDoes(s: Sup, m: Meanwhile)
    requires Inv(s) && s.queue != []
    ensures var sig, t := s.queue[0], TakeSignal(s, m);
            && t.queue == s.queue[1..] + m.arrivals && t.handled == s.handled + [sig]
            && (Stops(sig) ==> t.exit && SameWorkers(s, t))
            && (sig == OtherSignal || (sig == Ttou && s.num == 1) ==> t.exit == s.exit && SameWorkers(s, t))
            && (sig == Ttin ==>
                  && t.exit == s.exit && t.num == s.num + 1 && t.next == s.next + 1
                  && t.processes == s.processes + [s.next] && t.trace == s.trace + [Started(s.next)])
            && (sig == Ttou && s.num > 1 ==>
                  var p := s.processes[s.num - 1];
                  && t.exit == s.exit && t.num == s.num - 1 && t.next == s.next
                  && t.processes == s.processes[..s.num - 1] && t.trace == s.trace + [Terminated(p), Joined(p)])
  {
    hide RestartFrom, StartedBelow, NoneLost, Distinct, Serving;
    QueueOf(s.(queue := s.queue[1..], handled := s.handled + [s.queue[0]]), s.queue[0], m.answers);
  }

  /** How far a restart gets: `c` workers are replaced, and the next one is not, or there is none. */
  predicate CutAt(s: Sup, answers: nat -> Replacement, i: nat, c: nat) {
    && i <= c <= |s.processes|
    && (forall j :: i <= j < c ==> !answers(j).exit && BecomesReady(answers(j)))
    && (c == |s.processes| || answers(c).exit || !BecomesReady(answers(c)))
  }

  /** The next `count` children to be made. */
  function Children(next: nat, count: nat): (r: seq<nat>)
    ensures |r| == count
  {
    seq(count, j requires 0 <= j => next + j)
  }

  lemma OneChild(front: seq<nat>, next: nat, count: nat, back: seq<nat>)
    ensures front + [next] + Children(next + 1, count) + back == front + Children(next, count + 1) + back
  {
    assert Children(next, count + 1) == [next] + Children(next + 1, count);
  }

  lemma {:induction false} RestartFromDoes(s: Sup, i: nat, answers: nat -> Replacement, c: nat)
    requires !s.exit && CutAt(s, answers, i, c)
    ensures var t := RestartFrom(s, i, answers);
            && t.processes == s.processes[..i] + Children(s.next, c - i) + s.processes[c..]
            && t.num == s.num
            && (t.exit <==> c < |s.processes| && (answers(c).exit || answers(c).exitMeanwhile))
    decreases |s.processes| - i
  {
    hide BecomesReady, Children;
    if i < c {
      var u := Swap(s, i);
      RestartFromDoes(u, i + 1, answers, c);
      assert RestartFrom(s, i, answers) == RestartFrom(u, i + 1, answers);
      hide RestartFrom;
      assert u.processes[..i + 1] == s.processes[..i] + [s.next] && u.processes[c..] == s.processes[c..];
      OneChild(s.processes[..i], s.next, c - i - 1, s.processes[c..]);
    } else {
      assert Children(s.next, 0) == [];
      assert s.processes[..i] + [] + s.processes[i..] == s.processes;
    }
  }

  /** HUP replaces the workers in order by new children, up to the first place at which the end is asked for or the
      new child does not become ready; if there is none, every worker. */
  lemma HupReplaces(s: Sup, m: Meanwhile, c: nat)
    requires Inv(s) && s.queue != [] && s.queue[0] == Hup && CutAt(s, m.answers, 0, c)
    ensures var t := TakeSignal(s, m);
            && t.num == s.num
            && (s.exit ==> t.exit && t.processes == s.processes)
            && (!s.exit ==>
                  && t.processes == Children(s.next, c) + s.processes[c..]
                  && (t.exit <==> c < |s.processes| && (m.answers(c).exit || m.answers(c).exitMeanwhile)))
  {
    hide StartedBelow, NoneLost, Distinct, Serving, BecomesReady;
    var u := s.(queue := s.queue[1..], handled := s.handled + [Hup]);
    if !s.exit {
      RestartFromDoes(u, 0, m.answers, c);
      assert u.processes[..0] + Children(s.next, c) == Children(s.next, c);
    }
  }

  // ---------- one round ----------

  /** The signals that arrive while the first `n` are handled. */
  function ArrivalsOf(env: nat -> Meanwhile, k: nat, n: nat): seq<Signal>
    decreases n - k
  {
    if k >= n then [] else env(k).arrivals + ArrivalsOf(env, k + 1, n)
  }

  /** What handling `sigs` is bound to have done. */
  predicate Handled(s: Sup, t: Sup, sigs: seq<Signal>) {
    && t.handled == s.handled + sigs
    && t.num == Asked(s.num, sigs)
    && (s.exit || (exists sig :: sig in sigs && Stops(sig)) ==> t.exit)
    && (t.exit ==> s.exit || exists sig :: sig in sigs && (Stops(sig) || sig == Hup))
  }

  lemma TakenDoes(s: Sup, m: Meanwhile)
    requires Inv(s) && s.queue != []
    ensures var t := TakeSignal(s, m); Inv(t) && t.queue == s.queue[1..] + m.arrivals && Handled(s, t, [s.queue[0]])
  {
    hide Inv, TakeSignal, CutAt, Asked, BecomesReady;
    SignalDoes(s, m);
    TakeOk(s, m);
    var sig := s.queue[0];
    NumOf(s);
    AskedOne(s.num, [], sig);
    AskedNone(s.num);
    assert [] + [sig] == [sig] && sig in [sig];
    if sig == Hup { HupReplaces(s, m, FirstCut(s, m.answers, 0)); }
  }

  lemma AskedNone(workers: nat)
    ensures Asked(workers, []) == workers
  {
  }

  lemma NumOf(s: Sup)
    requires Inv(s)
    ensures s.num >= 1
  {
  }

  ghost function FirstCut(s: Sup, answers: nat -> Replacement, i: nat): (c: nat)
    requires i <= |s.processes|
    ensures CutAt(s, answers, i, c)
    decreases |s.processes| - i
  {
    if i == |s.processes| || answers(i).exit || !BecomesReady(answers(i)) then i else FirstCut(s, answers, i + 1)
  }

  lemma HandledBoth(s: Sup, t: Sup, u: Sup, a: seq<Signal>, b: seq<Signal>)
    requires Handled(s, t, a) && Handled(t, u, b)
    ensures Handled(s, u, a + b)
  {
    assert s.handled + a + b == s.handled + (a + b);
    AskedBoth(s.num, a, b);
    hide Asked;
    forall sig ensures sig in a + b <==> sig in a || sig in b { }
  }

  lemma {:induction false} SignalsDo(s: Sup, n: nat, k: nat, env: nat -> Meanwhile)
    requires Inv(s) && k <= n && n - k <= |s.queue|
    ensures var t := TakeSignals(s, n, k, env); var taken := s.queue[..n - k];
            && Inv(t) && Handled(s, t, taken) && t.queue == s.queue[n - k..] + ArrivalsOf(env, k, n)
    decreases n - k
  {
    hide Inv, TakeSignal, Handled;
    if k == n {
      assert Handled(s, s, []) by { NothingHandled(s); }
      assert s.queue[..0] == [] && s.queue[0..] + [] == s.queue;
    } else {
      var u := TakeSignal(s, env(k));
      TakenDoes(s, env(k));
      SignalsDo(u, n, k + 1, env);
      HandledBoth(s, u, TakeSignals(u, n, k + 1, env), [s.queue[0]], u.queue[..n - k - 1]);
      assert [s.queue[0]] + u.queue[..n - k - 1] == s.queue[..n - k];
      assert u.queue[n - k - 1..] == s.queue[n - k..] + env(k).arrivals;
      assert s.queue[n - k..] + env(k).arrivals + ArrivalsOf(env, k + 1, n)
          == s.queue[n - k..] + (env(k).arrivals + ArrivalsOf(env, k + 1, n));
    }
  }

  lemma NothingHandled(s: Sup)
    ensures Handled(s, s, [])
  {
    assert s.handled + [] == s.handled;
  }

  /** Health checks change neither the number asked for nor the signals, and only ever set the exit flag. */
  lemma {:induction false} HealthFrame(s: Sup, i: nat, health: nat -> Health)
    ensures var t := KeepAliveFrom(s, i, health);
            && t.num == s.num && t.handled == s.handled && t.queue == s.queue && |t.processes| == |s.processes|
            && (s.exit ==> t.exit)
            && (t.exit ==> s.exit || exists j :: i <= j < |s.processes| && health(j).Dead?
                                                && (health(j).startupFailure || health(j).exitMeanwhile))
    decreases |s.processes| - i
  {
    if i < |s.processes| && health(i).Alive? {
      HealthFrame(s, i + 1, health);
    } else if i < |s.processes| && !(health(i).startupFailure || s.exit || health(i).exitMeanwhile) {
      var u := Start(Did(s, [Killed(s.processes[i]), Joined(s.processes[i])])).(processes := s.processes[i := s.next]);
      HealthFrame(u, i + 1, health);
    }
  }

  /** One turn handles exactly the signals that had arrived when it began, in order, whatever arrives meanwhile. */
  lemma TurnHandles(s: Sup, r: Round)
    requires Inv(s)
    ensures var t := Turn(s, r); var sigs := s.queue + r.before;
            && t.handled == s.handled + sigs && t.queue == ArrivalsOf(r.env, 0, |sigs|)
            && t.num == Asked(s.num, sigs)
            && (s.exit || r.exit || (exists sig :: sig in sigs && Stops(sig)) ==> t.exit)
            && (t.exit ==>
                  || s.exit || r.exit || (exists sig :: sig in sigs && (Stops(sig) || sig == Hup))
                  || (exists j :: r.health(j).Dead? && (r.health(j).startupFailure || r.health(j).exitMeanwhile)))
  {
    hide Inv, TakeSignals, KeepAliveFrom, Asked;
    var a := Arrive(s, r.before);
    ArriveOk(s, r.before);
    SignalsDo(a, |a.queue|, 0, r.env);
    assert a.queue[..|a.queue|] == a.queue && a.queue[|a.queue|..] == [];
    var u := HandleSignals(a, r.env);
    assert [] + ArrivalsOf(r.env, 0, |a.queue|) == ArrivalsOf(r.env, 0, |a.queue|);
    HealthFrame(u.(exit := u.exit || r.exit), 0, r.health);
  }

  // ---------- every turn ----------

  lemma {:induction false} TurnsHandle(workers: nat, s: Sup, rounds: seq<Round>)
    requires Inv(s) && s.num == Asked(workers, s.handled)
    requires (exists sig :: sig in s.handled && Stops(sig)) ==> s.exit
    ensures var t := Turns(s, rounds);
            && t.num == Asked(workers, t.handled)
            && ((exists sig :: sig in t.handled && Stops(sig)) ==> t.exit)
    decreases |rounds|
  {
    hide Inv, Turn, Asked;
    if rounds == [] || s.exit {
    } else {
      TurnHandles(s, rounds[0]);
      AskedBoth(workers, s.handled, s.queue + rounds[0].before);
      TurnOk(s, rounds[0]);
      TurnsHandle(workers, Turn(s, rounds[0]), rounds[1..]);
    }
  }

  lemma {:induction false} InitFrame(s: Sup, n: nat)
    ensures InitFrom(s, n).num == s.num && InitFrom(s, n).handled == s.handled
    decreases n
  {
    if n > 0 { InitFrame(Start(s).(processes := s.processes + [s.next]), n - 1); }
  }

  /** After every turn there are as many workers as the signals handled so far ask for, and a signal that asks for the
      end has been heeded. */
  lemma WorkersAsAsked(workers: nat, rounds: seq<Round>)
    requires workers >= 1
    ensures var s := Turns(Init(workers), rounds);
            && |s.processes| == s.num == Asked(workers, s.handled)
            && ((exists sig :: sig in s.handled && Stops(sig)) ==> s.exit)
  {
    hide Inv, Turns;
    FirstOk(workers);
    InitFrame(Sup([], workers, false, [], 0, [], [], []), workers);
    TurnsHandle(workers, Init(workers), rounds);
    NoChildIsLost(workers, rounds);
  }

  // ---------- one round of health checks ----------

  /** How far a round gets: up to the first dead worker after which the end is asked for. */
  predicate EndsAt(s: Sup, health: nat -> Health, i: nat, c: nat) {
    && i <= c <= |s.processes|
    && (forall j :: i <= j < c && health(j).Dead? ==> !health(j).startupFailure && !health(j).exitMeanwhile)
    && (c == |s.processes| || (health(c).Dead? && (health(c).startupFailure || health(c).exitMeanwhile)))
  }

  lemma {:induction false} HealthRoundFrom(s: Sup, i: nat, health: nat -> Health, c: nat)
    requires !s.exit && EndsAt(s, health, i, c)
    ensures var t := KeepAliveFrom(s, i, health);
            && |t.processes| == |s.processes| && s.trace <= t.trace && (t.exit <==> c < |s.processes|)
            && (forall j :: 0 <= j < |s.processes| ==>
                  if i <= j < c && health(j).Dead? then t.processes[j] >= s.next
                  else t.processes[j] == s.processes[j])
            && (forall j :: i <= j <= c && j < |s.processes| && health(j).Dead? ==>
                  Killed(s.processes[j]) in t.trace && Joined(s.processes[j]) in t.trace)
    decreases |s.processes| - i
  {
    if i == |s.processes| {
    } else if health(i).Alive? {
      HealthRoundFrom(s, i + 1, health, c);
    } else {
      var p := s.processes[i];
      var u := Did(s, [Killed(p), Joined(p)]);
      assert u.trace[|s.trace|] == Killed(p) && u.trace[|s.trace| + 1] == Joined(p);
      if i < c {
        var v := Start(u).(processes := s.processes[i := s.next]);
        HealthRoundFrom(v, i + 1, health, c);
        var t := KeepAliveFrom(v, i + 1, health);
        assert t.trace[|s.trace|] == Killed(p) && t.trace[|s.trace| + 1] == Joined(p);
      }
    }
  }

  /** A worker found alive stays; one found dead is killed, joined and replaced by a new child, up to the first that
      failed to start or is found when the end is asked for: it is not replaced, and the supervisor stops. */
  lemma HealthRoundDoes(s: Sup, health: nat -> Health, c: nat)
    requires !s.exit && EndsAt(s, health, 0, c)
    ensures var t := KeepSubprocessAlive(s, health);
            && |t.processes| == |s.processes| && (t.exit <==> c < |s.processes|)
            && (forall j :: 0 <= j < |s.processes| ==>
                  if j < c && health(j).Dead? then t.processes[j] >= s.next else t.processes[j] == s.processes[j])
            && (forall j :: 0 <= j <= c && j < |s.processes| && health(j).Dead? ==>
                  Killed(s.processes[j]) in t.trace && Joined(s.processes[j]) in t.trace)
  {
    hide EndsAt;
    HealthRoundFrom(s, 0, health, c);
    hide KeepAliveFrom;
  }

  // ---------- the end ----------

  /** Once the end is asked for, no health check is made and nothing is started any more: every worker in service is
      told to stop, and when all have been, each is joined. */
  lemma RunStopsWorkers(workers: nat, rounds: seq<Round>)
    ensures var s, t := Turns(Init(workers), rounds), Run(workers, rounds); var n := |s.processes|;
            && t.processes == s.processes && t.next == s.next && |t.trace| == |s.trace| + 2 * n && s.trace <= t.trace
            && (forall i :: 0 <= i < n ==> t.trace[|s.trace| + i] == Terminated(s.processes[i]))
            && (forall i :: 0 <= i < n ==> t.trace[|s.trace| + n + i] == Joined(s.processes[i]))
            && (forall health :: s.exit ==> KeepSubprocessAlive(s, health) == s)
  {
    hide Turns, Init, KeepAliveFrom;
  }
}
