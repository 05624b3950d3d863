/** The worker supervisor of multiprocess.py as a state machine on values. What happens outside it (signals,
    health checks, exit codes, replacements that become ready or not, another thread setting `should_exit`) is
    given by functions from the position at which the supervisor asks. */
module SupervisorSpec {
  import Readiness

  datatype Signal = Int | Term | Break | Hup | Ttin | Ttou | OtherSignal

  /** What the supervisor does to a child, and the moment at which it learns that one is ready. */
  datatype Action = Started(c: nat) | Ready(c: nat) | Terminated(c: nat) | Killed(c: nat) | Joined(c: nat)

  /** A child is the number of its `Process` object: they are made in order. `trace`, `handled` and `arrived`
      are history. */
  datatype Sup = Sup(
    processes: seq<nat>, num: nat, exit: bool, queue: seq<Signal>, next: nat,
    trace: seq<Action>, handled: seq<Signal>, arrived: seq<Signal>)

  function Did(s: Sup, actions: seq<Action>): Sup { s.(trace := s.trace + actions) }

  /** A new process is made and started. */
  function Start(s: Sup): Sup { s.(next := s.next + 1, trace := s.trace + [Started(s.next)]) }

  // ---------- restart ----------

  /** `exit`: `should_exit` is set when the loop reaches this worker. `turns`: what happens while the supervisor
      waits for the new child to become ready. */
  datatype Replacement = Replacement(exit: bool, turns: seq<Readiness.Turn>, exitMeanwhile: bool)

  /** What `wait_until_ready` says of the new child. */
  predicate BecomesReady(r: Replacement) { Readiness.Waited(Readiness.FRESH, r.turns).1 }

  function RestartFrom(s: Sup, i: nat, answers: nat -> Replacement): Sup
    decreases |s.processes| - i
  {
    if i >= |s.processes| then s
    else if s.exit || answers(i).exit then s.(exit := true)
    else
      var s1 := Start(s);
      if !BecomesReady(answers(i)) then
        Did(s1, [Killed(s.next), Joined(s.next)]).(exit := answers(i).exitMeanwhile)
      else
        RestartFrom(Did(s1, [Ready(s.next), Terminated(s.processes[i]), Joined(s.processes[i])])
                    .(processes := s.processes[i := s.next]), i + 1, answers)
  }

  // ---------- health checks ----------

  datatype Health = Alive | Dead(startupFailure: bool, exitMeanwhile: bool)

  function KeepAliveFrom(s: Sup, i: nat, health: nat -> Health): Sup
    decreases |s.processes| - i
  {
    if i >= |s.processes| then s
    else
      match health(i)
      case Alive => KeepAliveFrom(s, i + 1, health)
      case Dead(startupFailure, exitMeanwhile) =>
        var s1 := Did(s, [Killed(s.processes[i]), Joined(s.processes[i])]);
        if startupFailure || s.exit || exitMeanwhile then s1.(exit := true)
        else KeepAliveFrom(Start(s1).(processes := s.processes[i := s.next]), i + 1, health)
  }

  function KeepSubprocessAlive(s: Sup, health: nat -> Health): Sup {
    if s.exit then s else KeepAliveFrom(s, 0, health)
  }

  // ---------- signals ----------

  function HandleTtin(s: Sup): Sup {
    Start(s).(num := s.num + 1, processes := s.processes + [s.next])
  }

  function HandleTtou(s: Sup): Sup {
    if s.num <= 1 || s.processes == [] then s
    else
      var p := s.processes[|s.processes| - 1];
      Did(s, [Terminated(p), Joined(p)]).(num := s.num - 1, processes := s.processes[..|s.processes| - 1])
  }

  function HandleSignal(s: Sup, sig: Signal, answers: nat -> Replacement): Sup {
    match sig
    case Int => s.(exit := true)
    case Term => s.(exit := true)
    case Break => s.(exit := true)
    case Hup => RestartFrom(s, 0, answers)
    case Ttin => HandleTtin(s)
    case Ttou => HandleTtou(s)
    case OtherSignal => s
  }

  function Arrive(s: Sup, sigs: seq<Signal>): Sup { s.(queue := s.queue + sigs, arrived := s.arrived + sigs) }

  /** What happens while the `k`-th signal of a round is handled: the answers that a restart gets, and the signals
      that arrive meanwhile. */
  datatype Meanwhile = Meanwhile(answers: nat -> Replacement, arrivals: seq<Signal>)

  function TakeSignal(s: Sup, m: Meanwhile): Sup
    requires s.queue != []
  {
    var sig := s.queue[0];
    Arrive(HandleSignal(s.(queue := s.queue[1..], handled := s.handled + [sig]), sig, m.answers), m.arrivals)
  }

  /** `handle_signals` over a snapshot of `n` signals. */
  function TakeSignals(s: Sup, n: nat, k: nat, env: nat -> Meanwhile): Sup
    decreases n - k
  {
    if k >= n || s.queue == [] then s else TakeSignals(TakeSignal(s, env(k)), n, k + 1, env)
  }

  function HandleSignals(s: Sup, env: nat -> Meanwhile): Sup { TakeSignals(s, |s.queue|, 0, env) }

  // ---------- the main loop ----------

  function InitFrom(s: Sup, n: nat): Sup
    decreases n
  {
    if n == 0 then s else InitFrom(Start(s).(processes := s.processes + [s.next]), n - 1)
  }

  function Init(workers: nat): Sup {
    InitFrom(Sup([], workers, false, [], 0, [], [], []), workers)
  }

  /** One turn of the loop of `run`. */
  datatype Round = Round(before: seq<Signal>, env: nat -> Meanwhile, exit: bool, health: nat -> Health)

  function Turn(s: Sup, r: Round): Sup {
    var s1 := HandleSignals(Arrive(s, r.before), r.env);
    KeepSubprocessAlive(s1.(exit := s1.exit || r.exit), r.health)
  }

  function Turns(s: Sup, rounds: seq<Round>): Sup
    decreases |rounds|
  {
    if rounds == [] || s.exit then s else Turns(Turn(s, rounds[0]), rounds[1..])
  }

  function All(processes: seq<nat>, f: nat -> Action): seq<Action> {
    seq(|processes|, i requires 0 <= i < |processes| => f(processes[i]))
  }

  /** `terminate_all` and `join_all`. */
  function Finish(s: Sup): Sup {
    Did(Did(s, All(s.processes, (c: nat) => Terminated(c))), All(s.processes, (c: nat) => Joined(c)))
  }

  /** `run`, once `should_exit` is set. */
  function Run(workers: nat, rounds: seq<Round>): Sup { Finish(Turns(Init(workers), rounds)) }
}
