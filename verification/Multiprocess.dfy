/** Multiprocess of multiprocess.py, with its loops over the list of workers that they change in place. Each method
    is proved to do what SupervisorSpec says. */
module Multiprocess {
  import opened SupervisorSpec
  import Readiness
  import Supervisor

  class Multiprocess {
    var processes: seq<nat>
    var processesNum: nat
    var shouldExit: bool
    var signalQueue: seq<Signal>
    var made: nat  // how many `Process` objects have been made
    ghost var trace: seq<Action>
    ghost var handled: seq<Signal>
    ghost var arrived: seq<Signal>

    ghost function Abs(): Sup
      reads this
    {
      Sup(processes, processesNum, shouldExit, signalQueue, made, trace, handled, arrived)
    }

    constructor (workers: nat)
      ensures Abs() == Sup([], workers, false, [], 0, [], [], [])
    {
      processes, processesNum, shouldExit, signalQueue, made := [], workers, false, [], 0;
      trace, handled, arrived := [], [], [];
    }

    /** `Process(...)` and its `start`. */
    method StartProcess() returns (c: nat)
      modifies this`made, this`trace
      ensures Abs() == Start(old(Abs())) && c == old(made)
    {
      c := made;
      made := made + 1;
      trace := trace + [Started(c)];
    }

    /** What is done to a child is history here. */
    ghost method Do(actions: seq<Action>)
      modifies this`trace
      ensures Abs() == Did(old(Abs()), actions)
    {
      trace := trace + actions;
    }

    method InitProcesses()
      modifies this
      ensures Abs() == InitFrom(old(Abs()), old(processesNum))
    {
      ghost var s := Abs();
      for i := 0 to processesNum
        invariant processesNum == s.num
        invariant InitFrom(s, s.num) == InitFrom(Abs(), s.num - i)
      {
        var c := StartProcess();
        processes := processes + [c];
      }
    }

    method RestartAll(answers: nat -> Replacement)
      modifies this
      ensures Abs() == RestartFrom(old(Abs()), 0, answers)
    {
      ghost var s := Abs();
      for i := 0 to |processes|
        invariant |processes| == |s.processes|
        invariant RestartFrom(s, 0, answers) == RestartFrom(Abs(), i, answers)
      {
        if answers(i).exit { shouldExit := true; }
        if shouldExit { return; }
        var newProcess := StartProcess();
        var child := new Readiness.Process();
        var ready := child.WaitUntilReady(answers(i).turns);
        if !ready {
          Do([Killed(newProcess), Joined(newProcess)]);
          if answers(i).exitMeanwhile { shouldExit := true; }
          return;
        }
        Do([Ready(newProcess), Terminated(processes[i]), Joined(processes[i])]);
        processes := processes[i := newProcess];
      }
    }

    method KeepSubprocessAlive(health: nat -> Health)
      modifies this
      ensures Abs() == SupervisorSpec.KeepSubprocessAlive(old(Abs()), health)
    {
      if shouldExit { return; }
      ghost var s := Abs();
      for i := 0 to |processes|
        invariant |processes| == |s.processes| && !shouldExit
        invariant KeepAliveFrom(s, 0, health) == KeepAliveFrom(Abs(), i, health)
      {
        match health(i) {
          case Alive =>
          case Dead(startupFailure, exitMeanwhile) =>
            Do([Killed(processes[i]), Joined(processes[i])]);
            if startupFailure {
              shouldExit := true;
              return;
            }
            if exitMeanwhile { shouldExit := true; }
            if shouldExit { return; }
            var c := StartProcess();
            processes := processes[i := c];
        }
      }
    }

    // ---------- signals ----------

    /** `self.signal_queue.remove(sig)`: the first occurrence goes. */
    method RemoveSignal(sig: Signal)
      requires sig in signalQueue
      modifies this`signalQueue
      ensures exists i :: 0 <= i < |old(signalQueue)| && old(signalQueue)[i] == sig && sig !in old(signalQueue)[..i]
                          && signalQueue == old(signalQueue)[..i] + old(signalQueue)[i + 1..]
    {
      var i := 0;
      while signalQueue[i] != sig
        invariant i < |signalQueue| && sig !in signalQueue[..i]
        decreases |signalQueue| - i
      {
        assert sig in signalQueue[i + 1..];
        i := i + 1;
      }
      signalQueue := signalQueue[..i] + signalQueue[i + 1..];
    }

    method HandleTtin()
      modifies this
      ensures Abs() == SupervisorSpec.HandleTtin(old(Abs()))
    {
      processesNum := processesNum + 1;
      var c := StartProcess();
      processes := processes + [c];
    }

    method HandleTtou()
      requires |processes| == processesNum
      modifies this
      ensures Abs() == SupervisorSpec.HandleTtou(old(Abs()))
    {
      if processesNum <= 1 { return; }
      processesNum := processesNum - 1;
      var c := processes[|processes| - 1];
      processes := processes[..|processes| - 1];
      Do([Terminated(c), Joined(c)]);
    }

    /** Signals that the process receives: the handlers installed for them only queue. */
    method Receive(sigs: seq<Signal>)
      modifies this`signalQueue, this`arrived
      ensures Abs() == Arrive(old(Abs()), sigs)
    {
      signalQueue := signalQueue + sigs;
      arrived := arrived + sigs;
    }

    method HandleSignal(sig: Signal, answers: nat -> Replacement)
      requires |processes| == processesNum
      modifies this
      ensures Abs() == SupervisorSpec.HandleSignal(old(Abs()), sig, answers)
    {
      match sig {
        case Int => shouldExit := true;
        case Term => shouldExit := true;
        case Break => shouldExit := true;
        case Hup => RestartAll(answers);
        case Ttin => HandleTtin();
        case Ttou => HandleTtou();
        case OtherSignal =>
      }
    }

    /** The body of the loop of `handle_signals`. */
    method TakeSignal(sig: Signal, m: Meanwhile)
      requires |processes| == processesNum && signalQueue != [] && signalQueue[0] == sig
      modifies this
      ensures Abs() == SupervisorSpec.TakeSignal(old(Abs()), m)
      ensures signalQueue == old(signalQueue)[1..] + m.arrivals
    {
      hide SupervisorSpec.HandleSignal;
      ghost var before := Abs();
      RemoveSignal(sig);
      assert signalQueue == before.queue[1..];
      handled := handled + [sig];
      ghost var taken := Abs();
      HandleSignal(sig, m.answers);
      Supervisor.QueueOf(taken, sig, m.answers);
      Receive(m.arrivals);
    }

    method HandleSignals(env: nat -> Meanwhile)
      requires Supervisor.Inv(Abs())
      modifies this
      ensures Abs() == SupervisorSpec.HandleSignals(old(Abs()), env) && Supervisor.Inv(Abs())
    {
      hide Supervisor.Inv, SupervisorSpec.TakeSignal;
      ghost var s := Abs();
      var snapshot := signalQueue;
      for k := 0 to |snapshot|
        invariant snapshot[k..] <= signalQueue && Supervisor.Inv(Abs())
        invariant TakeSignals(s, |snapshot|, 0, env) == TakeSignals(Abs(), |snapshot|, k, env)
      {
        Supervisor.TakeOk(Abs(), env(k));
        NumberKept(Abs());
        TakeSignal(snapshot[k], env(k));
      }
    }

    // ---------- the main loop ----------

    method TerminateAll()
      modifies this`trace
      ensures Abs() == Did(old(Abs()), All(processes, (c: nat) => Terminated(c)))
    {
      for i := 0 to |processes|
        invariant trace == old(trace) + All(processes[..i], (c: nat) => Terminated(c))
      {
        Do([Terminated(processes[i])]);
        assert All(processes[..i + 1], (c: nat) => Terminated(c))
            == All(processes[..i], (c: nat) => Terminated(c)) + [Terminated(processes[i])];
      }
      assert processes[..|processes|] == processes;
    }

    method JoinAll()
      modifies this`trace
      ensures Abs() == Did(old(Abs()), All(processes, (c: nat) => Joined(c)))
    {
      for i := 0 to |processes|
        invariant trace == old(trace) + All(processes[..i], (c: nat) => Joined(c))
      {
        Do([Joined(processes[i])]);
        assert All(processes[..i + 1], (c: nat) => Joined(c))
            == All(processes[..i], (c: nat) => Joined(c)) + [Joined(processes[i])];
      }
      assert processes[..|processes|] == processes;
    }

    /** One turn of the loop of `run`. */
    method Turn(r: Round)
      requires Supervisor.Inv(Abs())
      modifies this
      ensures Abs() == SupervisorSpec.Turn(old(Abs()), r) && Supervisor.Inv(Abs())
    {
      hide Supervisor.Inv, SupervisorSpec.HandleSignals, SupervisorSpec.KeepSubprocessAlive;
      Supervisor.TurnOk(Abs(), r);
      Supervisor.ArriveOk(Abs(), r.before);
      Receive(r.before);
      HandleSignals(r.env);
      if r.exit { shouldExit := true; }
      KeepSubprocessAlive(r.health);
    }

    /** `run`, with what happens in each turn until `should_exit` is set. */
    method Run(rounds: seq<Round>)
      requires Abs() == Sup([], processesNum, false, [], 0, [], [], []) && processesNum >= 1
      modifies this
      ensures Abs() == SupervisorSpec.Run(old(processesNum), rounds)
    {
      hide Supervisor.Inv, SupervisorSpec.Turn, SupervisorSpec.InitFrom;
      Supervisor.FirstOk(processesNum);
      InitProcesses();
      ghost var s := Abs();
      var k := 0;
      assert rounds[0..] == rounds;
      while k < |rounds| && !shouldExit
        invariant k <= |rounds| && Supervisor.Inv(Abs())
        invariant Turns(s, rounds) == Turns(Abs(), rounds[k..])
      {
        assert rounds[k..][0] == rounds[k] && rounds[k..][1..] == rounds[k + 1..];
        Turn(rounds[k]);
        k := k + 1;
      }
      TerminateAll();
      JoinAll();
    }
  }

  lemma NumberKept(s: Sup)
    requires Supervisor.Inv(s)
    ensures |s.processes| == s.num
  {
  }
}
