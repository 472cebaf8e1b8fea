/**
 * The scheduler object: the process table it works on, the quantum, and
 * the process it selected, updated in place by `schedule()` as the
 * function `Scheduling.Schedule` describes.
 */
module Scheduler {
  import opened Wrappers
  import opened AsmSyntax
  import opened AsmSemantics
  import opened Interpreter
  import opened Processes
  import opened Manager
  import opened Scheduling

  /** Where a process stands in the table, if it is listed. */
  function Position(ps: seq<Process>, p: Process): (k: Option<nat>)
    ensures k.Some? ==> k.value < |ps| && ps[k.value] == p
    ensures k.None? ==> p !in ps
  {
    if ps == [] then None
    else if ps[0] == p then Some(0)
    else match Position(ps[1..], p) {
      case Some(k) => Some(k + 1)
      case None => None
    }
  }

  /** In a table without repeats, the process at k stands at k. */
  lemma PositionOfListed(ps: seq<Process>, k: nat)
    requires k < |ps|
    requires forall i, j :: 0 <= i < j < |ps| ==> ps[i] != ps[j]
    ensures Position(ps, ps[k]) == Some(k)
  {
    var q := Position(ps, ps[k]).value;
    assert ps[q] == ps[k];
  }

  /** `setState` and `setQuantumLeft` on the k-th process of a table without repeats. */
  method Assign(ps: seq<Process>, k: nat, s: State, q: Quantum)
    requires k < |ps|
    requires forall i, j :: 0 <= i < j < |ps| ==> ps[i] != ps[j]
    modifies ps[k]
    ensures RowsOf(ps) == old(RowsOf(ps))[k := old(ps[k].View()).(state := s, quantumLeft := q)]
  {
    ghost var before := RowsOf(ps);
    ps[k].state := s;
    ps[k].quantumLeft := q;
    forall j | 0 <= j < |ps|
      ensures RowsOf(ps)[j] == before[k := before[k].(state := s, quantumLeft := q)][j]
    {
      if j != k {
        assert ps[j] != ps[k];
      }
    }
  }

  class ProcessScheduler {
    const manager: ProcessManager
    var quantum: int
    var currentProcess: Process?

    /** The selected process and its interpreter, if any. */
    function Held(): set<object>
      reads this
    {
      if currentProcess != null then {currentProcess, currentProcess.interpreter} else {}
    }

    function Selected(): Selection
      reads this, manager, Held()
    {
      if currentProcess == null then Nothing
      else match Position(manager.processes, currentProcess) {
        case Some(k) => Listed(k)
        case None => Detached(currentProcess.View())
      }
    }

    /** The table and the selection, as values. */
    function Capture(): World
      reads this, manager, manager.Repr(), Held()
    {
      World(manager.Rows(), Selected())
    }

    /** The process a selection names. */
    function ProcessOf(s: Selection): Process?
      reads this, manager
    {
      match s
      case Nothing => null
      case Listed(k) => if k < |manager.processes| then manager.processes[k] else null
      case Detached(_) => currentProcess
    }

    /** What `schedule()` returns, from what the function says it returns: `None` is `undefined`. */
    function Answer(r: Reply): Option<Process?>
      reads this, manager
    {
      match r
      case Undefined => None
      case Returned(s) => Some(ProcessOf(s))
    }

    constructor(manager: ProcessManager)
      ensures this.manager == manager && quantum == 2 && currentProcess == null
    {
      this.manager := manager;
      quantum := 2;
      currentProcess := null;
    }

    /** `setQuantum`; `q` is `None` where JavaScript's `parseInt` gives NaN. */
    method SetQuantum(q: Option<int>)
      requires manager.dialect == Java ==> q.Some?
      modifies this
      ensures quantum == QuantumSetting(manager.dialect, q) && currentProcess == old(currentProcess)
    {
      match q {
        case None => quantum := 2;
        case Some(n) =>
          var given := if manager.dialect == Js && n == 0 then 2 else n;
          quantum := if given < 1 then 1 else given;
      }
    }

    /** The selection fits the table and names the selected process. */
    lemma CaptureFits()
      ensures Fits(Capture())
      ensures ProcessOf(Capture().current) == currentProcess
      ensures currentProcess != null ==>
        !Capture().current.Nothing? && CurrentRow(Capture()) == currentProcess.View()
    {
    }

    /** `schedule()`. */
    method Schedule() returns (reply: Option<Process?>)
      requires manager.Valid()
      modifies this, manager.processes, currentProcess
      ensures Fits(old(Capture()))
      ensures Capture() == Scheduling.Schedule(manager.dialect, quantum, old(Capture())).0
      ensures reply == Answer(Scheduling.Schedule(manager.dialect, quantum, old(Capture())).1)
      ensures quantum == old(quantum)
      decreases !RealtimeReady(Capture()), !Capture().current.Nothing?, 2
    {
      CaptureFits();
      ghost var w := Capture();
      CheckRunningFits(w);
      var hold := CheckRunningStep();
      if hold.Some? {
        assert Scheduling.Schedule(manager.dialect, quantum, w) ==
          (w, if manager.dialect == Java then Returned(Listed(hold.value)) else Undefined);
        if manager.dialect == Java {
          return Some(manager.processes[hold.value]);
        }
        return None;
      }
      reply := SelectAndPreempt(w);
    }

    /** Lines 41-85: selection and preemption, after a running check that did not hold. */
    method SelectAndPreempt(ghost w: World) returns (reply: Option<Process?>)
      requires manager.Valid() && Fits(w) && CheckRunning(w).Go?
      requires Capture() == CheckRunning(w).world
      modifies this, manager.processes, currentProcess
      ensures Capture() == Scheduling.Schedule(manager.dialect, quantum, w).0
      ensures reply == Answer(Scheduling.Schedule(manager.dialect, quantum, w).1)
      ensures quantum == old(quantum)
      decreases !RealtimeReady(w), !w.current.Nothing?, 1
    {
      CheckRunningFits(w);
      SelectStep();
      ghost var w2 := Capture();
      CaptureFits();
      var preempt := false;
      if currentProcess != null && currentProcess.kind == BestEffort {
        preempt := PickRealtime(manager.Rows()).Some?;
      }
      assert preempt == Preempts(w2);
      if !preempt {
        return Some(currentProcess);
      }
      reply := Reschedule(w);
    }

    /** Lines 76-85: the preemption and the call that selects again. */
    method Reschedule(ghost w: World) returns (reply: Option<Process?>)
      requires manager.Valid() && Fits(w) && CheckRunning(w).Go?
      requires Fits(CheckRunning(w).world)
      requires Capture() == SelectNext(CheckRunning(w).world, quantum) && Preempts(Capture())
      modifies this, manager.processes, currentProcess
      ensures Capture() == Scheduling.Schedule(manager.dialect, quantum, w).0
      ensures reply == Answer(Scheduling.Schedule(manager.dialect, quantum, w).1)
      ensures quantum == old(quantum)
      decreases !RealtimeReady(w), !w.current.Nothing?, 0
    {
      PreemptionNeedsSelection(w, quantum);
      PreemptStep();
      var inner := Schedule();
      if manager.dialect == Java {
        return inner;
      }
      CaptureFits();
      return Some(currentProcess);
    }

    /**
     * `executeCurrentProcess`: one instruction of the selected process if it
     * is running; the system-call action its handler asks for is applied
     * through the table, and a fault terminates the process.
     */
    method ExecuteCurrentProcess() returns (executed: bool)
      modifies if currentProcess != null then {currentProcess, currentProcess.interpreter} else {}
      ensures currentProcess == null ==> !executed
      ensures currentProcess != null ==>
        (currentProcess.View(), executed) ==
          ExecuteRow(currentProcess.interpreter.dialect, old(currentProcess.View()),
                     old(currentProcess.interpreter.handler), manager.currentTime)
    {
      if currentProcess == null || currentProcess.state != Running {
        return false;
      }
      var p := currentProcess;
      var r, action := p.interpreter.ExecuteInstruction();
      match r {
        case Failure(_) =>
          manager.TerminateProcess(p);
          return false;
        case Success(stepped) =>
          match action {
            case None =>
            case Some(Ignore) =>
            case Some(Terminate) => manager.TerminateProcess(p);
            case Some(Block(duration)) => manager.BlockProcess(p, duration);
            case Some(AwaitInput) => p.interpreter.waitingForInput := true;
          }
          return stepped;
      }
    }

    /** Lines 21-38 of the Java scheduler: the running check. */
    method CheckRunningStep() returns (hold: Option<nat>)
      requires manager.Valid()
      modifies this, manager.processes
      ensures quantum == old(quantum)
      ensures currentProcess == old(currentProcess) || currentProcess == null
      ensures match CheckRunning(old(Capture()))
        case Hold(r) => hold == Some(r) && Capture() == old(Capture())
        case Go(w1) => hold == None && Capture() == w1
    {
      var r := FirstProcessIndex(manager.processes, Running);
      SameFirstIndex(manager.processes, Running);
      hold := None;
      if r.Some? {
        var rp := manager.processes[r.value];
        if Exhausted(rp.quantumLeft) && rp.kind == Realtime {
          Expire(r.value);
        } else if rp.interpreter.waitingForInput {
          hold := r;
        }
      }
    }

    /** Lines 41-68: with nothing selected, select and dispatch. */
    method SelectStep()
      requires manager.Valid()
      modifies this, manager.processes
      ensures quantum == old(quantum)
      ensures currentProcess == old(currentProcess) || currentProcess in manager.processes
      ensures Capture() == SelectNext(old(Capture()), quantum)
    {
      if currentProcess == null {
        ghost var rows := manager.Rows();
        assert old(Capture()) == World(rows, Nothing);
        var realtime := PickRealtime(manager.Rows());
        if realtime.Some? {
          Dispatch(realtime.value, Finite(quantum));
        } else {
          var bestEffort := PickBestEffort(manager.Rows());
          if bestEffort.Some? {
            Dispatch(bestEffort.value, Unbounded);
          }
        }
      }
    }

    /** Selects the k-th process: running, with the given quantum. */
    method Dispatch(k: nat, q: Quantum)
      requires manager.Valid() && k < |manager.processes|
      modifies this, manager.processes[k]
      ensures quantum == old(quantum) && currentProcess == manager.processes[k]
      ensures Capture() == World(old(manager.Rows())[k := old(manager.Rows())[k].(state := Running, quantumLeft := q)], Listed(k))
    {
      Assign(manager.processes, k, Running, q);
      currentProcess := manager.processes[k];
      PositionOfListed(manager.processes, k);
      assert Selected() == Listed(k);
    }

    /** Lines 27-29: the k-th process goes back to ready and nothing is selected. */
    method Expire(k: nat)
      requires manager.Valid() && k < |manager.processes|
      modifies this, manager.processes[k]
      ensures quantum == old(quantum) && currentProcess == null
      ensures Capture() == World(old(manager.Rows())[k := old(manager.Rows())[k].(state := Ready)], Nothing)
    {
      Assign(manager.processes, k, Ready, manager.processes[k].quantumLeft);
      currentProcess := null;
    }

    /** Lines 78-79: the best-effort selection goes back to ready and is dropped. */
    method PreemptStep()
      requires manager.Valid() && currentProcess != null
      modifies this, currentProcess
      ensures quantum == old(quantum)
      ensures Capture() == Preempted(old(Capture()))
    {
      var k := Position(manager.processes, currentProcess);
      if k.Some? {
        Assign(manager.processes, k.value, Ready, currentProcess.quantumLeft);
      } else {
        currentProcess.state := Ready;
      }
      currentProcess := null;
    }
  }
}
