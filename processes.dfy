/**
 * A process of the Java and JavaScript simulators: identity and scheduling
 * parameters fixed at creation, a lifecycle state and counters the table
 * and the scheduler update, and the interpreter that runs its program.
 */
module Processes {
  import opened Wrappers
  import opened AsmSyntax
  import opened AsmSemantics
  import opened Interpreter

  /** "new", "ready", "running", "blocked", "exit". */
  datatype State = New | Ready | Running | Blocked | Exit

  /** "realtime" or "besteffort", the two types the drivers create. */
  datatype ProcessClass = Realtime | BestEffort

  /**
   * Time slices left: a count for real-time processes, no limit for
   * best-effort ones (Java stores Integer.MAX_VALUE, JavaScript Infinity).
   */
  datatype Quantum = Finite(n: int) | Unbounded

  /** `quantumLeft--`: a count goes down by one, no limit stays no limit. */
  function Decrement(q: Quantum): (r: Quantum)
    ensures q.Unbounded? <==> r.Unbounded?
    ensures q.Finite? ==> r.n < q.n
  {
    match q
    case Finite(n) => Finite(n - 1)
    case Unbounded => Unbounded
  }

  /** `quantumLeft <= 0`. */
  predicate Exhausted(q: Quantum) {
    q.Finite? && q.n <= 0
  }

  /** A quantum of k slices is exhausted after exactly k decrements. */
  lemma {:induction false} DecrementsExhaust(k: nat, q: Quantum)
    requires q == Finite(k)
    ensures forall j: nat :: j < k ==> !Exhausted(Iterate(q, j))
    ensures Exhausted(Iterate(q, k))
  {
    forall j: nat | j <= k
      ensures Iterate(q, j) == Finite(k - j)
    {
      IterateFinite(k, j);
    }
  }

  function Iterate(q: Quantum, j: nat): Quantum {
    if j == 0 then q else Decrement(Iterate(q, j - 1))
  }

  lemma {:induction false} IterateFinite(k: int, j: nat)
    ensures Iterate(Finite(k), j) == Finite(k - j)
  {
    if j > 0 {
      IterateFinite(k, j - 1);
    }
  }

  /** An unlimited quantum never runs out. */
  lemma {:induction false} UnboundedNeverExhausted(j: nat)
    ensures !Exhausted(Iterate(Unbounded, j))
    ensures Iterate(Unbounded, j) == Unbounded
  {
    if j > 0 {
      UnboundedNeverExhausted(j - 1);
    }
  }

  /** What `saveState` copies out of the interpreter. */
  datatype SavedState = SavedState(
    acc: int,
    pc: int,
    data: map<string, int>,
    running: bool,
    blocked: bool,
    blockTime: int,
    waitingForInput: bool)

  function Snapshot(c: Cpu): SavedState {
    SavedState(c.acc, c.pc, c.data, c.running, c.blocked, c.blockTime, c.waitingForInput)
  }

  /** What `restoreState` writes back: the program and labels stay. */
  function Restore(c: Cpu, s: SavedState): Cpu {
    c.(acc := s.acc, pc := s.pc, data := s.data, running := s.running,
       blocked := s.blocked, blockTime := s.blockTime, waitingForInput := s.waitingForInput)
  }

  /** Restoring a snapshot gives back the state it was taken from. */
  lemma RestoreSnapshot(c: Cpu)
    ensures Restore(c, Snapshot(c)) == c
  {
  }

  /** A snapshot of a restored state is what was restored, whatever the program. */
  lemma SnapshotRestore(c: Cpu, s: SavedState)
    ensures Snapshot(Restore(c, s)) == s
    ensures Restore(c, s).code == c.code && Restore(c, s).labels == c.labels
  {
  }

  /** Two states that agree on a snapshot and a program are the same state. */
  lemma SnapshotDetermines(c: Cpu, e: Cpu)
    requires Snapshot(c) == Snapshot(e) && c.code == e.code && c.labels == e.labels
    ensures c == e
  {
  }

  /** Everything about a process the table and the scheduler look at, as a value. */
  datatype Row = Row(
    id: int,
    kind: ProcessClass,
    priority: int,
    arrivalTime: int,
    state: State,
    blockEndTime: int,
    quantumLeft: Quantum,
    executionTime: int,
    waitingTime: int,
    cpu: Cpu)

  class Process {
    const id: int
    const name: string
    const code: string
    const arrivalTime: int
    const kind: ProcessClass
    const priority: int
    const interpreter: AssemblyInterpreter
    var state: State
    var blockEndTime: int
    var quantumLeft: Quantum
    var executionTime: int
    var waitingTime: int

    function View(): Row
      reads this, interpreter
    {
      Row(id, kind, priority, arrivalTime, state, blockEndTime, quantumLeft,
                    executionTime, waitingTime, interpreter.State())
    }

    /** The fields a new process starts with, around an interpreter that has loaded `code`. */
    constructor(id: int, name: string, code: string, arrivalTime: int, kind: ProcessClass,
                priority: int, interpreter: AssemblyInterpreter)
      ensures this.id == id && this.name == name && this.code == code
      ensures this.arrivalTime == arrivalTime && this.kind == kind && this.priority == priority
      ensures this.interpreter == interpreter
      ensures state == New && blockEndTime == 0 && quantumLeft == Finite(0)
      ensures executionTime == 0 && waitingTime == 0
    {
      this.id, this.name, this.code := id, name, code;
      this.arrivalTime, this.kind, this.priority := arrivalTime, kind, priority;
      this.interpreter := interpreter;
      state, blockEndTime, quantumLeft := New, 0, Finite(0);
      executionTime, waitingTime := 0, 0;
    }

    method IncrementExecutionTime()
      modifies this
      ensures executionTime == old(executionTime) + 1
      ensures View() == old(View()).(executionTime := executionTime)
    {
      executionTime := executionTime + 1;
    }

    method IncrementWaitingTime()
      modifies this
      ensures waitingTime == old(waitingTime) + 1
      ensures View() == old(View()).(waitingTime := waitingTime)
    {
      waitingTime := waitingTime + 1;
    }

    method DecrementQuantumLeft()
      modifies this
      ensures quantumLeft == Decrement(old(quantumLeft))
      ensures View() == old(View()).(quantumLeft := quantumLeft)
    {
      quantumLeft := Decrement(quantumLeft);
    }

    /** `saveState`: a copy of the interpreter's registers, data and flags. */
    method SaveState() returns (s: SavedState)
      ensures s == Snapshot(interpreter.State())
    {
      s := SavedState(interpreter.acc, interpreter.pc, interpreter.data, interpreter.running,
                      interpreter.blocked, interpreter.blockTime, interpreter.waitingForInput);
    }

    /** `restoreState`: writes a copy back, leaving program, labels and handler. */
    method RestoreState(s: SavedState)
      modifies interpreter
      ensures interpreter.State() == Restore(old(interpreter.State()), s)
      ensures interpreter.handler == old(interpreter.handler)
    {
      interpreter.acc := s.acc;
      interpreter.pc := s.pc;
      interpreter.data := s.data;
      interpreter.running := s.running;
      interpreter.blocked := s.blocked;
      interpreter.blockTime := s.blockTime;
      interpreter.waitingForInput := s.waitingForInput;
    }
  }

  /** The row `new Process(...)` describes once its program has loaded. */
  function Created(d: Dialect, id: int, code: string, arrivalTime: int, kind: ProcessClass, priority: int): Row {
    Row(id, kind, priority, arrivalTime, New, 0, Finite(0), 0, 0, Loaded(Parse(d, code)))
  }

  /**
   * `new Process(...)`: builds an interpreter and loads the program, which
   * throws (and no process exists) when a data value is not a number.
   */
  method NewProcess(d: Dialect, id: int, name: string, code: string, arrivalTime: int,
                    kind: ProcessClass, priority: int) returns (r: Result<Process, Fault>)
    ensures r.Success? <==> Parse(d, code).fault.None?
    ensures r.Failure? ==> r.error == Parse(d, code).fault.value
    ensures r.Success? ==>
      && fresh(r.value) && fresh(r.value.interpreter)
      && r.value.View() == Created(d, id, code, arrivalTime, kind, priority)
      && r.value.name == name && r.value.code == code
      && r.value.interpreter.dialect == d && r.value.interpreter.handler == None
  {
    var interpreter := new AssemblyInterpreter(d);
    var loaded := interpreter.ParseProgram(code);
    if loaded.Failure? {
      return Failure(loaded.error);
    }
    var p := new Process(id, name, code, arrivalTime, kind, priority, interpreter);
    r := Success(p);
  }
}
