/**
 * What one `schedule()` call does, on values: the table's rows and the
 * scheduler's selection before and after. The `ProcessScheduler` class is
 * proved against `Schedule`.
 */
module Scheduling {
  import opened Wrappers
  import opened AsmSyntax
  import opened AsmSemantics
  import opened Interpreter
  import opened Processes
  import opened Manager

  /**
   * The scheduler's selection: none, a process of the table (by index), or
   * a process the table no longer lists (the table was reset while the
   * scheduler kept its selection); of that one only its row matters.
   */
  datatype Selection = Nothing | Listed(k: nat) | Detached(row: Row)

  datatype World = World(table: seq<Row>, current: Selection)

  /** What `schedule()` returns: JavaScript's `undefined`, or a process (the selection) or null. */
  datatype Reply = Undefined | Returned(who: Selection)

  predicate Fits(w: World) {
    w.current.Listed? ==> w.current.k < |w.table|
  }

  /** The selected process's row. */
  function CurrentRow(w: World): Row
    requires Fits(w) && !w.current.Nothing?
  {
    match w.current
    case Listed(k) => w.table[k]
    case Detached(row) => row
  }

  /** Changes the selected process's row. */
  function UpdateCurrent(w: World, row: Row): (r: World)
    requires Fits(w) && !w.current.Nothing?
    ensures Fits(r) && r.current.Nothing? == w.current.Nothing? && CurrentRow(r) == row
    ensures |r.table| == |w.table| && r.current.Listed? == w.current.Listed?
    ensures w.current.Listed? ==> r.current == w.current
    ensures forall i :: 0 <= i < |w.table| && !(w.current.Listed? && i == w.current.k) ==> r.table[i] == w.table[i]
  {
    match w.current
    case Listed(k) => w.(table := w.table[k := row])
    case Detached(_) => w.(current := Detached(row))
  }

  predicate ReadyRealtime(r: Row) {
    r.state == Ready && r.kind == Realtime
  }

  predicate ReadyBestEffort(r: Row) {
    r.state == Ready && r.kind == BestEffort
  }

  /** (priority, arrivalTime) of `a` is at most that of `b`. */
  predicate NotAfter(a: Row, b: Row) {
    a.priority < b.priority || (a.priority == b.priority && a.arrivalTime <= b.arrivalTime)
  }

  /**
   * The head of the ready real-time processes sorted by priority, then
   * arrival time, ties kept in table order.
   */
  function PickRealtime(rows: seq<Row>): (k: Option<nat>)
    ensures k.Some? ==> k.value < |rows| && ReadyRealtime(rows[k.value])
    ensures k.None? <==> forall i :: 0 <= i < |rows| ==> !ReadyRealtime(rows[i])
  {
    if rows == [] then None
    else
      match PickRealtime(rows[1..]) {
        case None => if ReadyRealtime(rows[0]) then Some(0) else None
        case Some(j) =>
          if ReadyRealtime(rows[0]) && NotAfter(rows[0], rows[j + 1]) then Some(0) else Some(j + 1)
      }
  }

  /** The head of the ready best-effort processes sorted by arrival time, ties in table order. */
  function PickBestEffort(rows: seq<Row>): (k: Option<nat>)
    ensures k.Some? ==> k.value < |rows| && ReadyBestEffort(rows[k.value])
    ensures k.None? <==> forall i :: 0 <= i < |rows| ==> !ReadyBestEffort(rows[i])
  {
    if rows == [] then None
    else
      match PickBestEffort(rows[1..]) {
        case None => if ReadyBestEffort(rows[0]) then Some(0) else None
        case Some(j) =>
          if ReadyBestEffort(rows[0]) && rows[0].arrivalTime <= rows[j + 1].arrivalTime then Some(0)
          else Some(j + 1)
      }
  }

  predicate RealtimeReady(w: World) {
    PickRealtime(w.table).Some?
  }

  /** The result of the running check at the start of `schedule`. */
  datatype Check = Hold(running: nat) | Go(world: World)

  /** Lines 21-38: an expired real-time process goes back to ready; one waiting for input holds everything. */
  function CheckRunning(w: World): Check {
    match FirstIn(w.table, Running)
    case None => Go(w)
    case Some(r) =>
      var row := w.table[r];
      if Exhausted(row.quantumLeft) && row.kind == Realtime then
        Go(World(w.table[r := row.(state := Ready)], Nothing))
      else if row.cpu.waitingForInput then Hold(r)
      else if row.state == Exit || row.state == Blocked then Go(w.(current := Nothing))
      else Go(w)
  }

  /** Lines 41-68: with nothing selected, the best ready real-time process, else the first best-effort one. */
  function SelectNext(w: World, quantum: int): (r: World)
    requires Fits(w)
    ensures Fits(r)
  {
    if !w.current.Nothing? then w
    else
      match PickRealtime(w.table) {
        case Some(k) =>
          World(w.table[k := w.table[k].(state := Running, quantumLeft := Finite(quantum))], Listed(k))
        case None =>
          match PickBestEffort(w.table) {
            case Some(k) =>
              World(w.table[k := w.table[k].(state := Running, quantumLeft := Unbounded)], Listed(k))
            case None => w
          }
      }
  }

  /** Line 72-76: a best-effort selection while a real-time process is ready. */
  predicate Preempts(w: World)
    requires Fits(w)
  {
    !w.current.Nothing? && CurrentRow(w).kind == BestEffort && RealtimeReady(w)
  }

  /** Lines 78-79: the best-effort process goes back to ready and the selection is cleared. */
  function Preempted(w: World): World
    requires Fits(w) && !w.current.Nothing?
  {
    match w.current
    case Listed(k) => World(w.table[k := w.table[k].(state := Ready)], Nothing)
    case Detached(_) => w.(current := Nothing)
  }

  /** Fitting worlds stay fitting through the running check. */
  lemma CheckRunningFits(w: World)
    requires Fits(w)
    ensures CheckRunning(w).Go? ==> Fits(CheckRunning(w).world)
    ensures CheckRunning(w).Hold? ==> CheckRunning(w).running < |w.table|
  {
  }

  /**
   * A preemption happens only when the call started with a best-effort
   * selection and a ready real-time process, which is still ready after it.
   */
  lemma PreemptionNeedsSelection(w: World, quantum: int)
    requires Fits(w) && CheckRunning(w).Go?
    requires Fits(CheckRunning(w).world)
    requires Preempts(SelectNext(CheckRunning(w).world, quantum))
    ensures CheckRunning(w).world == w && !w.current.Nothing? && RealtimeReady(w)
    ensures SelectNext(w, quantum) == w
    ensures RealtimeReady(Preempted(w)) && Preempted(w).current.Nothing?
  {
    var w1 := CheckRunning(w).world;
    var w2 := SelectNext(w1, quantum);
    if w1.current.Nothing? {
      if PickRealtime(w1.table).None? {
        match PickBestEffort(w1.table)
        case Some(k) =>
          SameReadyRealtime(w1.table, k, w1.table[k].(state := Running, quantumLeft := Unbounded));
        case None =>
      }
    }
    var c := w.current;
    match c
    case Listed(k) =>
      SameReadyRealtime(w.table, k, w.table[k].(state := Ready));
    case Detached(_) =>
  }

  /** Changing a row that is not a ready real-time one into another such row keeps the pick's existence. */
  lemma SameReadyRealtime(rows: seq<Row>, k: nat, row: Row)
    requires k < |rows| && !ReadyRealtime(rows[k]) && !ReadyRealtime(row)
    ensures PickRealtime(rows[k := row]).Some? == PickRealtime(rows).Some?
  {
    var updated := rows[k := row];
    if PickRealtime(rows).Some? {
      var i := PickRealtime(rows).value;
      assert ReadyRealtime(updated[i]);
    }
    if PickRealtime(updated).Some? {
      var i := PickRealtime(updated).value;
      assert ReadyRealtime(rows[i]);
    }
  }

  /**
   * `schedule()`: the running check, the selection, and preemption of a
   * best-effort selection by a rescheduling call. Java returns the inner
   * call's value; JavaScript ignores it and returns its own selection.
   */
  function Schedule(d: Dialect, quantum: int, w: World): (World, Reply)
    requires Fits(w)
    decreases !RealtimeReady(w), !w.current.Nothing?
  {
    CheckRunningFits(w);
    match CheckRunning(w)
    case Hold(r) => (w, if d == Java then Returned(Listed(r)) else Undefined)
    case Go(w1) =>
      var w2 := SelectNext(w1, quantum);
      if Preempts(w2) then
        PreemptionNeedsSelection(w, quantum);
        var (w4, reply) := Schedule(d, quantum, Preempted(w2));
        (w4, if d == Java then reply else Returned(w4.current))
      else (w2, Returned(w2.current))
  }

  // ---------------------------------------------------------------------
  // What a call guarantees

  /** The scheduler's result still fits its table. */
  lemma {:induction false} ScheduleFits(d: Dialect, quantum: int, w: World)
    requires Fits(w)
    ensures Fits(Schedule(d, quantum, w).0)
    ensures |Schedule(d, quantum, w).0.table| == |w.table|
    decreases !RealtimeReady(w), !w.current.Nothing?
  {
    CheckRunningFits(w);
    if CheckRunning(w).Go? {
      var w2 := SelectNext(CheckRunning(w).world, quantum);
      if Preempts(w2) {
        PreemptionNeedsSelection(w, quantum);
        ScheduleFits(d, quantum, Preempted(w2));
      }
    }
  }

  /**
   * On return no best-effort process is selected while a real-time one is
   * ready, unless the call held for a process waiting for input.
   */
  lemma {:induction false} RealtimeBeforeBestEffort(d: Dialect, quantum: int, w: World)
    requires Fits(w)
    ensures var w' := Schedule(d, quantum, w).0;
      Fits(w') && !w'.current.Nothing? && CurrentRow(w').kind == BestEffort ==>
        !RealtimeReady(w') || CheckRunning(w).Hold?
    decreases !RealtimeReady(w), !w.current.Nothing?
  {
    ScheduleFits(d, quantum, w);
    CheckRunningFits(w);
    if CheckRunning(w).Go? {
      var w2 := SelectNext(CheckRunning(w).world, quantum);
      if Preempts(w2) {
        PreemptionNeedsSelection(w, quantum);
        var w3 := Preempted(w2);
        RealtimeBeforeBestEffort(d, quantum, w3);
        if CheckRunning(w3).Hold? {
          assert Schedule(d, quantum, w3).0 == w3;
        }
      }
    }
  }

  /** Both ports leave the same table and selection; they differ only in what they return. */
  lemma {:induction false} DialectsScheduleAlike(quantum: int, w: World)
    requires Fits(w)
    ensures Schedule(Java, quantum, w).0 == Schedule(Js, quantum, w).0
    ensures Schedule(Js, quantum, w).1 == Undefined <==> CheckRunning(w).Hold?
    ensures !CheckRunning(w).Hold? ==> Schedule(Js, quantum, w).1 == Returned(Schedule(Js, quantum, w).0.current)
    ensures CheckRunning(w).Hold? ==> Schedule(Java, quantum, w).1 == Returned(Listed(CheckRunning(w).running))
    decreases !RealtimeReady(w), !w.current.Nothing?
  {
    CheckRunningFits(w);
    if CheckRunning(w).Go? {
      var w2 := SelectNext(CheckRunning(w).world, quantum);
      if Preempts(w2) {
        PreemptionNeedsSelection(w, quantum);
        DialectsScheduleAlike(quantum, Preempted(w2));
      }
    }
  }

  /** The real-time pick is the head of a stable sort by (priority, arrival time). */
  lemma {:induction false} PickRealtimeIsStableHead(rows: seq<Row>)
    requires PickRealtime(rows).Some?
    ensures var k := PickRealtime(rows).value;
      && (forall i :: 0 <= i < |rows| && ReadyRealtime(rows[i]) ==> NotAfter(rows[k], rows[i]))
      && (forall i :: 0 <= i < k && ReadyRealtime(rows[i]) ==> !NotAfter(rows[i], rows[k]))
  {
    var k := PickRealtime(rows).value;
    var tail := PickRealtime(rows[1..]);
    if tail.Some? {
      PickRealtimeIsStableHead(rows[1..]);
      var j := tail.value;
      forall i | 0 <= i < |rows| && ReadyRealtime(rows[i])
        ensures NotAfter(rows[k], rows[i])
      {
        if i > 0 {
          assert rows[i] == rows[1..][i - 1];
        }
      }
      forall i | 0 <= i < k && ReadyRealtime(rows[i])
        ensures !NotAfter(rows[i], rows[k])
      {
        if i > 0 {
          assert rows[i] == rows[1..][i - 1];
        }
      }
    }
  }

  /** The best-effort pick is the earliest arrival, the first listed among equals. */
  lemma {:induction false} PickBestEffortIsStableHead(rows: seq<Row>)
    requires PickBestEffort(rows).Some?
    ensures var k := PickBestEffort(rows).value;
      && (forall i :: 0 <= i < |rows| && ReadyBestEffort(rows[i]) ==> rows[k].arrivalTime <= rows[i].arrivalTime)
      && (forall i :: 0 <= i < k && ReadyBestEffort(rows[i]) ==> rows[i].arrivalTime > rows[k].arrivalTime)
  {
    var k := PickBestEffort(rows).value;
    var tail := PickBestEffort(rows[1..]);
    if tail.Some? {
      PickBestEffortIsStableHead(rows[1..]);
      forall i | 0 <= i < |rows| && ReadyBestEffort(rows[i])
        ensures rows[k].arrivalTime <= rows[i].arrivalTime
      {
        if i > 0 {
          assert rows[i] == rows[1..][i - 1];
        }
      }
      forall i | 0 <= i < k && ReadyBestEffort(rows[i])
        ensures rows[i].arrivalTime > rows[k].arrivalTime
      {
        if i > 0 {
          assert rows[i] == rows[1..][i - 1];
        }
      }
    }
  }

  /** With nothing selected, the chosen real-time process runs with a full quantum. */
  lemma SelectsRealtime(d: Dialect, quantum: int, w: World)
    requires Fits(w) && w.current.Nothing? && FirstIn(w.table, Running).None?
    requires PickRealtime(w.table).Some?
    ensures var k := PickRealtime(w.table).value;
      Schedule(d, quantum, w)
        == (World(w.table[k := w.table[k].(state := Running, quantumLeft := Finite(quantum))], Listed(k)),
            Returned(Listed(k)))
  {
  }

  /** With no real-time process ready, the chosen best-effort process runs without a limit. */
  lemma SelectsBestEffort(d: Dialect, quantum: int, w: World)
    requires Fits(w) && w.current.Nothing? && FirstIn(w.table, Running).None?
    requires PickRealtime(w.table).None? && PickBestEffort(w.table).Some?
    ensures var k := PickBestEffort(w.table).value;
      Schedule(d, quantum, w)
        == (World(w.table[k := w.table[k].(state := Running, quantumLeft := Unbounded)], Listed(k)),
            Returned(Listed(k)))
  {
    var k := PickBestEffort(w.table).value;
    var w2 := World(w.table[k := w.table[k].(state := Running, quantumLeft := Unbounded)], Listed(k));
    SameReadyRealtime(w.table, k, w2.table[k]);
  }

  /** A running process waiting for input (its quantum not spent) holds everything. */
  lemma HoldsWhileWaiting(d: Dialect, quantum: int, w: World, r: nat)
    requires Fits(w) && FirstIn(w.table, Running) == Some(r)
    requires w.table[r].cpu.waitingForInput
    requires !(Exhausted(w.table[r].quantumLeft) && w.table[r].kind == Realtime)
    ensures Schedule(d, quantum, w).0 == w
    ensures Schedule(d, quantum, w).1 == if d == Java then Returned(Listed(r)) else Undefined
  {
  }

  /** A real-time process whose quantum is spent goes back to ready, or is picked again with a new quantum. */
  lemma ExpiredRealtimeYields(d: Dialect, quantum: int, w: World, r: nat)
    requires Fits(w) && FirstIn(w.table, Running) == Some(r)
    requires Exhausted(w.table[r].quantumLeft) && w.table[r].kind == Realtime
    ensures var w' := Schedule(d, quantum, w).0;
      && w'.current.Listed?
      && w'.table[w'.current.k].kind == Realtime
      && w'.table[w'.current.k].quantumLeft == Finite(quantum)
      && (w'.current.k != r ==> w'.table[r].state == Ready)
  {
    var w1 := World(w.table[r := w.table[r].(state := Ready)], Nothing);
    assert ReadyRealtime(w1.table[r]);
  }

  /**
   * A selection that is no longer running (its program ended with a
   * terminating or blocking system call) stays selected while nothing is
   * running: no other process is dispatched.
   */
  lemma StaleSelectionStalls(d: Dialect, quantum: int, w: World)
    requires Fits(w) && !w.current.Nothing? && FirstIn(w.table, Running).None?
    requires !Preempts(w)
    ensures Schedule(d, quantum, w) == (w, Returned(w.current))
  {
  }

  /**
   * A selected best-effort process that has exited is made ready again when
   * a real-time process is ready: it will be picked and charged again.
   */
  lemma ExitedBestEffortRevived(d: Dialect, quantum: int, w: World)
    requires Fits(w) && w.current.Listed? && FirstIn(w.table, Running).None?
    requires CurrentRow(w).kind == BestEffort && CurrentRow(w).state == Exit
    requires RealtimeReady(w)
    ensures |Schedule(d, quantum, w).0.table| == |w.table|
    ensures Schedule(d, quantum, w).0.table[w.current.k].state == Ready
  {
    ScheduleFits(d, quantum, w);
    var k := w.current.k;
    var w3 := Preempted(w);
    SameReadyRealtime(w.table, k, w.table[k].(state := Ready));
    assert CheckRunning(w3) == Go(w3) by {
      NoRunningAfterUpdate(w.table, k, w.table[k].(state := Ready));
    }
  }

  lemma NoRunningAfterUpdate(rows: seq<Row>, k: nat, row: Row)
    requires k < |rows| && FirstIn(rows, Running).None? && row.state != Running
    ensures FirstIn(rows[k := row], Running).None?
  {
    FirstUniqueNone(rows[k := row], Running);
  }

  // ---------------------------------------------------------------------
  // The quantum setting

  /**
   * `setQuantum`: Java stores max(1, q); JavaScript reads its argument with
   * `parseInt`, and a result of 0 or NaN (`None`) becomes 2 before the max.
   */
  function QuantumSetting(d: Dialect, q: Option<int>): (r: int)
    requires d == Java ==> q.Some?
    ensures r >= 1
    ensures q.Some? && q.value >= 1 ==> r == q.value
    ensures q.Some? && q.value < 0 ==> r == 1
    ensures q == Some(0) ==> r == (if d == Java then 1 else 2)
    ensures q.None? ==> r == 2
  {
    match q
    case None => 2
    case Some(n) => if d == Js && n == 0 then 2 else if n < 1 then 1 else n
  }

  /** Setting the quantum to what it was set to changes nothing. */
  lemma QuantumSettingIdempotent(d: Dialect, q: Option<int>)
    requires d == Java ==> q.Some?
    ensures QuantumSetting(d, Some(QuantumSetting(d, q))) == QuantumSetting(d, q)
  {
  }

  // ---------------------------------------------------------------------
  // Executing the selected process

  /**
   * What the drivers' system-call handlers do to the calling process:
   * terminate it, block it for a time, or mark its interpreter as waiting
   * for input.
   */
  function Apply(r: Row, action: Option<SyscallAction>, now: int): Row {
    match action
    case None => r
    case Some(Ignore) => r
    case Some(Terminate) => TerminateRow(r)
    case Some(Block(duration)) => BlockRow(r, now, duration)
    case Some(AwaitInput) => r.(cpu := r.cpu.(waitingForInput := true))
  }

  /**
   * `executeCurrentProcess` on the selected process's row: nothing unless
   * it is running; one interpreter step; a fault terminates the process.
   */
  function ExecuteRow(d: Dialect, r: Row, handler: Option<SyscallHandler>, now: int): (Row, bool) {
    if r.state != Running then (r, false)
    else
      match Step(d, r.cpu)
      case Idle(c) => (r.(cpu := c), false)
      case Executed(c, code) => (Apply(r.(cpu := c), Requested(handler, code), now), true)
      case Raised(_) => (TerminateRow(r), false)
  }

  /** An instruction is reported executed exactly when the process was running and the step executed one. */
  lemma ExecuteRowReports(d: Dialect, r: Row, handler: Option<SyscallHandler>, now: int)
    ensures ExecuteRow(d, r, handler, now).1 <==> r.state == Running && Step(d, r.cpu).Executed?
    ensures r.state != Running ==> ExecuteRow(d, r, handler, now).0 == r
  {
  }

  /** A fault ends the process: it exits and its interpreter stops. */
  lemma FaultTerminates(d: Dialect, r: Row, handler: Option<SyscallHandler>, now: int)
    requires r.state == Running && Step(d, r.cpu).Raised?
    ensures ExecuteRow(d, r, handler, now).0.state == Exit
    ensures !ExecuteRow(d, r, handler, now).0.cpu.running
  {
  }

  /**
   * An executed instruction keeps the process's identity and program; the
   * system-call actions have the drivers' effects.
   */
  lemma ExecutedInstruction(d: Dialect, r: Row, handler: Option<SyscallHandler>, now: int)
    requires r.state == Running && Step(d, r.cpu).Executed?
    ensures var r' := ExecuteRow(d, r, handler, now).0;
      && r'.id == r.id && r'.kind == r.kind && r'.priority == r.priority && r'.arrivalTime == r.arrivalTime
      && r'.cpu.code == r.cpu.code && r'.cpu.labels == r.cpu.labels
    ensures var action := Requested(handler, Step(d, r.cpu).syscall);
      var r' := ExecuteRow(d, r, handler, now).0;
      && (action.None? || action == Some(Ignore) ==> r'.state == Running && r'.cpu.running)
      && (action == Some(Terminate) ==> r'.state == Exit && !r'.cpu.running)
      && (action.Some? && action.value.Block? ==>
            r'.state == Blocked && r'.blockEndTime == now + action.value.duration && r'.cpu.blocked)
      && (action == Some(AwaitInput) ==> r'.state == Running && r'.cpu.waitingForInput)
  {
    StepKeepsProgram(d, r.cpu);
  }
}
