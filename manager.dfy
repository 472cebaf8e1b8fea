/**
 * The process table of the Java and JavaScript simulators: creation with
 * increasing ids, queries by state, the clock tick that admits arrivals,
 * wakes sleepers and charges time, and blocking and termination.
 */
module Manager {
  import opened Wrappers
  import opened AsmSyntax
  import opened AsmSemantics
  import opened Interpreter
  import opened Processes

  // ---------------------------------------------------------------------
  // One clock tick on values

  /** A process that has arrived leaves `new`. */
  function Arrive(r: Row, now: int): Row {
    if r.state == New && r.arrivalTime <= now then r.(state := Ready) else r
  }

  /** A blocked process whose time is up becomes ready and its interpreter unblocked. */
  function Wake(r: Row, now: int): Row {
    if r.state == Blocked && r.blockEndTime <= now then r.(state := Ready, cpu := r.cpu.(blocked := false))
    else r
  }

  /** A ready process waits one more unit. */
  function Accrue(r: Row): Row {
    if r.state == Ready then r.(waitingTime := r.waitingTime + 1) else r
  }

  /** The running process is charged a unit and loses a slice of its quantum. */
  function Charge(r: Row): Row {
    r.(executionTime := r.executionTime + 1, quantumLeft := Decrement(r.quantumLeft))
  }

  /** The first three passes of `advanceTime`, which act on each process alone. */
  function Promote(r: Row, now: int): Row {
    Accrue(Wake(Arrive(r, now), now))
  }

  /** Index of the first process in a state (`find`, `findFirst`). */
  function FirstIn(rows: seq<Row>, s: State): (k: Option<nat>)
    ensures k.Some? ==> k.value < |rows| && rows[k.value].state == s
    ensures k.Some? ==> forall j :: 0 <= j < k.value ==> rows[j].state != s
    ensures k.None? ==> forall j :: 0 <= j < |rows| ==> rows[j].state != s
  {
    if rows == [] then None
    else if rows[0].state == s then Some(0)
    else match FirstIn(rows[1..], s) {
      case Some(k) => Some(k + 1)
      case None => None
    }
  }

  /** The per-process passes over the whole table. */
  function PromoteRows(rows: seq<Row>, now: int): (r: seq<Row>)
    ensures |r| == |rows|
    ensures forall i :: 0 <= i < |rows| ==> r[i] == Promote(rows[i], now)
  {
    seq(|rows|, i requires 0 <= i < |rows| => Promote(rows[i], now))
  }

  /** The last pass: only the first running process is charged. */
  function ChargeFirstRunning(rows: seq<Row>): seq<Row> {
    match FirstIn(rows, Running)
    case Some(k) => rows[k := Charge(rows[k])]
    case None => rows
  }

  /** `advanceTime` after `currentTime++`, with `now` the new time. */
  function Tick(rows: seq<Row>, now: int): seq<Row> {
    ChargeFirstRunning(PromoteRows(rows, now))
  }

  /** `blockProcess`: only a running process blocks, until `now + duration`. */
  function BlockRow(r: Row, now: int, duration: int): Row {
    if r.state == Running then
      r.(state := Blocked, blockEndTime := now + duration, cpu := r.cpu.(blocked := true))
    else r
  }

  /** `terminateProcess`: whatever its state, the process exits and its interpreter stops. */
  function TerminateRow(r: Row): Row {
    r.(state := Exit, cpu := r.cpu.(running := false))
  }

  // ---------------------------------------------------------------------
  // What a tick does

  /** Passes two to four never start or stop a process: running and exited ones stay so. */
  lemma PromoteKeepsRunningAndExit(r: Row, now: int)
    ensures Promote(r, now).state == Running <==> r.state == Running
    ensures Promote(r, now).state == Exit <==> r.state == Exit
    ensures r.state == Running ==> Promote(r, now) == r
  {
  }

  /** After a tick nothing that is due is still new or blocked. */
  lemma TickAdmitsWhatIsDue(rows: seq<Row>, now: int, i: int)
    requires 0 <= i < |rows|
    ensures |Tick(rows, now)| == |rows|
    ensures rows[i].state == New && rows[i].arrivalTime <= now ==> Tick(rows, now)[i].state == Ready
    ensures rows[i].state == Blocked && rows[i].blockEndTime <= now ==>
      Tick(rows, now)[i].state == Ready && !Tick(rows, now)[i].cpu.blocked
    ensures Tick(rows, now)[i].state == New ==> rows[i].state == New && rows[i].arrivalTime > now
    ensures Tick(rows, now)[i].state == Blocked ==> rows[i].state == Blocked && rows[i].blockEndTime > now
  {
  }

  /**
   * A tick keeps identities and programs, changes states only by admitting
   * and waking, adds a unit of waiting to every process then ready and a
   * unit of execution to the first running one alone.
   */
  lemma TickAccounting(rows: seq<Row>, now: int, i: int)
    requires 0 <= i < |rows|
    ensures |Tick(rows, now)| == |rows|
    ensures var t := Tick(rows, now)[i];
      && t.id == rows[i].id && t.kind == rows[i].kind && t.priority == rows[i].priority
      && t.arrivalTime == rows[i].arrivalTime && t.blockEndTime == rows[i].blockEndTime
      && t.cpu == rows[i].cpu.(blocked := t.cpu.blocked)
      && (t.state == Running <==> rows[i].state == Running)
      && (t.state == Exit <==> rows[i].state == Exit)
      && t.waitingTime == rows[i].waitingTime + (if t.state == Ready then 1 else 0)
      && t.executionTime == rows[i].executionTime + (if FirstIn(rows, Running) == Some(i) then 1 else 0)
      && t.quantumLeft == (if FirstIn(rows, Running) == Some(i) then Decrement(rows[i].quantumLeft)
                           else rows[i].quantumLeft)
  {
    var promoted := PromoteRows(rows, now);
    forall j | 0 <= j < |rows|
      ensures promoted[j].state == Running <==> rows[j].state == Running
    {
      PromoteKeepsRunningAndExit(rows[j], now);
    }
    SameFirst(rows, promoted, Running);
    PromoteKeepsRunningAndExit(rows[i], now);
  }

  /** Two tables whose entries agree on being in `s` have the same first entry in `s`. */
  lemma {:induction false} SameFirst(a: seq<Row>, b: seq<Row>, s: State)
    requires |a| == |b|
    requires forall j :: 0 <= j < |a| ==> (a[j].state == s <==> b[j].state == s)
    ensures FirstIn(a, s) == FirstIn(b, s)
  {
    if a != [] && a[0].state != s {
      SameFirst(a[1..], b[1..], s);
    }
  }

  predicate AtMostOneRunning(rows: seq<Row>) {
    forall i, j :: 0 <= i < j < |rows| && rows[i].state == Running ==> rows[j].state != Running
  }

  /** A tick never adds a running process. */
  lemma TickKeepsAtMostOneRunning(rows: seq<Row>, now: int)
    requires AtMostOneRunning(rows)
    ensures AtMostOneRunning(Tick(rows, now))
  {
    forall i | 0 <= i < |rows| ensures Tick(rows, now)[i].state == Running <==> rows[i].state == Running {
      TickAccounting(rows, now, i);
    }
  }

  /** A process blocked at `now` for `duration` is ready again at the first tick reaching `now + duration`. */
  lemma BlockedUntilDue(r: Row, now: int, duration: int, later: int)
    requires r.state == Running
    ensures BlockRow(r, now, duration).state == Blocked
    ensures BlockRow(r, now, duration).cpu.blocked
    ensures later < now + duration ==> Promote(BlockRow(r, now, duration), later).state == Blocked
    ensures later >= now + duration ==>
      var w := Promote(BlockRow(r, now, duration), later);
      w.state == Ready && !w.cpu.blocked && w.cpu.running == r.cpu.running
  {
  }

  /** Blocking anything but a running process does nothing; an exited process stays exited. */
  lemma BlockOnlyRunning(r: Row, now: int, duration: int)
    ensures r.state != Running ==> BlockRow(r, now, duration) == r
    ensures TerminateRow(r).state == Exit && !TerminateRow(r).cpu.running
    ensures Promote(TerminateRow(r), now) == TerminateRow(r)
  {
  }

  // ---------------------------------------------------------------------
  // The table object

  function RowsOf(ps: seq<Process>): (rows: seq<Row>)
    reads set p | p in ps, set p | p in ps :: p.interpreter
    ensures |rows| == |ps|
    ensures forall i :: 0 <= i < |ps| ==> rows[i] == ps[i].View()
  {
    if ps == [] then [] else [ps[0].View()] + RowsOf(ps[1..])
  }

  /** `filter(p => p.state === s)`, in table order. */
  function Filter(ps: seq<Process>, s: State): (r: seq<Process>)
    reads set p | p in ps
    ensures forall i :: 0 <= i < |r| ==> r[i] in ps && r[i].state == s
    ensures forall i :: 0 <= i < |ps| && ps[i].state == s ==> ps[i] in r
    ensures |r| <= |ps|
  {
    if ps == [] then []
    else (if ps[0].state == s then [ps[0]] else []) + Filter(ps[1..], s)
  }

  /** Queries list processes in creation order: a process appended to the table comes last. */
  lemma {:induction false} FilterAppend(ps: seq<Process>, p: Process, s: State)
    ensures Filter(ps + [p], s) == Filter(ps, s) + (if p.state == s then [p] else [])
  {
    if ps == [] {
      assert ps + [p] == [p];
    } else {
      assert (ps + [p])[1..] == ps[1..] + [p];
      FilterAppend(ps[1..], p, s);
    }
  }

  /** Every process is listed under exactly one state. */
  lemma {:induction false} FiltersPartition(ps: seq<Process>)
    ensures |Filter(ps, New)| + |Filter(ps, Ready)| + |Filter(ps, Running)|
          + |Filter(ps, Blocked)| + |Filter(ps, Exit)| == |ps|
  {
    if ps != [] {
      FiltersPartition(ps[1..]);
    }
  }

  class ProcessManager {
    const dialect: Dialect
    var processes: seq<Process>
    var nextProcessId: int
    var currentTime: int

    /** Distinct processes with distinct interpreters, and ids increasing below the next one. */
    predicate Valid()
      reads this
    {
      && 1 <= nextProcessId
      && (forall i, j :: 0 <= i < j < |processes| ==>
            && processes[i] != processes[j]
            && processes[i].interpreter != processes[j].interpreter
            && processes[i].id < processes[j].id)
      && (forall i :: 0 <= i < |processes| ==> 1 <= processes[i].id < nextProcessId)
    }

    function Repr(): set<object>
      reads this
    {
      (set p: Process | p in processes :: p as object) + (set p: Process | p in processes :: p.interpreter as object)
    }

    function Rows(): seq<Row>
      reads this, Repr()
    {
      RowsOf(processes)
    }

    constructor(dialect: Dialect)
      ensures Valid() && this.dialect == dialect
      ensures processes == [] && nextProcessId == 1 && currentTime == 0
    {
      this.dialect := dialect;
      processes, nextProcessId, currentTime := [], 1, 0;
    }

    /**
     * `createProcess`: the id is used up even when loading the program
     * throws, and only a process that loaded is added.
     */
    method CreateProcess(name: string, code: string, arrivalTime: int, kind: ProcessClass, priority: int)
      returns (r: Result<Process, Fault>)
      requires Valid()
      modifies this
      ensures Valid()
      ensures nextProcessId == old(nextProcessId) + 1 && currentTime == old(currentTime)
      ensures r.Success? <==> Parse(dialect, code).fault.None?
      ensures r.Success? ==>
        && processes == old(processes) + [r.value]
        && fresh(r.value) && fresh(r.value.interpreter)
        && r.value.View() == Created(dialect, old(nextProcessId), code, arrivalTime, kind, priority)
        && r.value.name == name && r.value.interpreter.handler == None
      ensures r.Failure? ==> processes == old(processes) && r.error == Parse(dialect, code).fault.value
    {
      var id := nextProcessId;
      nextProcessId := nextProcessId + 1;
      r := NewProcess(dialect, id, name, code, arrivalTime, kind, priority);
      if r.Success? {
        processes := processes + [r.value];
      }
    }

    /** `getProcessesByState` (and the ready, blocked and finished shorthands). */
    function ProcessesByState(s: State): (r: seq<Process>)
      reads this, processes
      ensures forall i :: 0 <= i < |r| ==> r[i] in processes && r[i].state == s
      ensures forall i :: 0 <= i < |processes| && processes[i].state == s ==> processes[i] in r
    {
      Filter(processes, s)
    }

    /** `getRunningProcess`: the first running process in the table, if any. */
    function RunningProcess(): (r: Option<Process>)
      reads this, processes
      ensures r.Some? ==> r.value in processes && r.value.state == Running
      ensures r.None? <==> forall i :: 0 <= i < |processes| ==> processes[i].state != Running
    {
      match FirstProcessIndex(processes, Running)
      case Some(k) => Some(processes[k])
      case None => None
    }

    /** `getProcessById`: the process with that id, if any; ids are unique. */
    function ProcessById(id: int): (r: Option<Process>)
      requires Valid()
      reads this
      ensures r.Some? ==> r.value in processes && r.value.id == id
      ensures r.None? <==> forall i :: 0 <= i < |processes| ==> processes[i].id != id
      ensures r.Some? ==> forall i :: 0 <= i < |processes| && processes[i].id == id ==> processes[i] == r.value
    {
      FirstWithId(processes, id)
    }

    /** `advanceTime`: one unit passes. */
    method AdvanceTime()
      requires Valid()
      modifies Repr(), this
      ensures Valid() && processes == old(processes) && nextProcessId == old(nextProcessId)
      ensures currentTime == old(currentTime) + 1
      ensures Rows() == Tick(old(Rows()), currentTime)
    {
      currentTime := currentTime + 1;
      PromoteAll();
      ChargeRunning();
    }

    /** Arrivals, wake-ups and waiting time, each process on its own. */
    method PromoteAll()
      requires Valid()
      modifies Repr()
      ensures Rows() == PromoteRows(old(Rows()), currentTime)
    {
      ghost var before := Rows();
      var i := 0;
      while i < |processes|
        invariant 0 <= i <= |processes| == |before|
        invariant forall j :: 0 <= j < i ==> processes[j].View() == Promote(before[j], currentTime)
        invariant forall j :: i <= j < |processes| ==> processes[j].View() == before[j]
      {
        assert processes[i] as object in Repr() && processes[i].interpreter as object in Repr();
        PromoteAt(i);
        i := i + 1;
      }
      assert forall j :: 0 <= j < |processes| ==> Rows()[j] == PromoteRows(before, currentTime)[j];
    }

    /** `PromoteOne` on the i-th process, which leaves the others alone. */
    method PromoteAt(i: nat)
      requires Valid() && i < |processes|
      modifies processes[i], processes[i].interpreter
      ensures processes[i].View() == Promote(old(processes[i].View()), currentTime)
      ensures forall j :: 0 <= j < |processes| && j != i ==> processes[j].View() == old(processes[j].View())
    {
      PromoteOne(processes[i]);
      forall j | 0 <= j < |processes| && j != i
        ensures processes[j].View() == old(processes[j].View())
      {
        assert processes[j] != processes[i] && processes[j].interpreter != processes[i].interpreter;
      }
    }

    /** The first running process gets a unit of execution and loses a slice. */
    method ChargeRunning()
      requires Valid()
      modifies Repr()
      ensures Rows() == ChargeFirstRunning(old(Rows()))
    {
      ghost var before := Rows();
      var running := FirstProcessIndex(processes, Running);
      SameFirstIndex(processes, Running);
      if running.Some? {
        var k := running.value;
        assert processes[k] as object in Repr();
        ChargeAt(k);
        assert forall j :: 0 <= j < |processes| ==> Rows()[j] == before[k := Charge(before[k])][j];
      }
    }

    /** One unit of execution and one slice less for the k-th process, which leaves the others alone. */
    method ChargeAt(k: nat)
      requires Valid() && k < |processes|
      modifies processes[k]
      ensures processes[k].View() == Charge(old(processes[k].View()))
      ensures forall j :: 0 <= j < |processes| && j != k ==> processes[j].View() == old(processes[j].View())
    {
      var p := processes[k];
      p.IncrementExecutionTime();
      p.DecrementQuantumLeft();
      forall j | 0 <= j < |processes| && j != k
        ensures processes[j].View() == old(processes[j].View())
      {
        assert processes[j] != p;
      }
    }

    /** The per-process passes of `advanceTime` on one process. */
    method PromoteOne(p: Process)
      modifies p, p.interpreter
      ensures p.View() == Promote(old(p.View()), currentTime)
      ensures p.interpreter.handler == old(p.interpreter.handler)
    {
      if p.state == New && p.arrivalTime <= currentTime {
        p.state := Ready;
      }
      if p.state == Blocked && p.blockEndTime <= currentTime {
        p.state := Ready;
        p.interpreter.blocked := false;
      }
      if p.state == Ready {
        p.IncrementWaitingTime();
      }
    }

    /** `blockProcess`. */
    method BlockProcess(p: Process?, duration: int)
      modifies if p != null then {p, p.interpreter} else {}
      ensures p != null ==> p.View() == BlockRow(old(p.View()), currentTime, duration)
      ensures p != null ==> p.interpreter.handler == old(p.interpreter.handler)
    {
      if p != null && p.state == Running {
        p.state := Blocked;
        p.interpreter.blocked := true;
        p.blockEndTime := currentTime + duration;
      }
    }

    /** `terminateProcess`. */
    method TerminateProcess(p: Process?)
      modifies if p != null then {p, p.interpreter} else {}
      ensures p != null ==> p.View() == TerminateRow(old(p.View()))
      ensures p != null ==> p.interpreter.handler == old(p.interpreter.handler)
    {
      if p != null {
        p.state := Exit;
        p.interpreter.running := false;
      }
    }

    /** `reset`: an empty table, ids from 1 again, time 0. */
    method Reset()
      modifies this
      ensures Valid() && processes == [] && nextProcessId == 1 && currentTime == 0
    {
      processes, nextProcessId, currentTime := [], 1, 0;
    }
  }

  /** Where `find(p => p.state === s)` stops. */
  function FirstProcessIndex(ps: seq<Process>, s: State): (k: Option<nat>)
    reads set p | p in ps
    ensures k.Some? ==> k.value < |ps| && ps[k.value].state == s
    ensures k.Some? ==> forall j :: 0 <= j < k.value ==> ps[j].state != s
    ensures k.None? ==> forall j :: 0 <= j < |ps| ==> ps[j].state != s
  {
    if ps == [] then None
    else if ps[0].state == s then Some(0)
    else match FirstProcessIndex(ps[1..], s) {
      case Some(k) => Some(k + 1)
      case None => None
    }
  }

  /** `find(p => p.id === id)`. */
  function FirstWithId(ps: seq<Process>, id: int): (r: Option<Process>)
    ensures r.Some? ==> r.value in ps && r.value.id == id
    ensures r.Some? ==> exists k :: 0 <= k < |ps| && ps[k] == r.value && forall j :: 0 <= j < k ==> ps[j].id != id
    ensures r.None? <==> forall i :: 0 <= i < |ps| ==> ps[i].id != id
  {
    if ps == [] then None
    else if ps[0].id == id then Some(ps[0])
    else FirstWithId(ps[1..], id)
  }

  /** The first process in a state is the first row in that state. */
  lemma SameFirstIndex(ps: seq<Process>, s: State)
    ensures FirstProcessIndex(ps, s) == FirstIn(RowsOf(ps), s)
  {
    var k := FirstProcessIndex(ps, s);
    var rows := RowsOf(ps);
    if k.Some? {
      FirstUnique(rows, s, k.value);
    } else {
      FirstUniqueNone(rows, s);
    }
  }

  /** `FirstIn` is the one index in `s` that no earlier index is in. */
  lemma FirstUnique(rows: seq<Row>, s: State, k: nat)
    requires k < |rows| && rows[k].state == s
    requires forall j :: 0 <= j < k ==> rows[j].state != s
    ensures FirstIn(rows, s) == Some(k)
  {
  }

  lemma FirstUniqueNone(rows: seq<Row>, s: State)
    requires forall j :: 0 <= j < |rows| ==> rows[j].state != s
    ensures FirstIn(rows, s) == None
  {
  }
}
