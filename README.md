# Process-scheduling simulator, modelled in Dafny

This project models the core of a discrete-time process-scheduling simulator for
a toy assembly language. The simulator exists in three implementations, and all
three are modelled:

- `src/` (Java) is the primary version.
- `js/` is a near line-for-line port of it.
- `simulador.c` is an independent C version with its own design.

**The assembly interpreter** (`AssemblyInterpreter`):

- It reads a program with a `.data` section (`name value` lines) and a `.code`
  section (instructions, optionally behind a `label:`).
- It runs one instruction at a time on an accumulator `acc` and a program
  counter `pc`. The instructions are ADD, SUB, MULT, DIV, LOAD, STORE, BRANY,
  BRPOS, BRZERO, BRNEG and SYSCALL.
- Errors are exceptions.

The parser and the one-step semantics are pure functions:

- `AsmSyntax.Parse` builds the program.
- `AsmSemantics.Step` returns `Idle`, `Executed` or `Raised(fault)`.

The class `Interpreter.AssemblyInterpreter` keeps the Java fields and updates
them in place. Each of its methods is proved to agree with those functions.

**The process table** (`Process`, `ProcessManager`):

- `Processes.Process` is the process record with its counters.
  `SaveState`/`RestoreState` copy the interpreter registers to and from a
  `SavedState` value.
- `Manager.ProcessManager` keeps the processes in creation order, the next id and
  the clock.
- `AdvanceTime` is proved to turn the table's rows into `Manager.Tick` of the old
  rows: promotions, then waiting and execution accounting.

**The scheduler** (`ProcessScheduler`):

- It picks ready realtime processes by (priority, arrival) with a quantum, and
  ready best-effort processes by arrival with an unbounded quantum.
- It preempts a best-effort selection, through a recursive reschedule, whenever
  a realtime process is ready.
- `Scheduling.Schedule` is the value-level definition, written over a `World`:
  the table's rows plus the current selection.
- `Scheduler.ProcessScheduler.Schedule` is the in-place method, proved equal to
  it, recursion included.
- `ExecuteCurrentProcess` turns any fault of the step into termination of the
  selected process.

**The JS port** is the same model under `Dialect.Js`. Where the port differs, the
model follows each version's own code:

- DIV floors instead of truncating toward zero.
- A label line keeps only the text between its first and second `:`.
- `setQuantum` maps 0 and non-numbers to 2.
- `schedule` returns `undefined` while the running process waits for input.
- A branch without an operand looks up the label `"null"`.

**The C simulator** (`simulador.c`):

- `CQueue.Queue` is the linked list of PCBs, with a ghost spine.
- `CLoader` is the three-pass loader of `carregar_programa`, over the lines of
  the file. `CSimulator.Simulator.LoadProgram` is the whole `carregar_programa`.
- `CProcess.Pcb` is a PCB with its data memory as an `array`.
- `CProcess.Step` is `executar_instrucao`.
- `CSimulator.Simulator` holds the global queues and runs one turn of
  `ciclo_simulador`. A turn has six phases: admission, unblocking, preemption,
  retiring the running process, dispatch and execution; then the clock
  advances and the stop criterion is evaluated.
- Each phase is a method whose contract has two parts. The lists become a
  value function of the old lists (`Admit`, `Wake`, `Preempt`, `Retire`,
  `Dispatch`), and a per-process clause says what happens to each PCB's
  registers, memory and quantum.
- `Cycle` composes the phases. Its lists become `Turn` of the old lists, and
  the lemmas show that a turn neither loses nor duplicates a process.
- Per process, `Cycle` states the following:
  - the process on the CPU at the end executed one `CProcess.Step`
    (`Executed`);
  - every other process only changed state, counted down if it was blocked,
    and was refilled if it was the realtime process whose quantum ran out
    (`Waited`);
  - the clock went up by one, and `active` is the stop criterion.
- These per-process clauses rely on an invariant of the lists: no two PCBs
  share a pid or a memory (`WellFormed`). In C the memory is an array inside
  the PCB, so this holds by construction.

Nothing here is executed. The syscall handler of the drivers is a parameter:
`SyscallHandler = int -> SyscallAction`. The C simulator's console input and
random block time are also parameters: `input` and `blockTime`.

## Model

| member | source | states |
|---|---|---|
| `Text.Trim` | src/AssemblyInterpreter.java:47 | The result has no blank at either end and is no longer than the input; `TrimKeepsMiddle` states which characters it keeps. |
| `Text.TrimKeepsMiddle` | src/AssemblyInterpreter.java:47 | Trimming keeps exactly the part of the input between its leading and trailing runs of blanks, character for character. |
| `Text.TrimIdempotent` | src/AssemblyInterpreter.java:47 | Trimming twice is trimming once, so a kept line is already trimmed. |
| `Text.JoinSplitOn` | src/AssemblyInterpreter.java:42 | Splitting on `\n` and joining back with `\n` returns the text, so no character of the program is lost by the split. |
| `Text.SplitOnJoin` | src/AssemblyInterpreter.java:42 | Joining separator-free parts and splitting again returns exactly those parts. |
| `Text.TokensOfJoin` | src/AssemblyInterpreter.java:134 | Splitting on whitespace recovers the non-empty words that were joined by a whitespace character. |
| `Text.ParseIntOfString` | src/AssemblyInterpreter.java:95 | The decimal parser reads back every integer's decimal form, including negatives. |
| `Text.UpperForgetsCase` | src/AssemblyInterpreter.java:135 | Upper-casing discards case: upper-casing a lower-cased or an upper-cased word gives the same as upper-casing it once. |
| `Isa.DecodeMnemonic` | src/AssemblyInterpreter.java:138-218 | Each of the eleven mnemonics decodes to its own opcode. |
| `Isa.DecodedWordIsMnemonic` | src/AssemblyInterpreter.java:217-218 | A word that decodes to a real opcode is that opcode's mnemonic up to case; every other word is unknown. |
| `Isa.DecodeIgnoresCase` | src/AssemblyInterpreter.java:135 | Opcode decoding gives the same result for a word and for its lower- or upper-cased form. |
| `Isa.TruncDiv` | src/AssemblyInterpreter.java:156 | The quotient leaves a remainder smaller than the divisor whose sign is the dividend's, which is Java's truncating division. |
| `Isa.FloorDiv` | js/assemblyInterpreter.js:128 | The quotient leaves a remainder smaller than the divisor whose sign is the divisor's, which is `Math.floor(a / b)`. |
| `Isa.FloorVersusTrunc` | js/assemblyInterpreter.js:128 | The floor quotient is one less than the truncated one exactly when the division is inexact and the operands differ in sign. |
| `AsmSyntax.KeptLinesComplete` | src/AssemblyInterpreter.java:46-51 | Every raw line whose trimmed form is non-empty and does not start with `#` is kept, trimmed. |
| `AsmSyntax.KeptLinesSound` | src/AssemblyInterpreter.java:46-51 | Every kept line is the trimmed form of some raw line. |
| `AsmSyntax.SplitLabel` | src/AssemblyInterpreter.java:77-79 | Both the label and the instruction of a label line come out trimmed. |
| `AsmSyntax.SplitLabelSingleColon` | js/assemblyInterpreter.js:52 | On a line with a single `:`, the Java and JS label splits agree. |
| `AsmSyntax.SplitLabelSecondColon` | js/assemblyInterpreter.js:52 | With a second `:`, JS keeps only the text up to it, while Java keeps everything after the first `:`. |
| `AsmSyntax.MarkersBuildNothing` | src/AssemblyInterpreter.java:57-72 | A section marker, in any letter case, never fails and adds no instruction, label or data. |
| `AsmSyntax.LabelNamesNextIndex` | src/AssemblyInterpreter.java:76-90 | A label maps to the number of instructions emitted so far; its instruction is appended only when non-empty. |
| `AsmSyntax.DataLineBinds` | src/AssemblyInterpreter.java:91-98 | A data line with two or more words binds the first to the parsed second and keeps the code; a shorter line changes nothing. |
| `AsmSyntax.CodeLineKeepsWellFormed` | src/AssemblyInterpreter.java:74-90 | A code line only extends the instruction list and keeps every label within `0..|code|` and every instruction trimmed and non-empty. |
| `AsmSyntax.DataLineKeepsCode` | src/AssemblyInterpreter.java:91-98 | A data line never touches the instructions or the labels. |
| `AsmSyntax.ParseLineKeepsWellFormed` | src/AssemblyInterpreter.java:57-98 | Any one source line keeps the image well formed and only extends the instruction list. |
| `AsmSyntax.ParseFromWellFormed` | src/AssemblyInterpreter.java:57-99 | Parsing any sequence of source lines keeps the image well formed. |
| `AsmSyntax.ParseWellFormed` | src/AssemblyInterpreter.java:39-103 | Every label of a parsed program names an instruction index or the end of the code, and every instruction is a trimmed non-empty line. |
| `AsmSemantics.IdleWhenHeld` | src/AssemblyInterpreter.java:124-126 | When not running, blocked or waiting for input, a step does nothing. |
| `AsmSemantics.StopsPastEnd` | src/AssemblyInterpreter.java:128-131 | At or past the end of the code a step only clears `running`. |
| `AsmSemantics.BranchPreserves` | src/AssemblyInterpreter.java:170-209 | A successful branch keeps the program and the flags, and sets pc to pc+1 or to a label's index. |
| `AsmSemantics.ArithmeticPreserves` | src/AssemblyInterpreter.java:139-162 | A successful ADD/SUB/MULT/DIV/LOAD changes only `acc` and advances pc by one: program, flags and every data value are kept. |
| `AsmSemantics.StorePreserves` | src/AssemblyInterpreter.java:163-169 | A successful STORE keeps program and flags, only adds to the data names and advances pc by one. |
| `AsmSemantics.SyscallPreserves` | src/AssemblyInterpreter.java:210-216 | A successful SYSCALL is the old state with pc advanced by one: `acc` and every data value are kept. |
| `AsmSemantics.ExecutePreserves` | src/AssemblyInterpreter.java:138-219 | Every instruction that executes keeps the program and the flags, and every non-branch advances pc by one. |
| `AsmSemantics.StepKeepsProgram` | src/AssemblyInterpreter.java:123-222 | A step that executes leaves code, labels and flags alone, and moves pc to pc+1 or to a label. |
| `AsmSemantics.StepKeepsPcInRange` | src/AssemblyInterpreter.java:123-222 | A step keeps pc within `0..|code|` unless it raises. |
| `AsmSemantics.LoadedPcInRange` | src/AssemblyInterpreter.java:39-103 | A freshly loaded program starts with pc in range. |
| `AsmSemantics.ImmediateResolves` | src/AssemblyInterpreter.java:110-112 | The operand `#n` resolves to n. |
| `AsmSemantics.UnsetNameFails` | src/AssemblyInterpreter.java:115-119 | A name missing from the data raises an undefined-variable fault. |
| `AsmSemantics.StoreThenResolve` | src/AssemblyInterpreter.java:163-169 | After `STORE x`, resolving `x` yields the stored accumulator. |
| `AsmSemantics.DivByZeroRaises` | src/AssemblyInterpreter.java:151-155 | DIV by a zero operand raises, so acc and pc stay as they were. |
| `AsmSemantics.StoreImmediateRaises` | src/AssemblyInterpreter.java:164-166 | STORE with a `#` operand raises. |
| `AsmSemantics.UntakenBranchFallsThrough` | src/AssemblyInterpreter.java:177-209 | A conditional branch whose condition fails goes to pc+1 without looking at its label. |
| `AsmSemantics.TakenBranchNeedsLabel` | src/AssemblyInterpreter.java:170-209 | A taken branch jumps to its label's index, or raises when the label is undefined. |
| `AsmSemantics.DialectsAgree` | js/assemblyInterpreter.js:95-194 | The Java and JS steps are equal unless the instruction is an inexact DIV with operands of opposite signs, or a branch without an operand in a program that defines a label `null`. |
| `AsmSemantics.DialectsDisagreeOnDiv` | js/assemblyInterpreter.js:128 | On such a DIV, the JS accumulator is one below Java's. |
| `AsmSemantics.InputOnlyWhileWaiting` | src/AssemblyInterpreter.java:224-240 | Input is ignored unless the process waits for it; otherwise it sets acc, clears the wait and leaves pc alone. |
| `AsmSemantics.StraightLineStops` | src/AssemblyInterpreter.java:123-131 | Code without branches stops, or raises, within its length plus one steps. |
| `Interpreter.KeepSourceLines` | src/AssemblyInterpreter.java:42-51 | The loop keeps exactly the trimmed, non-empty, non-comment lines in order. |
| `Interpreter.AssemblyInterpreter.constructor` | src/AssemblyInterpreter.java:22-37 | A new interpreter is in the initial state with no handler. |
| `Interpreter.AssemblyInterpreter.Reset` | src/AssemblyInterpreter.java:26-37 | Resetting restores the initial state and drops the handler. |
| `Interpreter.AssemblyInterpreter.ParseProgram` | src/AssemblyInterpreter.java:39-103 | The fields become the parsed program, running iff no number failed to parse, and the parser's fault is reported. |
| `Interpreter.AssemblyInterpreter.ParseLineInPlace` | src/AssemblyInterpreter.java:57-98 | One loop iteration updates the section flags and tables as the line parser does, and changes nothing on a fault. |
| `Interpreter.AssemblyInterpreter.CodeLineInPlace` | src/AssemblyInterpreter.java:74-90 | A code line updates code and labels as `CodeLine` defines. |
| `Interpreter.AssemblyInterpreter.DataLineInPlace` | src/AssemblyInterpreter.java:91-98 | A data line updates the data as `DataLine` defines, or reports the number-format fault and changes nothing. |
| `Interpreter.AssemblyInterpreter.SetSystemCallHandler` | src/AssemblyInterpreter.java:105-107 | Installs the handler and changes no register. |
| `Interpreter.AssemblyInterpreter.ResolveOperand` | src/AssemblyInterpreter.java:109-121 | Returns the operand's value, or the fault, that `Resolve` defines. |
| `Interpreter.AssemblyInterpreter.ExecuteInstruction` | src/AssemblyInterpreter.java:123-222 | Returns false, true or the fault exactly as `Step` is idle, executes or raises; the registers change only on success, and the handler is asked for a SYSCALL's code. |
| `Interpreter.AssemblyInterpreter.Perform` | src/AssemblyInterpreter.java:138-219 | The switch leaves the registers as `Execute` defines, or unchanged on a fault. |
| `Interpreter.AssemblyInterpreter.Arithmetic` | src/AssemblyInterpreter.java:139-162 | ADD/SUB/MULT/DIV/LOAD in place agree with `AsmSemantics.Arithmetic`. |
| `Interpreter.AssemblyInterpreter.Store` | src/AssemblyInterpreter.java:163-169 | STORE in place agrees with `StoreTo`. |
| `Interpreter.AssemblyInterpreter.Branch` | src/AssemblyInterpreter.java:170-209 | The four branches in place agree with `AsmSemantics.Branch`. |
| `Interpreter.AssemblyInterpreter.SystemCall` | src/AssemblyInterpreter.java:210-216 | SYSCALL in place advances pc and reports the parsed code, or the number-format fault. |
| `Interpreter.AssemblyInterpreter.HandleInput` | src/AssemblyInterpreter.java:224-240 | Input is taken only while waiting; "0101" also calls the handler with -1, and a non-number faults without a change. |
| `Processes.Decrement` | src/Process.java:125-127 | A finite quantum strictly decreases; the unbounded quantum stays unbounded. |
| `Processes.DecrementsExhaust` | src/Process.java:125-127 | A quantum of k is exhausted after exactly k decrements and not before. |
| `Processes.IterateFinite` | src/Process.java:125-127 | j decrements of a finite quantum k leave k - j. |
| `Processes.UnboundedNeverExhausted` | src/ProcessScheduler.java:66 | The best-effort quantum never runs out. |
| `Processes.RestoreSnapshot` | src/Process.java:33-54 | Restoring a saved state onto the interpreter it came from changes nothing. |
| `Processes.SnapshotRestore` | src/Process.java:33-54 | Saving right after restoring gives back the restored state, and the program stays as it was. |
| `Processes.SnapshotDetermines` | src/Process.java:33-43 | Two interpreters with the same program and the same saved state are equal, so the saved state captures all the registers. |
| `Processes.Process.constructor` | src/Process.java:17-31 | A new process is `new` with blockEndTime, quantumLeft, executionTime and waitingTime all 0. |
| `Processes.Process.IncrementExecutionTime` | src/Process.java:113-115 | Adds exactly one to executionTime and changes nothing else. |
| `Processes.Process.IncrementWaitingTime` | src/Process.java:121-123 | Adds exactly one to waitingTime and changes nothing else. |
| `Processes.Process.DecrementQuantumLeft` | src/Process.java:125-127 | Decrements quantumLeft and changes nothing else. |
| `Processes.Process.SaveState` | src/Process.java:33-43 | Returns a value copy of the registers, which later steps cannot alter. |
| `Processes.Process.RestoreState` | src/Process.java:46-54 | Overwrites the saved registers, as `Restore` defines, and keeps the program and the handler. |
| `Processes.NewProcess` | src/Process.java:17-31 | A process is created iff its program parses; it then is the fresh `new` process that `Created` describes, and otherwise the parse fault is reported. |
| `Manager.FirstIn` | src/ProcessManager.java:34-39 | Finds the first row in the given state, or shows there is none. |
| `Manager.PromoteRows` | src/ProcessManager.java:64-79 | Promotes each row on its own: arrival, unblocking and waiting time. |
| `Manager.PromoteKeepsRunningAndExit` | src/ProcessManager.java:64-79 | Promotion never starts or stops a running or exited process. |
| `Manager.TickAdmitsWhatIsDue` | src/ProcessManager.java:60-76 | A due `new` or `blocked` process becomes `ready` (unblocked), and only an undue one stays `new` or `blocked`. |
| `Manager.TickAccounting` | src/ProcessManager.java:60-87 | Each `ready` process waits one unit more; the first running process runs one more unit with one less quantum; nothing else changes. |
| `Manager.SameFirst` | src/ProcessManager.java:34-39 | The first running process only depends on which rows are running. |
| `Manager.TickKeepsAtMostOneRunning` | src/ProcessManager.java:60-87 | A tick never makes a second process run. |
| `Manager.BlockedUntilDue` | src/ProcessManager.java:89-95 | A blocked process stays blocked until `currentTime + duration` and is then woken, with its interpreter unblocked. |
| `Manager.BlockOnlyRunning` | src/ProcessManager.java:89-102 | Blocking affects only a running process; termination always exits and stops the interpreter, and an exited process stays exited. |
| `Manager.RowsOf` | src/ProcessManager.java:6 | The table's rows are the processes' views, in order. |
| `Manager.Filter` | src/ProcessManager.java:22-51 | Lists exactly the processes in the given state. |
| `Manager.FilterAppend` | src/ProcessManager.java:16-26 | State queries list processes in creation order: an appended process comes last. |
| `Manager.FiltersPartition` | src/ProcessManager.java:22-51 | Every process appears under exactly one state. |
| `Manager.ProcessManager.constructor` | src/ProcessManager.java:10-14 | A new table is empty, with next id 1 and time 0. |
| `Manager.ProcessManager.CreateProcess` | src/ProcessManager.java:16-20 | Uses the next id, which then goes up by one even on failure, and appends the new process iff its program parses; ids keep increasing along the table and stay below the next id. |
| `Manager.ProcessManager.ProcessesByState` | src/ProcessManager.java:22-32 | Returns exactly the processes in the given state. |
| `Manager.ProcessManager.RunningProcess` | src/ProcessManager.java:34-39 | Returns a running process, or none iff no process runs. |
| `Manager.ProcessManager.ProcessById` | src/ProcessManager.java:53-58 | Returns the process with that id, or none iff there is none. |
| `Manager.ProcessManager.AdvanceTime` | src/ProcessManager.java:60-87 | The clock goes up by exactly one and the rows become `Tick` of the old rows at the new time. |
| `Manager.ProcessManager.PromoteAll` | src/ProcessManager.java:64-79 | The promotion loops turn the rows into `PromoteRows`. |
| `Manager.ProcessManager.PromoteAt` | src/ProcessManager.java:64-79 | Promotes one process and leaves all others alone. |
| `Manager.ProcessManager.ChargeRunning` | src/ProcessManager.java:82-86 | Charges the first running process, if any. |
| `Manager.ProcessManager.ChargeAt` | src/ProcessManager.java:84-85 | Charges one process and leaves all others alone. |
| `Manager.ProcessManager.PromoteOne` | src/ProcessManager.java:64-79 | Promotes one process in place. |
| `Manager.ProcessManager.BlockProcess` | src/ProcessManager.java:89-95 | A running process becomes blocked until `currentTime + duration`; any other is untouched. |
| `Manager.ProcessManager.TerminateProcess` | src/ProcessManager.java:97-102 | Any given process exits and its interpreter stops. |
| `Manager.ProcessManager.Reset` | src/ProcessManager.java:104-108 | Empties the table, with next id 1 and time 0. |
| `Manager.FirstProcessIndex` | src/ProcessManager.java:34-39 | The index of the first process in the state, or none. |
| `Manager.FirstWithId` | src/ProcessManager.java:53-58 | The first process in the list with the id (none before it has that id), or none iff there is none. |
| `Manager.SameFirstIndex` | src/ProcessManager.java:34-39 | The first running process of the objects is the first running row. |
| `Scheduling.UpdateCurrent` | src/ProcessScheduler.java:53-54 | Updating the selected row changes exactly that row: the table keeps its length and every other row, and the selection keeps its kind and, when listed, its index. |
| `Scheduling.PickRealtime` | src/ProcessScheduler.java:43-52 | Finds a ready realtime process, or none iff none is ready. |
| `Scheduling.PickBestEffort` | src/ProcessScheduler.java:57-63 | Finds a ready best-effort process, or none iff none is ready. |
| `Scheduling.PickRealtimeIsStableHead` | src/ProcessScheduler.java:43-52 | The pick has minimal (priority, arrival) and comes first in the table among equals, as a stable sort's head does. |
| `Scheduling.PickBestEffortIsStableHead` | src/ProcessScheduler.java:57-63 | The pick has minimal arrival and comes first in the table among equals. |
| `Scheduling.CheckRunningFits` | src/ProcessScheduler.java:21-38 | Checking the running process keeps the selection valid. |
| `Scheduling.PreemptionNeedsSelection` | src/ProcessScheduler.java:72-83 | Preemption only happens to a selection kept from before while a realtime process is ready, and it leaves a realtime process to pick. |
| `Scheduling.SameReadyRealtime` | src/ProcessScheduler.java:73-74 | Changing a row that is not a ready realtime process into another such row does not change whether one is ready. |
| `Scheduling.ScheduleFits` | src/ProcessScheduler.java:19-86 | Scheduling keeps the table's size and leaves a valid selection. |
| `Scheduling.RealtimeBeforeBestEffort` | src/ProcessScheduler.java:72-83 | On return a best-effort selection never coexists with a ready realtime process, unless the running process was waiting for input. |
| `Scheduling.DialectsScheduleAlike` | js/processScheduler.js:12-82 | Java and JS reach the same state; JS answers `undefined` exactly when the running process waits for input, when Java returns it. |
| `Scheduling.SelectsRealtime` | src/ProcessScheduler.java:41-54 | With no selection, the best ready realtime process runs with the configured quantum. |
| `Scheduling.SelectsBestEffort` | src/ProcessScheduler.java:56-67 | Otherwise the earliest ready best-effort process runs with an unbounded quantum. |
| `Scheduling.HoldsWhileWaiting` | src/ProcessScheduler.java:31-33 | A running process waiting for input (quantum not expired) is returned with no change. |
| `Scheduling.ExpiredRealtimeYields` | src/ProcessScheduler.java:26-29 | A realtime process whose quantum ran out goes back to ready, and a realtime process is then selected with a fresh quantum. |
| `Scheduling.StaleSelectionStalls` | src/ProcessScheduler.java:34-41 | A kept selection that no longer runs (exited or blocked by a syscall) is returned unchanged: nothing else is picked. |
| `Scheduling.ExitedBestEffortRevived` | src/ProcessScheduler.java:72-79 | A stale best-effort selection that exited is set back to ready when a realtime process is ready. |
| `Scheduling.NoRunningAfterUpdate` | src/ProcessScheduler.java:21-24 | Changing a row to a non-running one cannot create a running process. |
| `Scheduling.QuantumSetting` | src/ProcessScheduler.java:15-17 | The quantum is always at least one: Java keeps q >= 1 and maps the rest to 1; JS maps 0 or a non-number to 2. |
| `Scheduling.QuantumSettingIdempotent` | js/processScheduler.js:8-10 | Setting the quantum to its own value changes nothing. |
| `Scheduling.ExecuteRowReports` | src/ProcessScheduler.java:88-94 | Execution reports true iff the selection runs and its step executes; otherwise a non-running process is untouched. |
| `Scheduling.FaultTerminates` | src/ProcessScheduler.java:95-99 | A fault in the step terminates that process. |
| `Scheduling.ExecutedInstruction` | src/ProcessScheduler.java:93-94 | An executed step keeps the process's identity and program, and applies the handler's action: ignore, terminate, block until now+d, or wait for input. |
| `Scheduler.Position` | src/ProcessScheduler.java:7 | Locates the selected object in the table, or shows it is not there. |
| `Scheduler.PositionOfListed` | src/ProcessScheduler.java:7 | In a table of distinct objects, the object at k is found at k. |
| `Scheduler.Assign` | src/ProcessScheduler.java:53-54 | Setting state and quantum of one process changes exactly its row. |
| `Scheduler.ProcessScheduler.constructor` | src/ProcessScheduler.java:9-13 | The quantum starts at 2 with no selection. |
| `Scheduler.ProcessScheduler.SetQuantum` | src/ProcessScheduler.java:15-17 | Stores `QuantumSetting` of the argument and keeps the selection. |
| `Scheduler.ProcessScheduler.CaptureFits` | src/ProcessScheduler.java:7 | The captured world's selection is the current process and its row is that process's. |
| `Scheduler.ProcessScheduler.Schedule` | src/ProcessScheduler.java:19-86 | The table and selection become `Scheduling.Schedule` of the old ones, and the answer is its reply. |
| `Scheduler.ProcessScheduler.SelectAndPreempt` | src/ProcessScheduler.java:41-85 | Selection then the preemption check agree with `Scheduling.Schedule`. |
| `Scheduler.ProcessScheduler.Reschedule` | src/ProcessScheduler.java:76-82 | Preempting and recursing agree with `Scheduling.Schedule`. |
| `Scheduler.ProcessScheduler.ExecuteCurrentProcess` | src/ProcessScheduler.java:88-100 | Without a selection nothing executes; otherwise the selected process becomes `ExecuteRow` of its old row. |
| `Scheduler.ProcessScheduler.CheckRunningStep` | src/ProcessScheduler.java:21-38 | Either holds for input with no change, or moves to the world `CheckRunning` defines. |
| `Scheduler.ProcessScheduler.SelectStep` | src/ProcessScheduler.java:41-69 | Moves to the world `SelectNext` defines. |
| `Scheduler.ProcessScheduler.Dispatch` | src/ProcessScheduler.java:52-54 | The chosen process runs with the given quantum and becomes the selection. |
| `Scheduler.ProcessScheduler.Expire` | src/ProcessScheduler.java:26-29 | The expired process is ready and the selection is cleared. |
| `Scheduler.ProcessScheduler.PreemptStep` | src/ProcessScheduler.java:76-79 | The selection goes back to ready and is cleared. |
| `CLoader.LeadingDigits` | simulador.c:348 | The longest prefix of digits, as `atoi` reads. |
| `CLoader.LeadingDigitsOfDigits` | simulador.c:348 | A string of digits is read whole. |
| `CLoader.AtoiAgreesWithParseInt` | simulador.c:348 | On a well-formed decimal, `atoi` gives the same value as the Java and JS parsers. |
| `CLoader.AtoiWithoutDigits` | simulador.c:332 | A word that starts with neither a blank, a sign nor a digit reads as 0, so `SYSCALL abc` gets code 0. |
| `CLoader.AtoiSkipsBlank` | simulador.c:332 | `atoi` skips a leading `isspace` blank, `'\v'` and `'\f'` included, which `strtok` leaves inside a token: `SYSCALL \f2` has code 2. |
| `CLoader.StringToOpcode` | simulador.c:173-194 | The loop upper-cases and decodes exactly as `DecodeOpcode`, so case is ignored and unknown words give INVALIDO. |
| `CLoader.FirstNamed` | simulador.c:202-224 | The index of the first binding with the name, or none iff there is none. |
| `CLoader.ResolveName` | simulador.c:202-209 | The loop returns `Lookup`: the first match's index or -1. |
| `CLoader.LookupFindsFirst` | simulador.c:217-224 | `Lookup` is -1 iff no binding has the name, and otherwise the first match's index. |
| `CLoader.Assemble` | simulador.c:318-341 | An assembled instruction keeps its opcode and is not yet resolved; its operand kind is immediate exactly when it has no operand word, so a `#` word, which the loader takes for a comment, also gives an immediate. |
| `CLoader.ResolveAll` | simulador.c:356-373 | Resolution keeps the number of instructions. |
| `CLoader.AssembleLineKeeps` | simulador.c:294-352 | One line of the second pass keeps the variable table numbered and the values in step. |
| `CLoader.AssembleFromKeeps` | simulador.c:294-352 | The whole second pass keeps that invariant. |
| `CLoader.ScanAssembleLine` | simulador.c:267-288 | The first pass counts a line exactly when the second pass emits an instruction for it. |
| `CLoader.ScanLineBelow` | simulador.c:276-287 | Every label recorded by the first pass is at most its instruction count. |
| `CLoader.ScanAssembleFrom` | simulador.c:265-352 | Over the whole file, the first pass's label indices are within the second pass's code. |
| `CLoader.ResolveAllResolves` | simulador.c:356-373 | After resolution each direct operand holds its variable's index and each branch its label's index, neither -1; the rest is unchanged. |
| `CLoader.ResolvedInBounds` | simulador.c:356-373 | A resolved instruction addresses memory within the variables and jumps within the code. |
| `CLoader.LoadedInBounds` | simulador.c:236-379 | A loaded program addresses only declared memory and jumps only within its code. |
| `CLoader.ScanLabelsPass` | simulador.c:265-288 | The first-pass loop computes `ScanLabels`. |
| `CLoader.ScanLineStep` | simulador.c:268-287 | One first-pass iteration computes `ScanLine`. |
| `CLoader.AssemblePass` | simulador.c:291-352 | The second-pass loop computes `AssembleLines`. |
| `CLoader.AssembleLinePass` | simulador.c:295-351 | One second-pass iteration computes `AssembleLine`. |
| `CLoader.ResolvePass` | simulador.c:355-373 | The third-pass loop computes `ResolveAll`, stopping at the first unresolved name. |
| `CLoader.LoadPasses` | simulador.c:262-373 | The three passes compute `LoadLines`. |
| `CProcess.PastEndFinishes` | simulador.c:388-395 | At or past the end of the code the process is finalised. |
| `CProcess.StepAdvances` | simulador.c:408-427 | pc goes to pc+1, except that a branch may overwrite it with its target. |
| `CProcess.DivByZeroFinishes` | simulador.c:414-421 | DIV by zero finalises and leaves acc and memory unchanged. |
| `CProcess.DivTruncates` | simulador.c:419 | DIV truncates toward zero. |
| `CProcess.BranchTakenIff` | simulador.c:424-427 | A branch jumps iff its condition on acc holds. |
| `CProcess.StoreThenLoad` | simulador.c:423 | After STORE to a variable, reading it yields acc. |
| `CProcess.SyscallEffects` | simulador.c:428-446 | SYSCALL 0 finalises; 1 and 2 block for `blockTime`, and 2 first reads the input into acc; any other code only advances pc. |
| `CProcess.StateChanges` | simulador.c:387-452 | An instruction leaves the process state as it was, or finalises or blocks the process. |
| `CProcess.Pcb.constructor` | simulador.c:250-260 | A new PCB is NOVO with pc and acc 0 and a full quantum. |
| `CProcess.Pcb.Execute` | simulador.c:387-452 | Executing in place updates pc, acc, state, block time and memory as `Step` defines. |
| `CQueue.FindPid` | simulador.c:145-153 | The first node with the pid, or none iff there is none. |
| `CQueue.Without` | simulador.c:156-160 | Unlinking a node keeps the others in order. |
| `CQueue.WithoutSplits` | simulador.c:145-163 | Unlinking loses no node but the one removed. |
| `CQueue.Queue.constructor` | simulador.c:92-97 | A queue starts empty. |
| `CQueue.Queue.Enqueue` | simulador.c:111-122 | A node not yet queued is appended at the tail, and the order of the others is kept. |
| `CQueue.Queue.Dequeue` | simulador.c:129-137 | On an empty queue returns null; otherwise returns the former head with its link cleared and keeps the rest in order. |
| `CQueue.Queue.Remove` | simulador.c:145-163 | Unlinks and returns the first node with the pid; with no match returns null and leaves the queue as it was. |
| `CQueue.Queue.Unlink` | simulador.c:156-162 | Unlinking the node at position i removes exactly it. |
| `CSimulator.Due` | simulador.c:526 | Only arrived newcomers are admitted. |
| `CSimulator.Pending` | simulador.c:526 | Only newcomers yet to arrive stay. |
| `CSimulator.AtLevel` | simulador.c:458-469 | Selects the processes of one ready queue. |
| `CSimulator.Admit` | simulador.c:521-532 | Admission touches neither the blocked, the finished nor the running process. |
| `CSimulator.EnterAllSorts` | simulador.c:458-469 | Moving processes to ready appends each to the tail of its own queue (priority 0, priority 1, best effort), in order. |
| `CSimulator.ArrivalSplits` | simulador.c:521-532 | Admission splits the newcomers into admitted and waiting, losing none. |
| `CSimulator.WakeSplits` | simulador.c:535-546 | Unblocking splits the blocked list into woken and still blocked, losing none. |
| `CSimulator.AdmitHeld` | simulador.c:521-532 | Admission keeps the multiset of queued processes. |
| `CSimulator.WakeHeld` | simulador.c:535-546 | Unblocking keeps the multiset of queued processes. |
| `CSimulator.PreemptHeld` | simulador.c:548-557 | Preemption keeps the multiset of queued and running processes. |
| `CSimulator.RetireHeld` | simulador.c:559-575 | Retiring the running process keeps the multiset of all processes. |
| `CSimulator.DispatchHeld` | simulador.c:577-584 | Dispatch keeps the multiset of all processes. |
| `CSimulator.TurnMembers` | simulador.c:516-599 | No phase of a turn adds or drops a process. |
| `CSimulator.AdmitWellFormed` | simulador.c:521-532 | Admission keeps every process in one place with a distinct pid. |
| `CSimulator.WakeWellFormed` | simulador.c:535-546 | Unblocking keeps every process in one place with a distinct pid. |
| `CSimulator.MovesWellFormed` | simulador.c:548-584 | Preemption, retiring and dispatch keep every process in one place. |
| `CSimulator.AdmitLeveled` | simulador.c:458-469 | After admission each ready queue holds only its own class and priority. |
| `CSimulator.WakeLeveled` | simulador.c:458-469 | After unblocking each ready queue holds only its own class and priority. |
| `CSimulator.MovesLeveled` | simulador.c:548-584 | Preemption, retiring and dispatch keep the queues sorted by class and priority. |
| `CSimulator.AdmitIdempotent` | simulador.c:521-532 | Admitting twice at the same time is admitting once. |
| `CSimulator.PendingStable` | simulador.c:526 | Nothing left waiting is due. |
| `CSimulator.IdleOnlyWhenNothingReady` | simulador.c:475-480 | With an idle CPU, nothing is dispatched iff all three ready queues are empty. |
| `CSimulator.DispatchTakesHighest` | simulador.c:475-480 | Dispatch takes from priority 0, else priority 1, else best effort. |
| `CSimulator.BestEffortRunsAlone` | simulador.c:548-584 | After a turn's preemption, retiring and dispatch, a best-effort process runs only while both realtime queues are empty. |
| `CSimulator.ListPidsDistinct` | simulador.c:251 | Within the newcomers and the blocked lists, pids are distinct. |
| `CSimulator.Apart` | simulador.c:92-99 | A newcomer or blocked process is in no other list and not running. |
| `CSimulator.RunningApart` | simulador.c:99 | The running process is in no list. |
| `CSimulator.HeldApart` | simulador.c:79 | Two different processes in the lists differ in pid and in memory, since each PCB carries its own data memory. |
| `CSimulator.MemoryApart` | simulador.c:79 | No other process in the lists shares the running process's memory, so executing it writes no one else's data. |
| `CSimulator.AmongIn` | simulador.c:535-538 | The recursive membership test used for the blocked list agrees with `in`. |
| `CSimulator.HeadApart` | simulador.c:475-480 | The head of a ready queue is in no other place. |
| `CSimulator.EnlistWellFormed` | simulador.c:251 | A new PCB with the next pid keeps every process in one place with a distinct pid. |
| `CSimulator.LoadedRunnable` | simulador.c:355-373 | A loaded program that fits the memory only addresses that memory. |
| `CSimulator.NewPcb` | simulador.c:243-260 | A fresh PCB holds the program with zeroed memory carrying the initial data, pc and acc 0, NOVO and a full quantum. |
| `CSimulator.Simulator.constructor` | simulador.c:92-101 | All queues empty, no process running, clock and next pid 0. |
| `CSimulator.Simulator.LoadProgram` | simulador.c:236-379 | Uses one pid either way; a program the loader rejects (a missing value, an undeclared variable or label) gives null and leaves every list unchanged; otherwise a fresh PCB holding it joins the tail of the newcomers. |
| `CSimulator.Simulator.AddNewcomer` | simulador.c:250-376 | A fresh PCB with the next pid joins the newcomers. |
| `CSimulator.Simulator.Join` | simulador.c:376 | Appends a new process to the newcomers and keeps the lists well formed. |
| `CSimulator.Simulator.SkipPid` | simulador.c:251 | The pid is used up and no list changes. |
| `CSimulator.Simulator.Enlist` | simulador.c:376 | Appends to the newcomers and takes the pid. |
| `CSimulator.Simulator.MoveToReady` | simulador.c:458-469 | The process becomes ready at the tail of its class and priority's queue. |
| `CSimulator.Simulator.AdmitOne` | simulador.c:526-530 | Removes one arrived newcomer and moves it to ready. |
| `CSimulator.Simulator.AdmitArrivals` | simulador.c:521-532 | The admission loop gives `Admit` of the old lists, and arrived processes are ready. |
| `CSimulator.Simulator.AdmitIfDue` | simulador.c:525-531 | One iteration admits the node iff it has arrived. |
| `CSimulator.Simulator.WakeOne` | simulador.c:540-544 | Removes one unblocked process and moves it to ready. |
| `CSimulator.Simulator.WakeBlocked` | simulador.c:535-546 | Each blocked process counts down by one, and those at or below zero are moved to ready, as `Wake` defines. No process changes anything else but its state: registers, memory and quantum stay (`CountedDown`). |
| `CSimulator.Simulator.WakeIfDone` | simulador.c:540-544 | One iteration wakes the node iff its count ran out. |
| `CSimulator.Simulator.AdmitPhase` | simulador.c:521-532 | Phase 1 gives `Admit` of the old lists and keeps them well formed. No process changes anything but its state (`CountedDown` over an empty blocked list). |
| `CSimulator.Simulator.AdmitPlaced` | simulador.c:521-532 | Each newcomer becomes ready iff it has arrived, every other list stays in its state, and no register, memory or quantum changes. |
| `CSimulator.Simulator.WakePhase` | simulador.c:535-546 | Phase 2 gives `Wake` of the old lists and keeps them well formed. Every process blocked at the start counts down by one, and no process changes anything else but its state (`CountedDown`). |
| `CSimulator.Simulator.WakePlaced` | simulador.c:535-546 | Each blocked process counts down by one and is ready iff its count reached 0 or below; every other list stays in its state. |
| `CSimulator.Simulator.PreemptPhase` | simulador.c:548-557 | Phase 3 gives `Preempt`: a running best-effort process yields when either realtime queue is non-empty. No process changes anything but its state. |
| `CSimulator.Simulator.RetireRunning` | simulador.c:559-575 | Phase 4 moves a finalised or blocked process to its list, and an expired realtime one back to ready with a full quantum. |
| `CSimulator.Simulator.RetirePhase` | simulador.c:559-575 | Phase 4 gives `Retire` of the old lists and keeps them well formed. A realtime process that ran out gets its full quantum back, a process left on the CPU is running and not expired, and no other quantum and no register or memory changes. |
| `CSimulator.Simulator.SelectNext` | simulador.c:475-480 | The selection dequeues as `Dispatch` defines. |
| `CSimulator.Simulator.DispatchPhase` | simulador.c:577-584 | Phase 5 gives `Dispatch`. A newly dispatched process runs with a full quantum, a kept one keeps its quantum, and every other process is unchanged. |
| `CSimulator.Simulator.Take` | simulador.c:577-584 | On an idle CPU the selected process leaves its queue and runs with a full quantum and otherwise unchanged registers; nothing else changes. |
| `CSimulator.Simulator.ExecutePhase` | simulador.c:586-591 | Phase 6 executes one instruction of the running process (`Step`) and charges a realtime quantum. The lists are unchanged, and every other process keeps its registers, memory and quantum. |
| `CSimulator.Simulator.ExecuteApart` | simulador.c:586-591 | One instruction on a PCB in no list: its registers become `Step`'s, a realtime quantum drops by one, and the lists stay in their states. |
| `CSimulator.Simulator.Finish` | simulador.c:586-599 | The end of a turn: the process on the CPU, if any, executes `Step` and is charged; every other process is unchanged; the clock goes up by one and `active` is the stop criterion. |
| `CSimulator.Simulator.Arrive` | simulador.c:521-546 | Phases 1 and 2 give `Wake(Admit(...))`. Every process blocked at the start counts down by one, and no process changes anything else but its state (`CountedDown`). |
| `CSimulator.Simulator.Settle` | simulador.c:548-575 | Phases 3 and 4 give `Retire(Preempt(...))`. The process on the CPU at the start is refilled iff it was a realtime process that ran out; a process left on the CPU is running and was not expired; no other quantum and no register or memory changes. |
| `CSimulator.Simulator.Cycle` | simulador.c:516-599 | One turn gives `Turn` of the old lists and keeps them well formed; the clock goes up by one; `active` holds iff some list is non-empty or a process runs. The process on the CPU at the end executed one `Step` from its old registers, counted down first if it was blocked. Its quantum went on if it held the CPU through phases 1-4 and restarted full otherwise, less one if realtime (`Executed`). Every other process only changed state, counted down if blocked, and got a full quantum iff it was the realtime process that ran out (`Waited`). |
| `CSimulator.Simulator.Prepare` | simulador.c:521-575 | Phases 1 to 4 give `Settled` of the old lists. A process left on the CPU is the one that was there, running and not expired. Every process blocked at the start counts down by one, the process on the CPU at the start is refilled iff it expired, and nothing else of any process changes but its state. |
| `CSimulator.Simulator.Run` | simulador.c:577-599 | Phases 5 and 6 and the clock step: the lists become `Dispatch` of the old lists. The process on the CPU executed `Step` from its registers as dispatched. Its quantum goes on if it already held the CPU and starts full otherwise, less one if realtime. Every other process is unchanged, the clock goes up by one, and `active` is the stop criterion. |
| `CSimulator.Simulator.Tick` | simulador.c:596-599 | The clock goes up by one, the stop criterion is computed over the lists, and no process's registers or memory change. |

## Left out

- The drivers `src/Main.java` and `js/main.js` (menus, timers, DOM, console): their syscall handlers become the `SyscallHandler` parameter, whose actions are ignore, terminate, block for d and wait for input. The handler runs after the step (the same end state as running it before `pc++`, since it does not touch pc).
- Logging: `System.out`/`System.err`/`console.*`/`printf`, the "Ola" print on input `0101` (the handler call with -1 is modelled), and `imprimir_estado_sistema`.
- Randomness and console input in C (`rand() % 3 + 3`, `scanf`): these are the parameters `blockTime` and `input` of `Cycle`/`Execute`.
- File I/O in C: `fopen`/`fgets`/`rewind`/`strtok` are replaced by the file's lines, already split, and `strtok`'s delimiters are modelled by `CLoader.LineTokens`. The early return on a failed `fopen` or `calloc` happens before a pid is taken and is not modelled.
- `calloc`/`strdup`/`free`/`limpar_lista` and C `main` with its hard-coded file names and the outer `while` loop: `Cycle` models one turn, and the outer loop repeats it while `active` holds.
- Integer parsing: `Integer.parseInt` and JS `parseInt` are both modelled as a strict decimal parser (`Text.ParseInt`), and a non-number raises `NumberFormat`. JS `parseInt`'s lenient prefix reading and `NaN` data values are not modelled, except in `setQuantum`, where a non-number is `None`.
- Machine integers: Java `int` and C `int` arithmetic is unbounded here (no 32-bit wrap-around), and `Integer.MAX_VALUE`/`Infinity` is the sentinel `Quantum.Unbounded`, which never runs out.
- JS `Number`: the JS port keeps `acc` and data values as IEEE doubles. They are exact only up to 2^53, `MULT` can overflow to `Infinity` and later give `NaN`, and `Math.floor(acc / divisor)` floors a rounded quotient. The model computes on exact integers, with `Isa.FloorDiv` as the exact floor quotient.
- JS getters/setters and Java's plain field getters/setters are direct field access in the model.
- Concurrency: none is modelled; the drivers' timer thread and `AtomicBoolean` are out of scope.
- The C lists are `seq<Pcb>` fields of `CSimulator.Simulator`. Their pointer splicing is modelled separately by `CQueue.Queue`, which the simulator class does not use.
- `CSimulator.Simulator.LoadProgram`: requires the program to fit the fixed PCB arrays (`MAX_DATA_SIZE` variables, `MAX_CODE_SIZE` instructions), which the C code does not check; overflowing them, and `strcpy` past `MAX_LABEL_LENGTH` or a line past `MAX_LINE_LENGTH`, are not modelled.
- `CLoader.LoadPasses`: a data line without a value (`atoi(NULL)`, undefined behaviour in C) is refused as `MissingValue` instead of being loaded.
- `Scheduler.ProcessScheduler.SetQuantum`: for the Java dialect requires an integer argument, because Java's `setQuantum(int)` cannot receive a non-number.
- `Manager.ProcessManager.RunningProcess`: states that the result runs, not that it is the first running process; `Manager.FirstProcessIndex` and `Manager.SameFirstIndex` state the "first" part.
- Text.Trim: strips only the six ASCII blanks of `Text.Blanks`. Java's `trim()` also strips every other character up to U+0020 (so `"\u0001ADD x"` is ADD in Java but an unknown opcode here), and JS's `trim()` and `\s` also strip U+00A0, U+FEFF, U+2028 and the other Unicode spaces.
- Isa.DecodeMnemonic: decoding upper-cases ASCII letters only, as C's `toupper` does in the C locale. Java's and JS's `toUpperCase` also map `ſ` to `S`, `ı` to `I` and ligatures such as `ﬅ` to `ST`, so `ſub x` is SUB there but an unknown opcode here; Java's result also depends on the default locale.
- Isa.DecodeOpcode: shares that ASCII-only upper-casing (`Text.ToUpper`).
- The null operand that Java passes to `resolveOperand`/`startsWith` (a `NullPointerException`) is the fault `MissingOperand`, caught like any other.
