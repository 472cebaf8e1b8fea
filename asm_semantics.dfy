/**
 * What one `executeInstruction` call does to the interpreter's state, as a
 * function: the reference the `AssemblyInterpreter` class is proved against,
 * and the thing the lemmas below are about.
 */
module AsmSemantics {
  import opened Wrappers
  import opened Text
  import opened Isa
  import opened AsmSyntax

  /** Everything `executeInstruction` and `handleInput` read or write. */
  datatype Cpu = Cpu(
    acc: int,
    pc: int,
    code: seq<string>,
    labels: map<string, int>,
    data: map<string, int>,
    running: bool,
    blocked: bool,
    blockTime: int,
    waitingForInput: bool)

  /** The state `reset()` leaves. */
  const Initial := Cpu(0, 0, [], map[], map[], false, false, 0, false)

  /** The state a parse leaves: the image loaded, running only if nothing was thrown. */
  function Loaded(p: Parsed): Cpu {
    Initial.(code := p.cursor.image.code, labels := p.cursor.image.labels,
             data := p.cursor.image.data, running := p.fault.None?)
  }

  /** What one call does. */
  datatype StepResult =
    | Idle(cpu: Cpu)                            // returned false
    | Executed(cpu: Cpu, syscall: Option<int>)  // returned true; SYSCALL hands its code to the handler
    | Raised(fault: Fault)                      // threw before changing anything

  /** The first word of an instruction (`parts[0]`), or empty. */
  function OpcodeWord(instruction: string): string {
    var parts := Tokens(instruction, Blanks);
    if |parts| > 0 then parts[0] else ""
  }

  /** The second word of an instruction (`parts[1]`), or `null`. */
  function OperandWord(instruction: string): Option<string> {
    var parts := Tokens(instruction, Blanks);
    if |parts| > 1 then Some(parts[1]) else None
  }

  predicate IsImmediate(operand: string) {
    |operand| > 0 && operand[0] == '#'
  }

  /** `resolveOperand`: `#n` is the number n, any other word a variable that must exist. */
  function Resolve(data: map<string, int>, operand: Option<string>): Result<int, Fault> {
    match operand
    case None => Failure(MissingOperand)
    case Some(s) =>
      if IsImmediate(s) then
        match ParseInt(s[1..]) {
          case Some(v) => Success(v)
          case None => Failure(NumberFormat(Some(s[1..])))
        }
      else if s in data then Success(data[s])
      else Failure(UndefinedVariable(s))
  }

  /**
   * Where a branch goes. A missing operand is Java's `null` key, which no
   * label has; JavaScript's `hasOwnProperty(null)` looks up the label "null".
   */
  function BranchTarget(d: Dialect, labels: map<string, int>, operand: Option<string>): Option<int> {
    match operand
    case Some(s) => if s in labels then Some(labels[s]) else None
    case None => if d == Js && "null" in labels then Some(labels["null"]) else None
  }

  /** DIV's rounding: toward zero in Java, toward minus infinity in JavaScript. */
  function Quotient(d: Dialect, a: int, b: int): int
    requires b != 0
  {
    if d == Java then TruncDiv(a, b) else FloorDiv(a, b)
  }

  /** ADD, SUB, MULT and LOAD: combine the accumulator with the operand's value. */
  function Combine(op: Opcode, acc: int, v: int): int {
    match op
    case Add => acc + v
    case Sub => acc - v
    case Mult => acc * v
    case _ => v
  }

  function Branch(d: Dialect, c: Cpu, taken: bool, operand: Option<string>): Result<(Cpu, Option<int>), Fault> {
    if !taken then Success((c.(pc := c.pc + 1), None))
    else
      match BranchTarget(d, c.labels, operand) {
        case Some(t) => Success((c.(pc := t), None))
        case None => Failure(UndefinedLabel(operand))
      }
  }

  /** ADD, SUB, MULT, LOAD and DIV, which read their operand's value. */
  function Arithmetic(d: Dialect, c: Cpu, op: Opcode, operand: Option<string>): Result<(Cpu, Option<int>), Fault> {
    match Resolve(c.data, operand)
    case Failure(f) => Failure(f)
    case Success(v) =>
      if op == Div then
        if v == 0 then Failure(DivisionByZero)
        else Success((c.(acc := Quotient(d, c.acc, v), pc := c.pc + 1), None))
      else Success((c.(acc := Combine(op, c.acc, v), pc := c.pc + 1), None))
  }

  /** STORE, whose operand must name a variable. */
  function StoreTo(c: Cpu, operand: Option<string>): Result<(Cpu, Option<int>), Fault> {
    match operand
    case None => Failure(MissingOperand)
    case Some(s) =>
      if IsImmediate(s) then Failure(InvalidOperand(s))
      else Success((c.(data := c.data[s := c.acc], pc := c.pc + 1), None))
  }

  /** SYSCALL, whose operand is the code handed to the handler. */
  function SystemCall(c: Cpu, operand: Option<string>): Result<(Cpu, Option<int>), Fault> {
    match operand
    case None => Failure(NumberFormat(None))
    case Some(s) =>
      match ParseInt(s) {
        case Some(n) => Success((c.(pc := c.pc + 1), Some(n)))
        case None => Failure(NumberFormat(Some(s)))
      }
  }

  /** The `switch` on the upper-cased opcode. */
  function Execute(d: Dialect, c: Cpu, word: string, operand: Option<string>): Result<(Cpu, Option<int>), Fault> {
    var op := DecodeOpcode(word);
    match op
    case Add | Sub | Mult | Load | Div => Arithmetic(d, c, op, operand)
    case Store => StoreTo(c, operand)
    case BrAny => Branch(d, c, true, operand)
    case BrPos => Branch(d, c, c.acc > 0, operand)
    case BrZero => Branch(d, c, c.acc == 0, operand)
    case BrNeg => Branch(d, c, c.acc < 0, operand)
    case Syscall => SystemCall(c, operand)
    case Invalid => Failure(UnknownInstruction(ToUpper(word)))
  }

  predicate CanRun(c: Cpu) {
    c.running && !c.blocked && !c.waitingForInput
  }

  /** `executeInstruction`. */
  function Step(d: Dialect, c: Cpu): StepResult {
    if !CanRun(c) then Idle(c)
    else if c.pc >= |c.code| then Idle(c.(running := false))
    else if c.pc < 0 then Raised(PcOutOfRange(c.pc))
    else
      var instruction := c.code[c.pc];
      match Execute(d, c, OpcodeWord(instruction), OperandWord(instruction)) {
        case Success(r) => Executed(r.0, r.1)
        case Failure(f) => Raised(f)
      }
  }

  /** What `handleInput` does. */
  datatype InputResult =
    | Ignored                               // not waiting: returned false
    | Accepted(cpu: Cpu, sentinel: bool)    // returned true; "0101" also calls the handler with -1
    | Refused(fault: Fault)                 // the number did not parse: threw

  function SupplyInput(c: Cpu, value: string): InputResult {
    if !c.waitingForInput then Ignored
    else
      match ParseInt(value) {
        case Some(v) => Accepted(c.(acc := v, waitingForInput := false), value == "0101")
        case None => Refused(NumberFormat(Some(value)))
      }
  }

  // ---------------------------------------------------------------------
  // Properties of one step

  /** Not running, blocked or waiting for input: nothing happens. */
  lemma IdleWhenHeld(d: Dialect, c: Cpu)
    requires !CanRun(c)
    ensures Step(d, c) == Idle(c)
  {
  }

  /** Past the last instruction the step only clears `running`. */
  lemma StopsPastEnd(d: Dialect, c: Cpu)
    requires CanRun(c) && c.pc >= |c.code|
    ensures Step(d, c) == Idle(c.(running := false))
    ensures !Step(d, c).cpu.running
  {
  }

  /** What every successful instruction leaves alone, and where it can send pc. */
  predicate Preserves(c: Cpu, n: Cpu) {
    && n.code == c.code && n.labels == c.labels
    && n.running == c.running && n.blocked == c.blocked
    && n.waitingForInput == c.waitingForInput && n.blockTime == c.blockTime
    && (n.pc == c.pc + 1 || n.pc in c.labels.Values)
    && n.data.Keys >= c.data.Keys
  }

  /** A taken branch lands on a label's line; one not taken moves on. */
  lemma BranchPreserves(d: Dialect, c: Cpu, taken: bool, operand: Option<string>)
    requires Branch(d, c, taken, operand).Success?
    ensures Preserves(c, Branch(d, c, taken, operand).value.0)
  {
    if taken {
      var t := BranchTarget(d, c.labels, operand).value;
      assert t in c.labels.Values by {
        match operand {
          case Some(s) => assert c.labels[s] == t;
          case None => assert c.labels["null"] == t;
        }
      }
    }
  }

  /** ADD, SUB, MULT, LOAD and DIV move on and change only the accumulator. */
  lemma ArithmeticPreserves(d: Dialect, c: Cpu, op: Opcode, operand: Option<string>)
    requires Arithmetic(d, c, op, operand).Success?
    ensures var n := Arithmetic(d, c, op, operand).value.0; Preserves(c, n) && n.pc == c.pc + 1
    ensures var n := Arithmetic(d, c, op, operand).value.0; n == c.(acc := n.acc, pc := c.pc + 1)
  {
  }

  /** STORE moves on and only adds to or updates the variables. */
  lemma StorePreserves(c: Cpu, operand: Option<string>)
    requires StoreTo(c, operand).Success?
    ensures var n := StoreTo(c, operand).value.0; Preserves(c, n) && n.pc == c.pc + 1
  {
  }

  /** SYSCALL itself only moves on; its effects are the handler's. */
  lemma SyscallPreserves(c: Cpu, operand: Option<string>)
    requires SystemCall(c, operand).Success?
    ensures var n := SystemCall(c, operand).value.0; Preserves(c, n) && n.pc == c.pc + 1
    ensures SystemCall(c, operand).value.0 == c.(pc := c.pc + 1)
  {
  }

  lemma ExecutePreserves(d: Dialect, c: Cpu, word: string, operand: Option<string>)
    requires Execute(d, c, word, operand).Success?
    ensures Preserves(c, Execute(d, c, word, operand).value.0)
    ensures !IsBranch(DecodeOpcode(word)) ==> Execute(d, c, word, operand).value.0.pc == c.pc + 1
  {
    var op := DecodeOpcode(word);
    match op
    case BrAny => BranchPreserves(d, c, true, operand);
    case BrPos => BranchPreserves(d, c, c.acc > 0, operand);
    case BrZero => BranchPreserves(d, c, c.acc == 0, operand);
    case BrNeg => BranchPreserves(d, c, c.acc < 0, operand);
    case Add | Sub | Mult | Load | Div =>
      assert Execute(d, c, word, operand) == Arithmetic(d, c, op, operand);
      ArithmeticPreserves(d, c, op, operand);
    case Store =>
      assert Execute(d, c, word, operand) == StoreTo(c, operand);
      StorePreserves(c, operand);
    case Syscall =>
      assert Execute(d, c, word, operand) == SystemCall(c, operand);
      SyscallPreserves(c, operand);
  }

  /** A step never changes the program, the labels or the flags, and moves pc by one or to a label. */
  lemma StepKeepsProgram(d: Dialect, c: Cpu)
    requires Step(d, c).Executed?
    ensures Preserves(c, Step(d, c).cpu)
    ensures !IsBranch(DecodeOpcode(OpcodeWord(c.code[c.pc]))) ==> Step(d, c).cpu.pc == c.pc + 1
  {
    var instruction := c.code[c.pc];
    ExecutePreserves(d, c, OpcodeWord(instruction), OperandWord(instruction));
  }

  /** A program counter within the code stays within the code when labels do. */
  predicate PcInRange(c: Cpu) {
    0 <= c.pc <= |c.code| && forall l :: l in c.labels ==> 0 <= c.labels[l] <= |c.code|
  }

  lemma StepKeepsPcInRange(d: Dialect, c: Cpu)
    requires PcInRange(c)
    ensures Step(d, c).Raised? || PcInRange(Step(d, c).cpu)
  {
    if Step(d, c).Executed? {
      StepKeepsProgram(d, c);
      var n := Step(d, c).cpu;
      if n.pc != c.pc + 1 {
        var l :| l in c.labels && c.labels[l] == n.pc;
      }
    }
  }

  /** A parsed program starts with its counter in range. */
  lemma LoadedPcInRange(d: Dialect, text: string)
    ensures PcInRange(Loaded(Parse(d, text)))
  {
    ParseWellFormed(d, text);
  }

  /** `#n` resolves to n whatever the data holds. */
  lemma ImmediateResolves(data: map<string, int>, n: int)
    ensures Resolve(data, Some("#" + IntToString(n))) == Success(n)
  {
    var s := "#" + IntToString(n);
    assert s[1..] == IntToString(n);
    ParseIntOfString(n);
  }

  /** A name never stored or declared fails to resolve. */
  lemma UnsetNameFails(data: map<string, int>, name: string)
    requires !IsImmediate(name) && name !in data
    ensures Resolve(data, Some(name)) == Failure(UndefinedVariable(name))
  {
  }

  /** After `STORE x` succeeds, resolving `x` yields the accumulator that was stored. */
  lemma StoreThenResolve(d: Dialect, c: Cpu)
    requires Step(d, c).Executed?
    requires DecodeOpcode(OpcodeWord(c.code[c.pc])) == Store
    ensures OperandWord(c.code[c.pc]).Some?
    ensures Resolve(Step(d, c).cpu.data, OperandWord(c.code[c.pc])) == Success(c.acc)
  {
  }

  /** DIV by an operand worth zero throws DivisionByZero, so acc and pc stay as they were. */
  lemma DivByZeroRaises(d: Dialect, c: Cpu)
    requires CanRun(c) && 0 <= c.pc < |c.code|
    requires DecodeOpcode(OpcodeWord(c.code[c.pc])) == Div
    requires Resolve(c.data, OperandWord(c.code[c.pc])) == Success(0)
    ensures Step(d, c) == Raised(DivisionByZero)
  {
  }

  /** STORE to an immediate operand throws. */
  lemma StoreImmediateRaises(d: Dialect, c: Cpu)
    requires CanRun(c) && 0 <= c.pc < |c.code|
    requires DecodeOpcode(OpcodeWord(c.code[c.pc])) == Store
    requires OperandWord(c.code[c.pc]).Some? && IsImmediate(OperandWord(c.code[c.pc]).value)
    ensures Step(d, c) == Raised(InvalidOperand(OperandWord(c.code[c.pc]).value))
  {
  }

  /** A conditional branch whose condition is false moves on without looking at its label. */
  lemma UntakenBranchFallsThrough(d: Dialect, c: Cpu)
    requires CanRun(c) && 0 <= c.pc < |c.code|
    requires var op := DecodeOpcode(OpcodeWord(c.code[c.pc]));
      || (op == BrPos && c.acc <= 0)
      || (op == BrZero && c.acc != 0)
      || (op == BrNeg && c.acc >= 0)
    ensures Step(d, c) == Executed(c.(pc := c.pc + 1), None)
  {
  }

  /** A taken branch to an undefined label throws; to a defined one it jumps there. */
  lemma TakenBranchNeedsLabel(d: Dialect, c: Cpu, target: string)
    requires CanRun(c) && 0 <= c.pc < |c.code|
    requires OperandWord(c.code[c.pc]) == Some(target)
    requires var op := DecodeOpcode(OpcodeWord(c.code[c.pc]));
      || op == BrAny
      || (op == BrPos && c.acc > 0)
      || (op == BrZero && c.acc == 0)
      || (op == BrNeg && c.acc < 0)
    ensures target !in c.labels ==> Step(d, c) == Raised(UndefinedLabel(Some(target)))
    ensures target in c.labels ==> Step(d, c) == Executed(c.(pc := c.labels[target]), None)
  {
  }

  /**
   * The two ports take the same step, except where DIV rounds a negative
   * inexact quotient differently or a branch without operand finds a label
   * called "null" in JavaScript.
   */
  lemma DialectsAgree(c: Cpu)
    requires CanRun(c) && 0 <= c.pc < |c.code|
    requires var instruction := c.code[c.pc];
      var op := DecodeOpcode(OpcodeWord(instruction));
      && (op == Div && Resolve(c.data, OperandWord(instruction)).Success? ==>
            var v := Resolve(c.data, OperandWord(instruction)).value;
            v == 0 || (c.acc < 0) == (v < 0) || c.acc - TruncDiv(c.acc, v) * v == 0)
      && (IsBranch(op) && OperandWord(instruction).None? ==> "null" !in c.labels)
    ensures Step(Java, c) == Step(Js, c)
  {
    var instruction := c.code[c.pc];
    if DecodeOpcode(OpcodeWord(instruction)) == Div && Resolve(c.data, OperandWord(instruction)).Success? {
      var v := Resolve(c.data, OperandWord(instruction)).value;
      if v != 0 {
        FloorVersusTrunc(c.acc, v);
      }
    }
  }

  /** Where they disagree on DIV, JavaScript's quotient is one less. */
  lemma DialectsDisagreeOnDiv(c: Cpu)
    requires CanRun(c) && 0 <= c.pc < |c.code|
    requires DecodeOpcode(OpcodeWord(c.code[c.pc])) == Div
    requires Resolve(c.data, OperandWord(c.code[c.pc])).Success?
    requires var v := Resolve(c.data, OperandWord(c.code[c.pc])).value;
      v != 0 && (c.acc < 0) != (v < 0) && c.acc - TruncDiv(c.acc, v) * v != 0
    ensures Step(Java, c).Executed? && Step(Js, c).Executed?
    ensures Step(Js, c).cpu.acc == Step(Java, c).cpu.acc - 1
  {
    var v := Resolve(c.data, OperandWord(c.code[c.pc])).value;
    FloorVersusTrunc(c.acc, v);
  }

  /** `handleInput` only acts while waiting; then the accumulator takes the number and the wait ends. */
  lemma InputOnlyWhileWaiting(c: Cpu, value: string)
    ensures !c.waitingForInput ==> SupplyInput(c, value) == Ignored
    ensures c.waitingForInput && ParseInt(value).Some? ==>
      SupplyInput(c, value).Accepted?
      && SupplyInput(c, value).cpu.acc == ParseInt(value).value
      && !SupplyInput(c, value).cpu.waitingForInput
      && SupplyInput(c, value).cpu.pc == c.pc
  {
  }

  // ---------------------------------------------------------------------
  // Running several steps

  datatype Status = Going | Stopped | Faulted(fault: Fault)

  /** Up to `n` steps, stopping at the first that returns false or throws. */
  function Run(d: Dialect, c: Cpu, n: nat): (Cpu, Status)
    decreases n
  {
    if n == 0 then (c, Going)
    else
      match Step(d, c) {
        case Executed(next, _) => Run(d, next, n - 1)
        case Idle(next) => (next, Stopped)
        case Raised(f) => (c, Faulted(f))
      }
  }

  predicate BranchFree(code: seq<string>) {
    forall i :: 0 <= i < |code| ==> !IsBranch(DecodeOpcode(OpcodeWord(code[i])))
  }

  /**
   * A program without branches, left alone by its handler, stops within
   * one step more than it has instructions left, clearing `running` unless
   * an instruction throws.
   */
  lemma {:induction false} StraightLineStops(d: Dialect, c: Cpu)
    requires BranchFree(c.code) && 0 <= c.pc <= |c.code| && CanRun(c)
    ensures Run(d, c, |c.code| - c.pc + 1).1 != Going
    ensures Run(d, c, |c.code| - c.pc + 1).1 == Stopped ==> !Run(d, c, |c.code| - c.pc + 1).0.running
    decreases |c.code| - c.pc
  {
    var k := |c.code| - c.pc + 1;
    if c.pc == |c.code| {
      assert Run(d, c, k) == (c.(running := false), Stopped);
    } else {
      var r := Step(d, c);
      if r.Executed? {
        StepKeepsProgram(d, c);
        assert Run(d, c, k) == Run(d, r.cpu, k - 1);
        StraightLineStops(d, r.cpu);
      }
    }
  }
}
