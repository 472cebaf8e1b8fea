/**
 * The interpreter object each process owns: its fields are the `Cpu` of
 * `AsmSemantics`, updated in place, plus the system-call handler the
 * driver installs.
 */
module Interpreter {
  import opened Wrappers
  import opened Text
  import opened Isa
  import opened AsmSyntax
  import opened AsmSemantics

  /**
   * What the drivers' handlers do to the owning process: nothing (print,
   * the "Ola" code), terminate it (code 0), block it for a duration
   * (code 1, which also prints) or wait for input (code 2).
   */
  datatype SyscallAction = Ignore | Terminate | Block(duration: int) | AwaitInput

  /** A handler: the system-call code in, the action out. */
  type SyscallHandler = int -> SyscallAction

  /** The action a handler asks for, if one is installed and the call carries a code. */
  function Requested(handler: Option<SyscallHandler>, code: Option<int>): Option<SyscallAction> {
    if handler.Some? && code.Some? then Some(handler.value(code.value)) else None
  }

  /** The interpreter's first loop: trimmed lines, without blanks and `#` comments. */
  method KeepSourceLines(raw: seq<string>) returns (lines: seq<string>)
    ensures lines == KeptLines(raw)
  {
    lines := [];
    var i := 0;
    while i < |raw|
      invariant 0 <= i <= |raw|
      invariant lines == KeptLines(raw[..i])
    {
      var line := Trim(raw[i]);
      if line != [] && line[0] != '#' {
        lines := lines + [line];
      }
      assert raw[..i + 1][..i] == raw[..i];
      i := i + 1;
    }
    assert raw[..i] == raw;
  }

  class AssemblyInterpreter {
    const dialect: Dialect
    var acc: int
    var pc: int
    var code: seq<string>
    var labels: map<string, int>
    var data: map<string, int>
    var running: bool
    var blocked: bool
    var blockTime: int
    var waitingForInput: bool
    var handler: Option<SyscallHandler>

    /** All the fields but the handler, as a value. */
    function State(): Cpu
      reads this
    {
      Cpu(acc, pc, code, labels, data, running, blocked, blockTime, waitingForInput)
    }

    constructor(dialect: Dialect)
      ensures this.dialect == dialect
      ensures State() == Initial && handler == None
    {
      this.dialect := dialect;
      acc, pc, code, labels, data := 0, 0, [], map[], map[];
      running, blocked, blockTime, waitingForInput := false, false, 0, false;
      handler := None;
    }

    method Reset()
      modifies this
      ensures State() == Initial && handler == None
    {
      acc, pc, code, labels, data := 0, 0, [], map[], map[];
      running, blocked, blockTime, waitingForInput := false, false, 0, false;
      handler := None;
    }

    /**
     * Loads a program. A data value that is not a number stops the load:
     * what was built up to that line stays, and the interpreter does not run.
     */
    method ParseProgram(text: string) returns (r: Result<bool, Fault>)
      modifies this
      ensures State() == Loaded(Parse(dialect, text)) && handler == None
      ensures r == if Parse(dialect, text).fault.None? then Success(true)
                   else Failure(Parse(dialect, text).fault.value)
    {
      Reset();
      var lines := KeepSourceLines(SplitOn(text, '\n'));
      var inCode, inData := false, false;
      var i := 0;
      while i < |lines|
        invariant 0 <= i <= |lines|
        invariant State() == Initial.(code := code, labels := labels, data := data)
        invariant handler == None
        invariant ParseFrom(dialect, lines[i..], Cursor(inCode, inData, Image(code, labels, data)))
               == Parse(dialect, text)
      {
        assert lines[i..][1..] == lines[i + 1..];
        var fault;
        inCode, inData, fault := ParseLineInPlace(lines[i], inCode, inData);
        if fault.Some? {
          return Failure(fault.value);
        }
        i := i + 1;
      }
      running := true;
      r := Success(true);
    }

    /** One iteration of the section loop, on the fields. */
    method ParseLineInPlace(line: string, inCode: bool, inData: bool)
      returns (inCode': bool, inData': bool, fault: Option<Fault>)
      modifies this
      ensures match ParseLine(dialect, Cursor(inCode, inData, old(Image(code, labels, data))), line)
        case Success(c) =>
          fault == None && Cursor(inCode', inData', Image(code, labels, data)) == c
        case Failure(f) =>
          fault == Some(f) && Image(code, labels, data) == old(Image(code, labels, data))
      ensures acc == old(acc) && pc == old(pc) && running == old(running) && blocked == old(blocked)
      ensures blockTime == old(blockTime) && waitingForInput == old(waitingForInput)
      ensures handler == old(handler)
    {
      inCode', inData', fault := inCode, inData, None;
      if IsMarker(line, ".code") {
        inCode', inData' := true, false;
      } else if IsMarker(line, ".endcode") {
        inCode' := false;
      } else if IsMarker(line, ".data") {
        inData', inCode' := true, false;
      } else if IsMarker(line, ".enddata") {
        inData' := false;
      } else if inCode {
        CodeLineInPlace(line);
      } else if inData {
        fault := DataLineInPlace(line);
      }
    }

    /** A line inside `.code`: a label, an instruction, or both. */
    method CodeLineInPlace(line: string)
      modifies this
      ensures Image(code, labels, data) == CodeLine(dialect, old(Image(code, labels, data)), line)
      ensures acc == old(acc) && pc == old(pc) && running == old(running) && blocked == old(blocked)
      ensures blockTime == old(blockTime) && waitingForInput == old(waitingForInput)
      ensures handler == old(handler)
    {
      if ':' in line {
        var (name, instruction) := SplitLabel(dialect, line);
        labels := labels[name := |code|];
        if instruction != [] {
          code := code + [instruction];
        }
      } else {
        code := code + [line];
      }
    }

    /** A line inside `.data`: a name and its value. */
    method DataLineInPlace(line: string) returns (fault: Option<Fault>)
      modifies this
      ensures match DataLine(old(Image(code, labels, data)), line)
        case Success(img) => fault == None && Image(code, labels, data) == img
        case Failure(f) => fault == Some(f) && Image(code, labels, data) == old(Image(code, labels, data))
      ensures acc == old(acc) && pc == old(pc) && running == old(running) && blocked == old(blocked)
      ensures blockTime == old(blockTime) && waitingForInput == old(waitingForInput)
      ensures handler == old(handler)
    {
      fault := None;
      var parts := Tokens(line, Blanks);
      if |parts| >= 2 {
        var value := ParseInt(parts[1]);
        if value.None? {
          return Some(NumberFormat(Some(parts[1])));
        }
        data := data[parts[0] := value.value];
      }
    }

    method SetSystemCallHandler(h: SyscallHandler)
      modifies this
      ensures handler == Some(h) && State() == old(State())
    {
      handler := Some(h);
    }

    /** `resolveOperand` over the current data. */
    method ResolveOperand(operand: Option<string>) returns (r: Result<int, Fault>)
      ensures r == Resolve(data, operand)
    {
      if operand.None? {
        return Failure(MissingOperand);
      }
      var s := operand.value;
      if IsImmediate(s) {
        var v := ParseInt(s[1..]);
        if v.None? {
          return Failure(NumberFormat(Some(s[1..])));
        }
        return Success(v.value);
      }
      if s in data {
        return Success(data[s]);
      }
      return Failure(UndefinedVariable(s));
    }

    /**
     * Executes the instruction at pc. Besides the value `executeInstruction`
     * returns (or the fault it throws), yields what the handler asked for.
     */
    method ExecuteInstruction() returns (r: Result<bool, Fault>, action: Option<SyscallAction>)
      modifies this
      ensures handler == old(handler)
      ensures match Step(dialect, old(State()))
        case Idle(c) => r == Success(false) && State() == c && action == None
        case Executed(c, code) => r == Success(true) && State() == c && action == Requested(handler, code)
        case Raised(f) => r == Failure(f) && State() == old(State()) && action == None
    {
      if !running || blocked || waitingForInput {
        return Success(false), None;
      }
      if pc >= |code| {
        running := false;
        return Success(false), None;
      }
      if pc < 0 {
        return Failure(PcOutOfRange(pc)), None;
      }
      var instruction := code[pc];
      var fault, index := Perform(OpcodeWord(instruction), OperandWord(instruction));
      if fault.Some? {
        return Failure(fault.value), None;
      }
      r, action := Success(true), Requested(handler, index);
    }

    /** The `switch` on the opcode; `index` is the code a SYSCALL hands to the handler. */
    method Perform(word: string, operand: Option<string>) returns (fault: Option<Fault>, index: Option<int>)
      modifies this
      ensures handler == old(handler)
      ensures Done(Execute(dialect, old(State()), word, operand), fault, index, old(State()))
    {
      var op := DecodeOpcode(word);
      match op {
        case Add | Sub | Mult | Load | Div =>
          fault, index := Arithmetic(op, operand);
        case Store =>
          fault, index := Store(operand);
        case BrAny =>
          fault, index := Branch(true, operand);
        case BrPos =>
          fault, index := Branch(acc > 0, operand);
        case BrZero =>
          fault, index := Branch(acc == 0, operand);
        case BrNeg =>
          fault, index := Branch(acc < 0, operand);
        case Syscall =>
          fault, index := SystemCall(operand);
        case Invalid =>
          fault, index := Some(UnknownInstruction(ToUpper(word))), None;
      }
    }

    /** The fields and outputs agree with what the instruction does to `before`. */
    predicate Done(outcome: Result<(Cpu, Option<int>), Fault>, fault: Option<Fault>, index: Option<int>, before: Cpu)
      reads this
    {
      match outcome
      case Success(next) => fault == None && State() == next.0 && index == next.1
      case Failure(f) => fault == Some(f) && State() == before
    }

    /** ADD, SUB, MULT, DIV and LOAD. */
    method Arithmetic(op: Opcode, operand: Option<string>) returns (fault: Option<Fault>, index: Option<int>)
      modifies this
      ensures handler == old(handler)
      ensures Done(AsmSemantics.Arithmetic(dialect, old(State()), op, operand), fault, index, old(State()))
    {
      index := None;
      var v := ResolveOperand(operand);
      if v.Failure? {
        return Some(v.error), None;
      }
      if op == Div {
        if v.value == 0 {
          return Some(DivisionByZero), None;
        }
        acc := Quotient(dialect, acc, v.value);
      } else {
        acc := Combine(op, acc, v.value);
      }
      pc := pc + 1;
      fault := None;
    }

    /** STORE: a name, never an immediate, takes the accumulator. */
    method Store(operand: Option<string>) returns (fault: Option<Fault>, index: Option<int>)
      modifies this
      ensures handler == old(handler)
      ensures Done(StoreTo(old(State()), operand), fault, index, old(State()))
    {
      index := None;
      if operand.None? {
        return Some(MissingOperand), None;
      }
      if IsImmediate(operand.value) {
        return Some(InvalidOperand(operand.value)), None;
      }
      data := data[operand.value := acc];
      pc := pc + 1;
      fault := None;
    }

    /** A branch: jump to the operand's label when `taken`, else fall through. */
    method Branch(taken: bool, operand: Option<string>) returns (fault: Option<Fault>, index: Option<int>)
      modifies this
      ensures handler == old(handler)
      ensures Done(AsmSemantics.Branch(dialect, old(State()), taken, operand), fault, index, old(State()))
    {
      index := None;
      if !taken {
        pc := pc + 1;
        return None, None;
      }
      var target := BranchTarget(dialect, labels, operand);
      if target.None? {
        return Some(UndefinedLabel(operand)), None;
      }
      pc := target.value;
      fault := None;
    }

    /** SYSCALL: the operand must be a number, handed on as the code. */
    method SystemCall(operand: Option<string>) returns (fault: Option<Fault>, index: Option<int>)
      modifies this
      ensures handler == old(handler)
      ensures Done(AsmSemantics.SystemCall(old(State()), operand), fault, index, old(State()))
    {
      if operand.None? {
        return Some(NumberFormat(None)), None;
      }
      index := ParseInt(operand.value);
      if index.None? {
        return Some(NumberFormat(Some(operand.value))), None;
      }
      pc := pc + 1;
      fault := None;
    }

    /**
     * Supplies the number a process waits for. Returns whether it was
     * waiting, and the handler's action for the "0101" greeting (code -1).
     */
    method HandleInput(value: string) returns (r: Result<bool, Fault>, action: Option<SyscallAction>)
      modifies this
      ensures handler == old(handler)
      ensures match SupplyInput(old(State()), value)
        case Ignored => r == Success(false) && State() == old(State()) && action == None
        case Accepted(c, sentinel) =>
          && r == Success(true) && State() == c
          && action == Requested(handler, if sentinel then Some(-1) else None)
        case Refused(f) => r == Failure(f) && State() == old(State()) && action == None
    {
      action := None;
      if !waitingForInput {
        return Success(false), None;
      }
      var v := ParseInt(value);
      if v.None? {
        return Failure(NumberFormat(Some(value))), None;
      }
      acc := v.value;
      waitingForInput := false;
      if value == "0101" {
        action := Requested(handler, Some(-1));
      }
      r := Success(true);
    }
  }
}
