/**
 * The C simulator's process control block (`Processo`) and what
 * `executar_instrucao` does to it, as a function on its registers.
 */
module CProcess {
  import opened Isa
  import opened CLoader

  /** `EstadoProcesso`: PRONTO, EXECUTANDO, BLOQUEADO, FINALIZADO, NOVO. */
  datatype PState = Ready | Running | Blocked | Finished | New

  /** The part of a PCB one instruction can change. */
  datatype Regs = Regs(pc: nat, acc: int, state: PState, blockedLeft: int, memory: seq<int>)

  /** Code that `executar_instrucao` can run on a `size`-slot memory without leaving it. */
  predicate Runnable(code: seq<Instruction>, size: int) {
    forall i :: 0 <= i < |code| ==> InBounds(code[i], size)
  }

  /** The operand's value: the immediate, the variable's slot, or 0 for labels and system calls. */
  function OperandValue(instr: Instruction, memory: seq<int>): int
    requires instr.kind == Direct ==> 0 <= instr.value < |memory|
  {
    match instr.kind
    case Immediate => instr.value
    case Direct => memory[instr.value]
    case _ => 0
  }

  /**
   * `executar_instrucao` on the running process. Past the last instruction
   * the process finishes; otherwise pc advances before the instruction
   * runs, so a branch overwrites it. Division by zero and an invalid opcode
   * finish the process; SYSCALL 0 finishes it, SYSCALL 1 and 2 block it for
   * `blockTime` units (the model's stand-in for `rand() % 3 + 3`), and
   * SYSCALL 2 first reads `input` into acc (`scanf`).
   */
  function Step(code: seq<Instruction>, r: Regs, input: int, blockTime: int): Regs
    requires Runnable(code, |r.memory|)
  {
    if r.pc >= |code| then r.(state := Finished)
    else
      var instr := code[r.pc];
      var v := OperandValue(instr, r.memory);
      var next := r.(pc := r.pc + 1);
      match instr.opcode
      case Add => next.(acc := r.acc + v)
      case Sub => next.(acc := r.acc - v)
      case Mult => next.(acc := r.acc * v)
      case Div => if v == 0 then next.(state := Finished) else next.(acc := TruncDiv(r.acc, v))
      case Load => next.(acc := v)
      case Store => next.(memory := r.memory[instr.value := r.acc])
      case BrAny => next.(pc := instr.value)
      case BrPos => if r.acc > 0 then next.(pc := instr.value) else next
      case BrZero => if r.acc == 0 then next.(pc := instr.value) else next
      case BrNeg => if r.acc < 0 then next.(pc := instr.value) else next
      case Syscall =>
        if instr.value == 0 then next.(state := Finished)
        else if instr.value == 1 then next.(state := Blocked, blockedLeft := blockTime)
        else if instr.value == 2 then next.(acc := input, state := Blocked, blockedLeft := blockTime)
        else next
      case Invalid => next.(state := Finished)
  }

  // ---------------------------------------------------------------------
  // What a step guarantees

  /** Running off the end finishes the process and changes nothing else. */
  lemma PastEndFinishes(code: seq<Instruction>, r: Regs, input: int, blockTime: int)
    requires Runnable(code, |r.memory|) && r.pc >= |code|
    ensures Step(code, r, input, blockTime) == r.(state := Finished)
  {
  }

  /**
   * A step keeps the memory's size; it leaves pc at pc+1 unless a branch is
   * taken, and then at the branch's target.
   */
  lemma StepAdvances(code: seq<Instruction>, r: Regs, input: int, blockTime: int)
    requires Runnable(code, |r.memory|) && r.pc < |code|
    ensures var r' := Step(code, r, input, blockTime);
      && |r'.memory| == |r.memory|
      && (r'.pc == r.pc + 1 || (IsBranch(code[r.pc].opcode) && r'.pc == code[r.pc].value))
      && (!IsBranch(code[r.pc].opcode) ==> r'.pc == r.pc + 1)
  {
  }

  /** Division by zero finishes the process and leaves acc and memory as they were. */
  lemma DivByZeroFinishes(code: seq<Instruction>, r: Regs, input: int, blockTime: int)
    requires Runnable(code, |r.memory|) && r.pc < |code|
    requires code[r.pc].opcode == Div && OperandValue(code[r.pc], r.memory) == 0
    ensures var r' := Step(code, r, input, blockTime);
      r'.state == Finished && r'.acc == r.acc && r'.memory == r.memory && r'.pc == r.pc + 1
  {
  }

  /** DIV truncates toward zero, like Java's and unlike JavaScript's. */
  lemma DivTruncates(code: seq<Instruction>, r: Regs, input: int, blockTime: int)
    requires Runnable(code, |r.memory|) && r.pc < |code|
    requires code[r.pc].opcode == Div && OperandValue(code[r.pc], r.memory) != 0
    ensures var v := OperandValue(code[r.pc], r.memory);
      var q := Step(code, r, input, blockTime).acc;
      Abs(r.acc - q * v) < Abs(v) && (r.acc - q * v == 0 || (r.acc - q * v < 0) == (r.acc < 0))
  {
  }

  /** A conditional branch is taken exactly when its condition on acc holds. */
  lemma BranchTakenIff(code: seq<Instruction>, r: Regs, input: int, blockTime: int)
    requires Runnable(code, |r.memory|) && r.pc < |code| && IsBranch(code[r.pc].opcode)
    requires code[r.pc].value != r.pc + 1
    ensures var op := code[r.pc].opcode;
      var taken := op == BrAny || (op == BrPos && r.acc > 0) || (op == BrZero && r.acc == 0) || (op == BrNeg && r.acc < 0);
      Step(code, r, input, blockTime).pc == code[r.pc].value <==> taken
  {
  }

  /** After STORE to a variable, reading that variable gives the stored acc. */
  lemma StoreThenLoad(code: seq<Instruction>, r: Regs, input: int, blockTime: int)
    requires Runnable(code, |r.memory|) && r.pc < |code|
    requires code[r.pc].opcode == Store && code[r.pc].kind == Direct
    ensures var r' := Step(code, r, input, blockTime);
      OperandValue(code[r.pc], r'.memory) == r.acc && r'.acc == r.acc
  {
  }

  /** The system calls: 0 finishes, 1 and 2 block for the given time, 2 reads the input into acc. */
  lemma SyscallEffects(code: seq<Instruction>, r: Regs, input: int, blockTime: int)
    requires Runnable(code, |r.memory|) && r.pc < |code| && code[r.pc].opcode == Syscall
    ensures var r' := Step(code, r, input, blockTime);
      var n := code[r.pc].value;
      && (n == 0 ==> r'.state == Finished)
      && (n == 1 || n == 2 ==> r'.state == Blocked && r'.blockedLeft == blockTime)
      && (n == 2 ==> r'.acc == input)
      && (n !in {0, 1, 2} ==> r' == r.(pc := r.pc + 1))
  {
  }

  /** Only a finishing or blocking instruction changes the state. */
  lemma StateChanges(code: seq<Instruction>, r: Regs, input: int, blockTime: int)
    requires Runnable(code, |r.memory|)
    ensures var r' := Step(code, r, input, blockTime);
      r'.state == r.state || r'.state == Finished || r'.state == Blocked
  {
  }

  /**
   * `Processo`: the identity and scheduling parameters are fixed at load
   * time, the registers and the link to the next node change.
   */
  class Pcb {
    const pid: int
    const realtime: bool
    const priority: int
    const quantumTotal: int
    const arrival: int
    const code: seq<Instruction>
    const variables: seq<Binding>
    const labels: seq<Binding>
    const memory: array<int>
    var pc: nat
    var acc: int
    var state: PState
    var quantumLeft: int
    var blockedLeft: int
    var next: Pcb?

    /** The fixed-size data memory, and code that stays inside it. */
    predicate Valid() {
      memory.Length == MaxDataSize && Runnable(code, MaxDataSize)
    }

    function Registers(): Regs
      reads this`pc, this`acc, this`state, this`blockedLeft, memory
    {
      Regs(pc, acc, state, blockedLeft, memory[..])
    }

    /** The PCB `carregar_programa` allocates: state NOVO, pc and acc 0, a full quantum. */
    constructor(pid: int, realtime: bool, arrival: int, priority: int, quantum: int, p: Program, memory: array<int>)
      ensures this.pid == pid && this.realtime == realtime && this.arrival == arrival
      ensures this.priority == priority && this.quantumTotal == quantum && quantumLeft == quantum
      ensures code == p.code && variables == p.variables && labels == p.labels && this.memory == memory
      ensures pc == 0 && acc == 0 && state == New && blockedLeft == 0 && next == null
    {
      this.pid := pid;
      this.realtime := realtime;
      this.arrival := arrival;
      this.priority := priority;
      quantumTotal := quantum;
      quantumLeft := quantum;
      code := p.code;
      variables := p.variables;
      labels := p.labels;
      this.memory := memory;
      pc := 0;
      acc := 0;
      state := New;
      blockedLeft := 0;
      next := null;
    }

    /**
     * `executar_instrucao` on this process: `input` is what `scanf` reads
     * for SYSCALL 2 and `blockTime` what `rand() % 3 + 3` draws for
     * SYSCALL 1 and 2.
     */
    method Execute(input: int, blockTime: int)
      requires Valid()
      modifies this`pc, this`acc, this`state, this`blockedLeft, memory
      ensures Registers() == Step(code, old(Registers()), input, blockTime)
    {
      if pc >= |code| {
        state := Finished;
        return;
      }
      var instr := code[pc];
      var v := 0;
      if instr.kind == Immediate {
        v := instr.value;
      } else if instr.kind == Direct {
        v := memory[instr.value];
      }
      pc := pc + 1;
      match instr.opcode {
        case Add => acc := acc + v;
        case Sub => acc := acc - v;
        case Mult => acc := acc * v;
        case Div =>
          if v == 0 {
            state := Finished;
          } else {
            acc := TruncDiv(acc, v);
          }
        case Load => acc := v;
        case Store => memory[instr.value] := acc;
        case BrAny => pc := instr.value;
        case BrPos => if acc > 0 { pc := instr.value; }
        case BrZero => if acc == 0 { pc := instr.value; }
        case BrNeg => if acc < 0 { pc := instr.value; }
        case Syscall =>
          if instr.value == 0 {
            state := Finished;
          } else if instr.value == 1 {
            state := Blocked;
            blockedLeft := blockTime;
          } else if instr.value == 2 {
            acc := input;
            state := Blocked;
            blockedLeft := blockTime;
          }
        case Invalid => state := Finished;
      }
    }
  }
}
