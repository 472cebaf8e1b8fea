/**
 * The C simulator's program loader (`carregar_programa` in simulador.c),
 * over a program already read into lines: a first pass that records the
 * labels, a second that assembles instructions and data, and a third that
 * resolves variable and label names to indices.
 */
module CLoader {
  import opened Wrappers
  import opened Text
  import opened Isa

  /** `MAX_CODE_SIZE` and `MAX_DATA_SIZE`. */
  const MaxCodeSize: nat := 100
  const MaxDataSize: nat := 100

  /**
   * `TipoOperando`. An instruction written without an operand keeps the
   * zeroed kind and value it was allocated with: `Immediate`, 0.
   */
  datatype OperandKind = Immediate | Direct | LabelRef | SyscallValue

  /**
   * `Instrucao`: `value` is the immediate, the data slot, the code index or
   * the system-call code; `name` is the variable or label still to resolve.
   */
  datatype Instruction = Instruction(opcode: Opcode, kind: OperandKind, value: int, name: string)

  /** An entry of `mapa_variaveis` or `mapa_labels`. */
  datatype Binding = Binding(name: string, index: int)

  // ---------------------------------------------------------------------
  // atoi

  /** The digits a string starts with. */
  function LeadingDigits(s: string): (d: string)
    ensures AllDigits(d) && |d| <= |s| && d == s[..|d|]
    ensures |d| == |s| || !IsDigit(s[|d|])
  {
    if s != [] && IsDigit(s[0]) then [s[0]] + LeadingDigits(s[1..]) else []
  }

  /**
   * `atoi` on a token: leading blanks, an optional sign and the digits after
   * it; 0 when there are none. The blanks `atoi` skips are those of C's
   * `isspace`, which are exactly `Blanks`; `strtok` on " \t\n\r" leaves
   * `'\v'` and `'\f'` inside a token.
   */
  function Atoi(s: string): int {
    var t := TrimStart(s);
    if t != [] && (t[0] == '-' || t[0] == '+') then
      var magnitude: int := DigitsValue(LeadingDigits(t[1..]));
      if t[0] == '-' then -magnitude else magnitude
    else
      DigitsValue(LeadingDigits(t))
  }

  lemma {:induction false} LeadingDigitsOfDigits(s: string)
    requires AllDigits(s)
    ensures LeadingDigits(s) == s
  {
    if s != [] {
      LeadingDigitsOfDigits(s[1..]);
    }
  }

  /** On a well-formed decimal, `atoi` reads what `Integer.parseInt` reads. */
  lemma AtoiAgreesWithParseInt(s: string)
    requires ParseInt(s).Some?
    ensures Atoi(s) == ParseInt(s).value
  {
    assert s[0] == '-' || s[0] == '+' || IsDigit(s[0]);
    assert !IsBlank(s[0]);
    assert TrimStart(s) == s;
    if |s| > 1 && (s[0] == '-' || s[0] == '+') && AllDigits(s[1..]) {
      LeadingDigitsOfDigits(s[1..]);
    } else {
      LeadingDigitsOfDigits(s);
    }
  }

  /** Without a leading blank, sign or digit, `atoi` gives 0: the code of `SYSCALL abc` is 0. */
  lemma AtoiWithoutDigits(s: string)
    requires s != [] && !IsBlank(s[0]) && !IsDigit(s[0]) && s[0] != '-' && s[0] != '+'
    ensures Atoi(s) == 0
  {
  }

  /** A leading blank does not change what `atoi` reads: `SYSCALL \f2` has code 2. */
  lemma AtoiSkipsBlank(s: string)
    requires s != [] && IsBlank(s[0])
    ensures Atoi(s) == Atoi(s[1..])
  {
  }

  // ---------------------------------------------------------------------
  // string_para_opcode, resolve_variavel, resolve_label

  /** `string_para_opcode`: upper-case the word, then compare it with each mnemonic. */
  method StringToOpcode(s: string) returns (op: Opcode)
    ensures op == DecodeOpcode(s)
  {
    var upper := "";
    var i := 0;
    while i < |s|
      invariant 0 <= i <= |s|
      invariant upper == ToUpper(s[..i])
    {
      upper := upper + [UpperChar(s[i])];
      i := i + 1;
    }
    assert s[..i] == s;
    if upper == "ADD" { return Add; }
    if upper == "SUB" { return Sub; }
    if upper == "MULT" { return Mult; }
    if upper == "DIV" { return Div; }
    if upper == "LOAD" { return Load; }
    if upper == "STORE" { return Store; }
    if upper == "BRANY" { return BrAny; }
    if upper == "BRPOS" { return BrPos; }
    if upper == "BRZERO" { return BrZero; }
    if upper == "BRNEG" { return BrNeg; }
    if upper == "SYSCALL" { return Syscall; }
    return Invalid;
  }

  /** The first entry of `m` with the given name. */
  function FirstNamed(m: seq<Binding>, name: string): (i: Option<nat>)
    ensures i.Some? ==> i.value < |m| && m[i.value].name == name
    ensures i.Some? ==> forall j :: 0 <= j < i.value ==> m[j].name != name
    ensures i.None? <==> forall j :: 0 <= j < |m| ==> m[j].name != name
  {
    if m == [] then None
    else if m[0].name == name then Some(0)
    else match FirstNamed(m[1..], name) {
      case Some(i) => Some(i + 1)
      case None => None
    }
  }

  /** What `resolve_variavel` and `resolve_label` return: the first match's index, or -1. */
  function Lookup(m: seq<Binding>, name: string): int {
    match FirstNamed(m, name)
    case Some(i) => m[i].index
    case None => -1
  }

  /** `resolve_variavel` and `resolve_label`: the same search, over the variable or the label map. */
  method ResolveName(m: seq<Binding>, name: string) returns (index: int)
    ensures index == Lookup(m, name)
  {
    var i := 0;
    while i < |m|
      invariant 0 <= i <= |m|
      invariant forall j :: 0 <= j < i ==> m[j].name != name
    {
      if m[i].name == name {
        assert FirstNamed(m, name) == Some(i);
        return m[i].index;
      }
      i := i + 1;
    }
    return -1;
  }

  // ---------------------------------------------------------------------
  // The passes over the lines

  /** A line's tokens, as repeated `strtok(..., " \t\n\r")` returns them. */
  function LineTokens(line: string): seq<string> {
    Tokens(line, CDelimiters)
  }

  /** A blank line, or one whose first token starts with `#`. */
  predicate Skipped(ts: seq<string>)
    requires forall i :: 0 <= i < |ts| ==> ts[i] != []
  {
    ts == [] || ts[0][0] == '#'
  }

  /** `lendo_codigo`, `lendo_dados`. */
  datatype Section = Section(inCode: bool, inData: bool)

  const Outside := Section(false, false)

  /** What a section marker does to the flags; `None` for a word that is none (compared case-sensitively). */
  function Marker(sec: Section, w: string): Option<Section> {
    if w == ".code" then Some(Section(true, false))
    else if w == ".endcode" then Some(sec.(inCode := false))
    else if w == ".data" then Some(Section(false, true))
    else if w == ".enddata" then Some(sec.(inData := false))
    else None
  }

  /** The label a token such as `loop:` declares: the text before its first `:`. */
  function LabelName(w: string): string
    requires ':' in w
  {
    w[..IndexOf(w, ':')]
  }

  /** The first pass's state: the flags, `mapa_labels`, and the code lines counted so far. */
  datatype LabelScan = LabelScan(section: Section, labels: seq<Binding>, count: nat)

  /** One line of the first pass. */
  function ScanLine(s: LabelScan, line: string): LabelScan {
    var ts := LineTokens(line);
    if Skipped(ts) then s
    else match Marker(s.section, ts[0]) {
      case Some(sec) => s.(section := sec)
      case None =>
        if !s.section.inCode then s
        else if ':' in ts[0] then
          var named := s.(labels := s.labels + [Binding(LabelName(ts[0]), s.count)]);
          if |ts| < 2 then named else named.(count := s.count + 1)
        else s.(count := s.count + 1)
    }
  }

  function ScanFrom(s: LabelScan, lines: seq<string>): LabelScan
    decreases |lines|
  {
    if lines == [] then s else ScanFrom(ScanLine(s, lines[0]), lines[1..])
  }

  /** The first pass: every label with the number of code lines before it. */
  function ScanLabels(lines: seq<string>): LabelScan {
    ScanFrom(LabelScan(Outside, [], 0), lines)
  }

  /**
   * The instruction the second pass builds from an opcode and its operand
   * token, if any: an immediate is always 0 (its token is never read), a
   * STORE names a variable or has none, a branch names a label or has none.
   */
  function Assemble(op: Opcode, operand: Option<string>): (instr: Instruction)
    ensures Unresolved(instr)
    ensures instr.opcode == op && (operand.None? <==> instr.kind == Immediate)
  {
    match operand
    case None => Instruction(op, Immediate, 0, "")
    case Some(w) =>
      if IsBranch(op) then Instruction(op, LabelRef, 0, w)
      else if op == Syscall then Instruction(op, SyscallValue, Atoi(w), "")
      else Instruction(op, Direct, 0, w)
  }

  /** The second pass's state: the flags, the instructions, `mapa_variaveis` and `memoria_dados`. */
  datatype Assembly = Assembly(section: Section, code: seq<Instruction>, variables: seq<Binding>, values: seq<int>)

  /**
   * One line of the second pass. An operand token starting with `#` is
   * dropped as a comment. A data line without a value is refused: `atoi`
   * of a missing token is undefined in C.
   */
  function AssembleLine(s: Assembly, line: string): Option<Assembly> {
    var ts := LineTokens(line);
    if Skipped(ts) then Some(s)
    else match Marker(s.section, ts[0]) {
      case Some(sec) => Some(s.(section := sec))
      case None =>
        if s.section.inCode then
          var rest := if ':' in ts[0] then ts[1..] else ts;
          if rest == [] then Some(s)
          else
            var operand := if |rest| > 1 && rest[1][0] != '#' then Some(rest[1]) else None;
            Some(s.(code := s.code + [Assemble(DecodeOpcode(rest[0]), operand)]))
        else if s.section.inData then
          if |ts| < 2 then None
          else Some(s.(variables := s.variables + [Binding(ts[0], |s.variables|)], values := s.values + [Atoi(ts[1])]))
        else Some(s)
    }
  }

  function AssembleFrom(s: Assembly, lines: seq<string>): Option<Assembly>
    decreases |lines|
  {
    if lines == [] then Some(s)
    else match AssembleLine(s, lines[0]) {
      case None => None
      case Some(s') => AssembleFrom(s', lines[1..])
    }
  }

  /** The second pass. */
  function AssembleLines(lines: seq<string>): Option<Assembly> {
    AssembleFrom(Assembly(Outside, [], [], []), lines)
  }

  /** Why loading fails. */
  datatype LoadError = MissingValue | UndeclaredVariable(name: string) | UndeclaredLabel(name: string)

  /** The third pass on one instruction. */
  function ResolveInstruction(instr: Instruction, variables: seq<Binding>, labels: seq<Binding>): Result<Instruction, LoadError> {
    match instr.kind
    case Direct =>
      var k := Lookup(variables, instr.name);
      if k == -1 then Failure(UndeclaredVariable(instr.name)) else Success(instr.(value := k))
    case LabelRef =>
      var k := Lookup(labels, instr.name);
      if k == -1 then Failure(UndeclaredLabel(instr.name)) else Success(instr.(value := k))
    case _ => Success(instr)
  }

  /** The third pass: the first unresolved name, in program order, fails the load. */
  function ResolveAll(code: seq<Instruction>, variables: seq<Binding>, labels: seq<Binding>): (r: Result<seq<Instruction>, LoadError>)
    ensures r.Success? ==> |r.value| == |code|
  {
    if code == [] then Success([])
    else match ResolveInstruction(code[0], variables, labels) {
      case Failure(e) => Failure(e)
      case Success(i) =>
        match ResolveAll(code[1..], variables, labels) {
          case Failure(e) => Failure(e)
          case Success(rest) => Success([i] + rest)
        }
    }
  }

  /** A loaded program: the PCB's code, variable map, label map and initial data. */
  datatype Program = Program(code: seq<Instruction>, variables: seq<Binding>, labels: seq<Binding>, values: seq<int>)

  /** The three passes. */
  function LoadLines(lines: seq<string>): Result<Program, LoadError> {
    var labels := ScanLabels(lines).labels;
    match AssembleLines(lines)
    case None => Failure(MissingValue)
    case Some(a) =>
      match ResolveAll(a.code, a.variables, labels)
      case Failure(e) => Failure(e)
      case Success(code) => Success(Program(code, a.variables, labels, a.values))
  }

  // ---------------------------------------------------------------------
  // What a loaded program looks like

  /**
   * An instruction the executor can run without leaving `memoria_dados`
   * (of `size` slots) or jumping to a negative line.
   */
  predicate InBounds(instr: Instruction, size: int) {
    && (instr.kind == Direct || instr.opcode == Store ==> 0 <= instr.value < size)
    && (IsBranch(instr.opcode) ==> instr.value >= 0)
  }

  /** An instruction as the second pass leaves it, before any name is resolved to an index. */
  predicate Unresolved(instr: Instruction) {
    && (instr.kind == Immediate ==> instr.value == 0)
    && (instr.opcode == Store ==> instr.kind in {Immediate, Direct})
    && (IsBranch(instr.opcode) ==> instr.kind in {Immediate, LabelRef})
  }

  /** What the second pass builds: slots numbered in order and one value each, never a resolved index. */
  predicate Assembled(a: Assembly) {
    && |a.values| == |a.variables|
    && (forall i :: 0 <= i < |a.variables| ==> a.variables[i].index == i)
    && (forall i :: 0 <= i < |a.code| ==> Unresolved(a.code[i]))
  }

  lemma AssembleLineKeeps(s: Assembly, line: string)
    requires Assembled(s)
    ensures AssembleLine(s, line).Some? ==> Assembled(AssembleLine(s, line).value)
  {
    var ts := LineTokens(line);
    if !Skipped(ts) && Marker(s.section, ts[0]).None? && s.section.inCode {
      var rest := if ':' in ts[0] then ts[1..] else ts;
      if rest != [] {
        var operand := if |rest| > 1 && rest[1][0] != '#' then Some(rest[1]) else None;
        var instr := Assemble(DecodeOpcode(rest[0]), operand);
        var code := s.code + [instr];
        assert AssembleLine(s, line).value.code == code;
        forall i | 0 <= i < |code|
          ensures Unresolved(code[i])
        {
          if i < |s.code| {
            assert code[i] == s.code[i];
          }
        }
      }
    }
  }

  lemma {:induction false} AssembleFromKeeps(s: Assembly, lines: seq<string>)
    requires Assembled(s)
    ensures AssembleFrom(s, lines).Some? ==> Assembled(AssembleFrom(s, lines).value)
    decreases |lines|
  {
    if lines != [] {
      AssembleLineKeeps(s, lines[0]);
      if AssembleLine(s, lines[0]).Some? {
        AssembleFromKeeps(AssembleLine(s, lines[0]).value, lines[1..]);
      }
    }
  }

  /** The two passes agree: flags move alike and the first counts the lines the second assembles. */
  predicate InStep(s: LabelScan, a: Assembly) {
    s.section == a.section && s.count == |a.code|
  }

  /** Every label found so far stands at or before the next code line. */
  predicate LabelsBelow(s: LabelScan) {
    forall i :: 0 <= i < |s.labels| ==> 0 <= s.labels[i].index <= s.count
  }

  lemma ScanAssembleLine(s: LabelScan, a: Assembly, line: string)
    requires InStep(s, a)
    ensures AssembleLine(a, line).Some? ==> InStep(ScanLine(s, line), AssembleLine(a, line).value)
  {
  }

  /** A line of the first pass keeps the labels at or before the count. */
  lemma ScanLineBelow(s: LabelScan, line: string)
    requires LabelsBelow(s)
    ensures LabelsBelow(ScanLine(s, line))
  {
    var s' := ScanLine(s, line);
    assert s'.count >= s.count;
    assert |s'.labels| >= |s.labels|;
    forall i | 0 <= i < |s'.labels|
      ensures 0 <= s'.labels[i].index <= s'.count
    {
      if i < |s.labels| {
        assert s'.labels[i] == s.labels[i];
      }
    }
  }

  lemma {:induction false} ScanAssembleFrom(s: LabelScan, a: Assembly, lines: seq<string>)
    requires InStep(s, a) && LabelsBelow(s)
    ensures AssembleFrom(a, lines).Some? ==>
      InStep(ScanFrom(s, lines), AssembleFrom(a, lines).value) && LabelsBelow(ScanFrom(s, lines))
    decreases |lines|
  {
    if lines != [] {
      ScanAssembleLine(s, a, lines[0]);
      var a' := AssembleLine(a, lines[0]);
      if a'.Some? {
        var s' := ScanLine(s, lines[0]);
        ScanLineBelow(s, lines[0]);
        ScanAssembleFrom(s', a'.value, lines[1..]);
        assert ScanFrom(s, lines) == ScanFrom(s', lines[1..]);
        assert AssembleFrom(a, lines) == AssembleFrom(a'.value, lines[1..]);
      }
    }
  }

  lemma {:induction false} ResolveAllResolves(code: seq<Instruction>, variables: seq<Binding>, labels: seq<Binding>)
    requires ResolveAll(code, variables, labels).Success?
    ensures var r := ResolveAll(code, variables, labels).value;
      forall i :: 0 <= i < |code| ==>
        && r[i].opcode == code[i].opcode && r[i].kind == code[i].kind
        && (code[i].kind == Direct ==> r[i].value == Lookup(variables, code[i].name) != -1)
        && (code[i].kind == LabelRef ==> r[i].value == Lookup(labels, code[i].name) != -1)
        && (code[i].kind !in {Direct, LabelRef} ==> r[i] == code[i])
  {
    if code != [] {
      ResolveAllResolves(code[1..], variables, labels);
      var r := ResolveAll(code, variables, labels).value;
      var rest := ResolveAll(code[1..], variables, labels).value;
      assert r == [ResolveInstruction(code[0], variables, labels).value] + rest;
      forall i | 1 <= i < |code|
        ensures r[i] == rest[i - 1]
      {
      }
    }
  }

  /** A name that resolves is declared, and resolves to its first declaration's index. */
  lemma LookupFindsFirst(m: seq<Binding>, name: string)
    requires forall i :: 0 <= i < |m| ==> m[i].index >= 0
    ensures Lookup(m, name) == -1 <==> forall i :: 0 <= i < |m| ==> m[i].name != name
    ensures Lookup(m, name) != -1 ==>
      exists i :: 0 <= i < |m| && m[i].name == name && m[i].index == Lookup(m, name) &&
        forall j :: 0 <= j < i ==> m[j].name != name
  {
    if FirstNamed(m, name).Some? {
      var i := FirstNamed(m, name).value;
      assert m[i].index >= 0;
    }
  }

  /** One resolved instruction of an assembled program stays within its data and code. */
  lemma ResolvedInBounds(k: nat, r: Instruction, a: Assembly, labels: seq<Binding>)
    requires Assembled(a) && k < |a.code|
    requires forall i :: 0 <= i < |labels| ==> 0 <= labels[i].index <= |a.code|
    requires r.opcode == a.code[k].opcode && r.kind == a.code[k].kind
    requires a.code[k].kind == Direct ==> r.value == Lookup(a.variables, a.code[k].name) != -1
    requires a.code[k].kind == LabelRef ==> r.value == Lookup(labels, a.code[k].name) != -1
    requires a.code[k].kind !in {Direct, LabelRef} ==> r == a.code[k]
    ensures r.kind == Direct ==> 0 <= r.value < |a.variables|
    ensures r.opcode == Store ==> r.kind == Direct || r.value == 0
    ensures IsBranch(r.opcode) ==> 0 <= r.value <= |a.code|
    ensures r.kind == Immediate ==> r.value == 0
  {
    var c := a.code[k];
    assert c.opcode == Store ==> c.kind in {Immediate, Direct};
    if c.kind == Direct {
      var k := FirstNamed(a.variables, c.name).value;
      assert r.value == a.variables[k].index == k;
    } else if c.kind == LabelRef {
      var k := FirstNamed(labels, c.name).value;
      assert r.value == labels[k].index;
    }
  }

  /**
   * A program that loads runs within its data and code: direct operands
   * name one of its variables' slots, a store without one writes slot 0,
   * branches name a line between 0 and the number of instructions, and
   * every immediate is 0 (a `#n` operand was dropped as a comment).
   */
  lemma LoadedInBounds(lines: seq<string>)
    requires LoadLines(lines).Success?
    ensures var p := LoadLines(lines).value;
      && |p.values| == |p.variables|
      && (forall i :: 0 <= i < |p.variables| ==> p.variables[i].index == i)
      && (forall i :: 0 <= i < |p.labels| ==> 0 <= p.labels[i].index <= |p.code|)
      && (forall i :: 0 <= i < |p.code| ==> p.code[i].kind == Direct ==> 0 <= p.code[i].value < |p.variables|)
      && (forall i :: 0 <= i < |p.code| ==> p.code[i].opcode == Store ==> p.code[i].kind == Direct || p.code[i].value == 0)
      && (forall i :: 0 <= i < |p.code| ==> IsBranch(p.code[i].opcode) ==> 0 <= p.code[i].value <= |p.code|)
      && (forall i :: 0 <= i < |p.code| ==> p.code[i].kind == Immediate ==> p.code[i].value == 0)
  {
    var a := AssembleLines(lines).value;
    var scan := ScanLabels(lines);
    AssembleFromKeeps(Assembly(Outside, [], [], []), lines);
    ScanAssembleFrom(LabelScan(Outside, [], 0), Assembly(Outside, [], [], []), lines);
    assert Assembled(a) && InStep(scan, a);
    ResolveAllResolves(a.code, a.variables, scan.labels);
    var code := ResolveAll(a.code, a.variables, scan.labels).value;
    assert LoadLines(lines).value == Program(code, a.variables, scan.labels, a.values);
    forall i | 0 <= i < |code|
      ensures code[i].kind == Direct ==> 0 <= code[i].value < |a.variables|
      ensures code[i].opcode == Store ==> code[i].kind == Direct || code[i].value == 0
      ensures IsBranch(code[i].opcode) ==> 0 <= code[i].value <= |code|
      ensures code[i].kind == Immediate ==> code[i].value == 0
    {
      ResolvedInBounds(i, code[i], a, scan.labels);
    }
  }

  // ---------------------------------------------------------------------
  // The passes as `carregar_programa` runs them, line by line

  /** The first pass's loop: labels and the count of code lines before each. */
  method ScanLabelsPass(lines: seq<string>) returns (labels: seq<Binding>, count: nat)
    ensures LabelScan(ScanLabels(lines).section, labels, count) == ScanLabels(lines)
  {
    var inCode, inData := false, false;
    labels, count := [], 0;
    var i := 0;
    while i < |lines|
      invariant 0 <= i <= |lines|
      invariant ScanFrom(LabelScan(Section(inCode, inData), labels, count), lines[i..]) == ScanLabels(lines)
    {
      assert lines[i..][1..] == lines[i + 1..];
      inCode, inData, labels, count := ScanLineStep(inCode, inData, labels, count, lines[i]);
      i := i + 1;
    }
  }

  /** The body of the first pass's loop, on one line. */
  method ScanLineStep(inCode: bool, inData: bool, labels: seq<Binding>, count: nat, line: string)
    returns (inCode': bool, inData': bool, labels': seq<Binding>, count': nat)
    ensures LabelScan(Section(inCode', inData'), labels', count') == ScanLine(LabelScan(Section(inCode, inData), labels, count), line)
  {
    inCode', inData', labels', count' := inCode, inData, labels, count;
    var ts := LineTokens(line);
    if ts == [] || ts[0][0] == '#' {
    } else if ts[0] == ".code" {
      inCode', inData' := true, false;
    } else if ts[0] == ".endcode" {
      inCode' := false;
    } else if ts[0] == ".data" {
      inData', inCode' := true, false;
    } else if ts[0] == ".enddata" {
      inData' := false;
    } else if inCode {
      if ':' in ts[0] {
        labels' := labels + [Binding(LabelName(ts[0]), count)];
        if |ts| >= 2 {
          count' := count + 1;
        }
      } else {
        count' := count + 1;
      }
    }
  }

  /** The second pass's loop: instructions, variables and their values; `None` for a data line without a value. */
  method AssemblePass(lines: seq<string>) returns (r: Option<Assembly>)
    ensures r == AssembleLines(lines)
  {
    var s := Assembly(Outside, [], [], []);
    var i := 0;
    while i < |lines|
      invariant 0 <= i <= |lines|
      invariant AssembleFrom(s, lines[i..]) == AssembleLines(lines)
    {
      assert lines[i..][1..] == lines[i + 1..];
      var next := AssembleLinePass(s, lines[i]);
      if next.None? {
        return None;
      }
      s := next.value;
      i := i + 1;
    }
    r := Some(s);
  }

  /** The second pass's body on one line. */
  method AssembleLinePass(s: Assembly, line: string) returns (r: Option<Assembly>)
    ensures r == AssembleLine(s, line)
  {
    var ts := LineTokens(line);
    if ts == [] || ts[0][0] == '#' {
      return Some(s);
    }
    if ts[0] == ".code" {
      return Some(s.(section := Section(true, false)));
    }
    if ts[0] == ".endcode" {
      return Some(s.(section := s.section.(inCode := false)));
    }
    if ts[0] == ".data" {
      return Some(s.(section := Section(false, true)));
    }
    if ts[0] == ".enddata" {
      return Some(s.(section := s.section.(inData := false)));
    }
    if s.section.inCode {
      var rest := if ':' in ts[0] then ts[1..] else ts;
      if rest == [] {
        return Some(s);
      }
      var op := StringToOpcode(rest[0]);
      var operand := if |rest| > 1 && rest[1][0] != '#' then Some(rest[1]) else None;
      return Some(s.(code := s.code + [Assemble(op, operand)]));
    }
    if s.section.inData {
      if |ts| < 2 {
        return None;
      }
      return Some(s.(variables := s.variables + [Binding(ts[0], |s.variables|)], values := s.values + [Atoi(ts[1])]));
    }
    return Some(s);
  }

  /** `resolved` followed by what resolving the rest gives, or the rest's failure. */
  function Prepend(resolved: seq<Instruction>, r: Result<seq<Instruction>, LoadError>): Result<seq<Instruction>, LoadError> {
    match r
    case Success(rest) => Success(resolved + rest)
    case Failure(e) => Failure(e)
  }

  /** The third pass's loop: every direct operand and label resolved, stopping at the first that is not declared. */
  method ResolvePass(code: seq<Instruction>, variables: seq<Binding>, labels: seq<Binding>)
    returns (r: Result<seq<Instruction>, LoadError>)
    ensures r == ResolveAll(code, variables, labels)
  {
    var resolved := [];
    var i := 0;
    assert code[i..] == code;
    match ResolveAll(code, variables, labels) {
      case Success(all) => assert [] + all == all;
      case Failure(_) =>
    }
    while i < |code|
      invariant 0 <= i <= |code|
      invariant Prepend(resolved, ResolveAll(code[i..], variables, labels)) == ResolveAll(code, variables, labels)
    {
      assert code[i..][0] == code[i] && code[i..][1..] == code[i + 1..];
      var instr := code[i];
      if instr.kind == Direct {
        var k := ResolveName(variables, instr.name);
        if k == -1 {
          return Failure(UndeclaredVariable(instr.name));
        }
        instr := instr.(value := k);
      } else if instr.kind == LabelRef {
        var k := ResolveName(labels, instr.name);
        if k == -1 {
          return Failure(UndeclaredLabel(instr.name));
        }
        instr := instr.(value := k);
      }
      match ResolveAll(code[i + 1..], variables, labels) {
        case Success(rest) => assert resolved + ([instr] + rest) == (resolved + [instr]) + rest;
        case Failure(_) =>
      }
      resolved := resolved + [instr];
      i := i + 1;
    }
    assert resolved + [] == resolved;
    r := Success(resolved);
  }

  /** The three passes, in order. */
  method LoadPasses(lines: seq<string>) returns (r: Result<Program, LoadError>)
    ensures r == LoadLines(lines)
  {
    var labels, _ := ScanLabelsPass(lines);
    var assembled := AssemblePass(lines);
    if assembled.None? {
      return Failure(MissingValue);
    }
    var a := assembled.value;
    var code := ResolvePass(a.code, a.variables, labels);
    if code.Failure? {
      return Failure(code.error);
    }
    r := Success(Program(code.value, a.variables, labels, a.values));
  }
}
