/**
 * Program text of the Java and JavaScript simulators: which lines count,
 * how `.code` lines become instructions and labels, how `.data` lines become
 * variables. `Parse` is the reference the interpreter's `ParseProgram` loop
 * is proved against.
 */
module AsmSyntax {
  import opened Wrappers
  import opened Text

  /** The two ports of the interpreter, table and scheduler. */
  datatype Dialect = Java | Js

  /** What an interpreter step or a parse can throw. */
  datatype Fault =
    | UndefinedVariable(name: string)
    | DivisionByZero
    | InvalidOperand(operand: string)
    | UndefinedLabel(target: Option<string>)
    | UnknownInstruction(opcode: string)
    | MissingOperand
    | NumberFormat(text: Option<string>)
    | PcOutOfRange(pc: int)

  /** What a parse builds: instructions, label to instruction index, variable to value. */
  datatype Image = Image(code: seq<string>, labels: map<string, int>, data: map<string, int>)

  /** Where the parser is (the two section flags) and what it has built so far. */
  datatype Cursor = Cursor(inCode: bool, inData: bool, image: Image)

  const EmptyImage := Image([], map[], map[])
  const Start := Cursor(false, false, EmptyImage)

  // ---------------------------------------------------------------------
  // The lines that reach the section loop

  /** A line the first loop keeps: trimmed, non-empty, not a `#` comment. */
  predicate IsSourceLine(line: string) {
    line != [] && line[0] != '#' && IsTrimmed(line)
  }

  /** The first loop: trim every raw line, drop blank lines and comments. */
  function KeptLines(raw: seq<string>): (kept: seq<string>)
    ensures |kept| <= |raw|
    ensures forall i :: 0 <= i < |kept| ==> IsSourceLine(kept[i])
  {
    if raw == [] then []
    else
      var t := Trim(raw[|raw| - 1]);
      KeptLines(raw[..|raw| - 1]) + (if t != [] && t[0] != '#' then [t] else [])
  }

  /** Nothing else is dropped: every raw line whose trimmed form is kept shows up. */
  lemma {:induction false} KeptLinesComplete(raw: seq<string>, r: string)
    requires r in raw && Trim(r) != [] && Trim(r)[0] != '#'
    ensures Trim(r) in KeptLines(raw)
  {
    var last := raw[|raw| - 1];
    if r != last {
      assert r in raw[..|raw| - 1] by {
        var i :| 0 <= i < |raw| && raw[i] == r;
        assert raw[..|raw| - 1][i] == r;
      }
      KeptLinesComplete(raw[..|raw| - 1], r);
    }
  }

  /** And every kept line is the trimmed form of some raw line. */
  lemma {:induction false} KeptLinesSound(raw: seq<string>, k: string)
    requires k in KeptLines(raw)
    ensures exists r :: r in raw && Trim(r) == k
  {
    var prefix := raw[..|raw| - 1];
    var t := Trim(raw[|raw| - 1]);
    if k in KeptLines(prefix) {
      KeptLinesSound(prefix, k);
      var r :| r in prefix && Trim(r) == k;
      assert r in raw by {
        var i :| 0 <= i < |prefix| && prefix[i] == r;
        assert raw[i] == r;
      }
    } else {
      assert k == t;
      assert raw[|raw| - 1] in raw;
    }
  }

  /** `programText.split("\n")`, trimmed and filtered. */
  function SourceLines(text: string): seq<string> {
    KeptLines(SplitOn(text, '\n'))
  }

  // ---------------------------------------------------------------------
  // One line of the section loop

  predicate IsMarker(line: string, marker: string) {
    SameIgnoringCase(line, marker)
  }

  /**
   * A `label: instruction` line cut at its colons. Java keeps everything
   * after the first colon (`split(":", 2)`); JavaScript keeps only the text
   * between the first and the second colon (`split(':')`, first two parts).
   */
  function SplitLabel(d: Dialect, line: string): (parts: (string, string))
    requires ':' in line
    ensures IsTrimmed(parts.0) && IsTrimmed(parts.1)
  {
    var k := IndexOf(line, ':');
    match d
    case Java => (Trim(line[..k]), Trim(line[k + 1..]))
    case Js =>
      var pieces := SplitOn(line, ':');
      (Trim(pieces[0]), Trim(pieces[1]))
  }

  lemma SplitOnFirstTwo(s: string, sep: char)
    requires sep in s
    ensures var k := IndexOf(s, sep); var rest := s[k + 1..];
      && |SplitOn(s, sep)| >= 2
      && SplitOn(s, sep)[0] == s[..k]
      && SplitOn(s, sep)[1] == (if sep in rest then rest[..IndexOf(rest, sep)] else rest)
  {
    var k := IndexOf(s, sep);
    var rest := s[k + 1..];
    assert SplitOn(s, sep) == [s[..k]] + SplitOn(rest, sep);
    if sep in rest {
      assert SplitOn(rest, sep) == [rest[..IndexOf(rest, sep)]] + SplitOn(rest[IndexOf(rest, sep) + 1..], sep);
    } else {
      assert SplitOn(rest, sep) == [rest];
    }
  }

  /** With a single colon in the line both ports cut it the same way. */
  lemma SplitLabelSingleColon(line: string)
    requires ':' in line && ':' !in line[IndexOf(line, ':') + 1..]
    ensures SplitLabel(Java, line) == SplitLabel(Js, line)
  {
    SplitOnFirstTwo(line, ':');
  }

  /** With a second colon JavaScript drops what follows it; Java keeps it. */
  lemma SplitLabelSecondColon(line: string)
    requires ':' in line && ':' in line[IndexOf(line, ':') + 1..]
    ensures var rest := line[IndexOf(line, ':') + 1..];
      && SplitLabel(Js, line).1 == Trim(rest[..IndexOf(rest, ':')])
      && SplitLabel(Java, line).1 == Trim(rest)
  {
    SplitOnFirstTwo(line, ':');
  }

  /** A line inside `.code`: a label records the index the next instruction will get. */
  function CodeLine(d: Dialect, img: Image, line: string): Image {
    if ':' in line then
      var (name, instruction) := SplitLabel(d, line);
      img.(labels := img.labels[name := |img.code|],
           code := if instruction != [] then img.code + [instruction] else img.code)
    else
      img.(code := img.code + [line])
  }

  /** A line inside `.data`: `name value` binds a variable, a shorter line is skipped. */
  function DataLine(img: Image, line: string): Result<Image, Fault> {
    var parts := Tokens(line, Blanks);
    if |parts| >= 2 then
      match ParseInt(parts[1])
      case Some(v) => Success(img.(data := img.data[parts[0] := v]))
      case None => Failure(NumberFormat(Some(parts[1])))
    else
      Success(img)
  }

  /** One iteration of the section loop. */
  function ParseLine(d: Dialect, c: Cursor, line: string): Result<Cursor, Fault> {
    if IsMarker(line, ".code") then Success(c.(inCode := true, inData := false))
    else if IsMarker(line, ".endcode") then Success(c.(inCode := false))
    else if IsMarker(line, ".data") then Success(c.(inData := true, inCode := false))
    else if IsMarker(line, ".enddata") then Success(c.(inData := false))
    else if c.inCode then Success(c.(image := CodeLine(d, c.image, line)))
    else if c.inData then
      match DataLine(c.image, line)
      case Success(img) => Success(c.(image := img))
      case Failure(f) => Failure(f)
    else Success(c)
  }

  /** The cursor reached, and the fault that stopped the loop early if any. */
  datatype Parsed = Parsed(cursor: Cursor, fault: Option<Fault>)

  function ParseFrom(d: Dialect, lines: seq<string>, c: Cursor): Parsed
    decreases |lines|
  {
    if lines == [] then Parsed(c, None)
    else
      match ParseLine(d, c, lines[0])
      case Failure(f) => Parsed(c, Some(f))
      case Success(next) => ParseFrom(d, lines[1..], next)
  }

  /** `parseProgram`: the kept lines run through the section loop from the start. */
  function Parse(d: Dialect, text: string): Parsed {
    ParseFrom(d, SourceLines(text), Start)
  }

  // ---------------------------------------------------------------------
  // What a parse guarantees

  /** Section markers, in any case, build nothing. */
  lemma MarkersBuildNothing(d: Dialect, c: Cursor, line: string)
    requires IsMarker(line, ".code") || IsMarker(line, ".endcode")
          || IsMarker(line, ".data") || IsMarker(line, ".enddata")
    ensures ParseLine(d, c, line).Success?
    ensures ParseLine(d, c, line).value.image == c.image
  {
  }

  /**
   * In `.code`, a label maps to the number of instructions emitted so far,
   * which is the index of the next one; a line holding only a label emits
   * nothing.
   */
  lemma LabelNamesNextIndex(d: Dialect, img: Image, line: string)
    requires ':' in line
    ensures var out := CodeLine(d, img, line);
      && SplitLabel(d, line).0 in out.labels
      && out.labels[SplitLabel(d, line).0] == |img.code|
      && (SplitLabel(d, line).1 == [] ==> out.code == img.code)
      && (SplitLabel(d, line).1 != [] ==> out.code == img.code + [SplitLabel(d, line).1])
  {
  }

  /** In `.data`, two or more tokens bind the first to the second's value; fewer are skipped. */
  lemma DataLineBinds(img: Image, line: string)
    ensures var parts := Tokens(line, Blanks);
      && (|parts| < 2 ==> DataLine(img, line) == Success(img))
      && (|parts| >= 2 && ParseInt(parts[1]).Some? ==>
            DataLine(img, line).Success?
            && DataLine(img, line).value.data == img.data[parts[0] := ParseInt(parts[1]).value]
            && DataLine(img, line).value.code == img.code)
  {
  }

  /** Every label points at an instruction or just past the last one. */
  predicate LabelsInRange(img: Image) {
    forall l :: l in img.labels ==> 0 <= img.labels[l] <= |img.code|
  }

  /** Every instruction is a trimmed, non-empty line. */
  predicate CodeTrimmed(img: Image) {
    forall i :: 0 <= i < |img.code| ==> img.code[i] != [] && IsTrimmed(img.code[i])
  }

  predicate WellFormed(img: Image) {
    LabelsInRange(img) && CodeTrimmed(img)
  }

  /** A `.code` line appends a trimmed instruction, or records a label within the code, or both. */
  lemma CodeLineKeepsWellFormed(d: Dialect, img: Image, line: string)
    requires WellFormed(img) && IsSourceLine(line)
    ensures WellFormed(CodeLine(d, img, line)) && img.code <= CodeLine(d, img, line).code
  {
    var out := CodeLine(d, img, line);
    var added := if ':' in line then SplitLabel(d, line).1 else line;
    assert IsTrimmed(added);
    assert out.code == img.code + (if added != [] then [added] else []);
    forall i | 0 <= i < |out.code|
      ensures out.code[i] != [] && IsTrimmed(out.code[i])
    {
      if i < |img.code| {
        assert out.code[i] == img.code[i];
      }
    }
    forall l | l in out.labels
      ensures 0 <= out.labels[l] <= |out.code|
    {
      if l in img.labels && (':' !in line || l != SplitLabel(d, line).0) {
        assert out.labels[l] == img.labels[l];
      }
    }
  }

  /** A `.data` line touches neither code nor labels. */
  lemma DataLineKeepsCode(img: Image, line: string)
    requires DataLine(img, line).Success?
    ensures DataLine(img, line).value.code == img.code && DataLine(img, line).value.labels == img.labels
  {
  }

  lemma ParseLineKeepsWellFormed(d: Dialect, c: Cursor, line: string)
    requires WellFormed(c.image) && IsSourceLine(line)
    requires ParseLine(d, c, line).Success?
    ensures WellFormed(ParseLine(d, c, line).value.image)
    ensures c.image.code <= ParseLine(d, c, line).value.image.code
  {
    if IsMarker(line, ".code") || IsMarker(line, ".endcode") || IsMarker(line, ".data") || IsMarker(line, ".enddata") {
    } else if c.inCode {
      CodeLineKeepsWellFormed(d, c.image, line);
    } else if c.inData {
      DataLineKeepsCode(c.image, line);
    }
  }

  /**
   * Wherever the loop stops, what was built is well formed, and the
   * instructions built before were only ever extended.
   */
  lemma {:induction false} ParseFromWellFormed(d: Dialect, lines: seq<string>, c: Cursor)
    requires WellFormed(c.image)
    requires forall i :: 0 <= i < |lines| ==> IsSourceLine(lines[i])
    ensures WellFormed(ParseFrom(d, lines, c).cursor.image)
    ensures c.image.code <= ParseFrom(d, lines, c).cursor.image.code
    decreases |lines|
  {
    if lines != [] {
      match ParseLine(d, c, lines[0])
      case Failure(f) =>
      case Success(next) =>
        ParseLineKeepsWellFormed(d, c, lines[0]);
        ParseFromWellFormed(d, lines[1..], next);
    }
  }

  /** A parsed program's labels are all within its code, and its instructions are trimmed. */
  lemma ParseWellFormed(d: Dialect, text: string)
    ensures WellFormed(Parse(d, text).cursor.image)
  {
    ParseFromWellFormed(d, SourceLines(text), Start);
  }
}
