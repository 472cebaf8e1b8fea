/**
 * The instruction set the three simulators share: opcode mnemonics (read
 * case-insensitively) and the two ways of rounding DIV.
 */
module Isa {
  import opened Text

  datatype Opcode =
    | Add | Sub | Mult | Div | Load | Store
    | BrAny | BrPos | BrZero | BrNeg
    | Syscall
    | Invalid

  predicate IsBranch(op: Opcode) {
    op == BrAny || op == BrPos || op == BrZero || op == BrNeg
  }

  /** How an opcode is spelled in program text. */
  function Mnemonic(op: Opcode): string
    requires op != Invalid
  {
    match op
    case Add => "ADD"
    case Sub => "SUB"
    case Mult => "MULT"
    case Div => "DIV"
    case Load => "LOAD"
    case Store => "STORE"
    case BrAny => "BRANY"
    case BrPos => "BRPOS"
    case BrZero => "BRZERO"
    case BrNeg => "BRNEG"
    case Syscall => "SYSCALL"
  }

  /**
   * The opcode a word names, compared after upper-casing; any other word is
   * `Invalid` (the Java and JavaScript `default:` case, C's `INVALIDO`).
   */
  function DecodeOpcode(word: string): Opcode {
    var w := ToUpper(word);
    if w == "ADD" then Add
    else if w == "SUB" then Sub
    else if w == "MULT" then Mult
    else if w == "DIV" then Div
    else if w == "LOAD" then Load
    else if w == "STORE" then Store
    else if w == "BRANY" then BrAny
    else if w == "BRPOS" then BrPos
    else if w == "BRZERO" then BrZero
    else if w == "BRNEG" then BrNeg
    else if w == "SYSCALL" then Syscall
    else Invalid
  }

  lemma UpperOfUpperLetters(s: string)
    requires forall i :: 0 <= i < |s| ==> 'A' <= s[i] <= 'Z'
    ensures ToUpper(s) == s
  {
  }

  /** Every mnemonic decodes to its own opcode. */
  lemma DecodeMnemonic(op: Opcode)
    requires op != Invalid
    ensures DecodeOpcode(Mnemonic(op)) == op
  {
    UpperOfUpperLetters(Mnemonic(op));
  }

  /** A word that decodes is, upper-cased, exactly the opcode's mnemonic. */
  lemma DecodedWordIsMnemonic(word: string)
    ensures DecodeOpcode(word) != Invalid ==> ToUpper(word) == Mnemonic(DecodeOpcode(word))
  {
  }

  /** Case does not matter: `add`, `Add` and `ADD` decode alike. */
  lemma DecodeIgnoresCase(word: string)
    ensures DecodeOpcode(ToLower(word)) == DecodeOpcode(word)
    ensures DecodeOpcode(ToUpper(word)) == DecodeOpcode(word)
  {
    UpperForgetsCase(word);
  }

  // ---------------------------------------------------------------------
  // Division

  function Abs(x: int): nat {
    if x < 0 then -x else x
  }

  /** Java's and C's integer `/`: the remainder takes the sign of the dividend. */
  function TruncDiv(a: int, b: int): (q: int)
    requires b != 0
    ensures Abs(a - q * b) < Abs(b)
    ensures a - q * b == 0 || (a - q * b < 0) == (a < 0)
  {
    var m := Abs(a) / Abs(b);
    if (a < 0) == (b < 0) then m else -m
  }

  /** JavaScript's `Math.floor(a / b)`: the remainder takes the sign of the divisor. */
  function FloorDiv(a: int, b: int): (q: int)
    requires b != 0
    ensures Abs(a - q * b) < Abs(b)
    ensures a - q * b == 0 || (a - q * b < 0) == (b < 0)
  {
    if b > 0 then a / b else (-a) / (-b)
  }

  /**
   * The two roundings agree unless the division is inexact and the operands
   * have opposite signs; then flooring gives one less.
   */
  lemma FloorVersusTrunc(a: int, b: int)
    requires b != 0
    ensures FloorDiv(a, b) == TruncDiv(a, b) - (if a - TruncDiv(a, b) * b != 0 && (a < 0) != (b < 0) then 1 else 0)
  {
    var t, f := TruncDiv(a, b), FloorDiv(a, b);
    var rt, rf := a - t * b, a - f * b;
    assert rt - rf == (f - t) * b;
    var k := f - t;
    SmallMultiple(k, b, rt - rf);
  }

  /** A multiple of `b` smaller than twice `b` is `-b`, `0` or `b`. */
  lemma SmallMultiple(k: int, b: int, d: int)
    requires b != 0 && d == k * b && Abs(d) < 2 * Abs(b)
    ensures k == -1 || k == 0 || k == 1
    ensures d == if k == -1 then -b else if k == 0 then 0 else b
  {
    if k >= 2 || k <= -2 {
      AtLeastTwice(k, b);
    }
  }

  lemma AtLeastTwice(k: int, b: int)
    requires b != 0 && (k >= 2 || k <= -2)
    ensures Abs(k * b) >= 2 * Abs(b)
  {
    if k >= 2 {
      if b > 0 { assert k * b == 2 * b + (k - 2) * b; } else { assert k * b == 2 * b + (k - 2) * b; }
    } else {
      if b > 0 { assert k * b == -2 * b + (k + 2) * b; } else { assert k * b == -2 * b + (k + 2) * b; }
    }
  }
}
