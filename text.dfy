/**
 * Text helpers shared by every loader in the simulator: trimming, splitting
 * on a separator, splitting into whitespace-delimited tokens, ASCII case
 * mapping and reading a decimal integer.
 */
module Text {
  import opened Wrappers

  /**
   * The six ASCII blanks of Java's `\s` class and of C's `isspace`, which
   * every `trim`, `\s` and `atoi` of the loaders skips. Java's `trim` also
   * removes the other characters up to U+0020, and JavaScript's `trim` and
   * `\s` also remove the Unicode spaces; this model leaves both out.
   */
  const Blanks: set<char> := {' ', '\t', '\n', '\r', 11 as char, 12 as char}

  /** The delimiters `strtok(..., " \t\n\r")` splits on. */
  const CDelimiters: set<char> := {' ', '\t', '\n', '\r'}

  predicate IsBlank(c: char) {
    c in Blanks
  }

  /** No blank at either end of `s`. */
  predicate IsTrimmed(s: string) {
    s == [] || (!IsBlank(s[0]) && !IsBlank(s[|s| - 1]))
  }

  /** `s` without its leading blanks. */
  function TrimStart(s: string): (r: string)
    ensures |r| <= |s| && r == s[|s| - |r|..]
    ensures forall i :: 0 <= i < |s| - |r| ==> IsBlank(s[i])
    ensures r == [] || !IsBlank(r[0])
  {
    if s != [] && IsBlank(s[0]) then TrimStart(s[1..]) else s
  }

  /** `s` without its trailing blanks. */
  function TrimEnd(s: string): (r: string)
    ensures |r| <= |s| && r == s[..|r|]
    ensures forall i :: |r| <= i < |s| ==> IsBlank(s[i])
    ensures r == [] || !IsBlank(r[|r| - 1])
  {
    if s != [] && IsBlank(s[|s| - 1]) then TrimEnd(s[..|s| - 1]) else s
  }

  /** `trim()` over `Blanks`; `TrimKeepsMiddle` states what it keeps. */
  function Trim(s: string): (r: string)
    ensures IsTrimmed(r)
    ensures |r| <= |s|
  {
    TrimEnd(TrimStart(s))
  }

  /**
   * `Trim` removes exactly the blanks at both ends: what is left is the part
   * of `s` between them, character for character.
   */
  lemma {:induction false} TrimKeepsMiddle(s: string)
    ensures var r := Trim(s); var a := |s| - |TrimStart(s)|;
      && a + |r| <= |s|
      && (forall i :: 0 <= i < |r| ==> r[i] == s[a + i])
      && (forall i :: 0 <= i < a ==> IsBlank(s[i]))
      && (forall i :: a + |r| <= i < |s| ==> IsBlank(s[i]))
  {
    var t := TrimStart(s);
    var a := |s| - |t|;
    var r := TrimEnd(t);
    assert t == s[a..];
    assert r == t[..|r|];
    forall i | 0 <= i < |r|
      ensures r[i] == s[a + i]
    {
      assert r[i] == t[i];
    }
    forall i | a + |r| <= i < |s|
      ensures IsBlank(s[i])
    {
      assert s[i] == t[i - a];
    }
  }

  /** Trimming a trimmed string changes nothing, so `Trim` is idempotent. */
  lemma TrimFixesTrimmed(s: string)
    requires IsTrimmed(s)
    ensures Trim(s) == s
  {
    assert TrimStart(s) == s;
  }

  lemma TrimIdempotent(s: string)
    ensures Trim(Trim(s)) == Trim(s)
  {
    TrimFixesTrimmed(Trim(s));
  }

  // ---------------------------------------------------------------------
  // Splitting on one separator character (`split("\n")`, `split(':')`)

  /** Position of the first `c` in `s`. */
  function IndexOf(s: string, c: char): (k: nat)
    requires c in s
    ensures k < |s| && s[k] == c && c !in s[..k]
    ensures forall i :: 0 <= i < k ==> s[i] != c
  {
    if s[0] == c then 0 else 1 + IndexOf(s[1..], c)
  }

  /** Every piece between separators, as JavaScript's `split(sep)` returns them. */
  function SplitOn(s: string, sep: char): (parts: seq<string>)
    ensures |parts| >= 1
    ensures forall i :: 0 <= i < |parts| ==> sep !in parts[i]
    decreases |s|
  {
    if sep in s then
      var k := IndexOf(s, sep);
      [s[..k]] + SplitOn(s[k + 1..], sep)
    else
      [s]
  }

  /** The pieces glued back together with the separator between them. */
  function JoinWith(parts: seq<string>, sep: char): string
    requires |parts| >= 1
  {
    if |parts| == 1 then parts[0] else parts[0] + [sep] + JoinWith(parts[1..], sep)
  }

  /** Splitting loses nothing: joining the pieces gives the text back. */
  lemma {:induction false} JoinSplitOn(s: string, sep: char)
    ensures JoinWith(SplitOn(s, sep), sep) == s
    decreases |s|
  {
    if sep in s {
      var k := IndexOf(s, sep);
      JoinSplitOn(s[k + 1..], sep);
      assert SplitOn(s, sep)[1..] == SplitOn(s[k + 1..], sep);
      assert s == s[..k] + [sep] + s[k + 1..];
    }
  }

  /** And the other way: pieces free of the separator are recovered by splitting. */
  lemma {:induction false} SplitOnJoin(parts: seq<string>, sep: char)
    requires |parts| >= 1
    requires forall i :: 0 <= i < |parts| ==> sep !in parts[i]
    ensures SplitOn(JoinWith(parts, sep), sep) == parts
  {
    if |parts| > 1 {
      SplitOnSeparated(parts[0], sep, JoinWith(parts[1..], sep));
      SplitOnJoin(parts[1..], sep);
      assert [parts[0]] + parts[1..] == parts;
    }
  }

  /** A piece free of the separator, then the separator, splits off as the first part. */
  lemma SplitOnSeparated(a: string, sep: char, b: string)
    requires sep !in a
    ensures SplitOn(a + [sep] + b, sep) == [a] + SplitOn(b, sep)
  {
    var s := a + [sep] + b;
    assert s[|a|] == sep;
    var k := IndexOf(s, sep);
    forall i | 0 <= i < |a|
      ensures s[i] != sep
    {
      assert s[i] == a[i] && a[i] in a;
    }
    assert k == |a|;
    assert s[..k] == a;
    assert s[k + 1..] == b;
  }

  // ---------------------------------------------------------------------
  // Tokens: maximal runs of non-delimiters (`split("\\s+")` on a trimmed
  // line, or repeated `strtok`)

  predicate Avoids(w: string, delims: set<char>) {
    forall i :: 0 <= i < |w| ==> w[i] !in delims
  }

  /** `s` without its leading delimiters. */
  function SkipDelimiters(s: string, delims: set<char>): (r: string)
    ensures |r| <= |s| && r == s[|s| - |r|..]
    ensures r == [] || r[0] !in delims
    ensures forall i :: 0 <= i < |s| - |r| ==> s[i] in delims
  {
    if s != [] && s[0] in delims then SkipDelimiters(s[1..], delims) else s
  }

  /** The longest prefix of `s` free of delimiters. */
  function Word(s: string, delims: set<char>): (w: string)
    ensures |w| <= |s| && w == s[..|w|]
    ensures Avoids(w, delims)
    ensures |w| == |s| || s[|w|] in delims
  {
    if s == [] || s[0] in delims then [] else [s[0]] + Word(s[1..], delims)
  }

  /** The tokens of `s`, in order. */
  function Tokens(s: string, delims: set<char>): (ws: seq<string>)
    ensures forall i :: 0 <= i < |ws| ==> ws[i] != [] && Avoids(ws[i], delims)
    decreases |s|
  {
    var t := SkipDelimiters(s, delims);
    if t == [] then []
    else
      var w := Word(t, delims);
      var rest := Tokens(t[|w|..], delims);
      AllWords(w, rest, delims);
      [w] + rest
  }

  /** A non-empty word in front of words keeps every element a non-empty word. */
  lemma AllWords(w: string, rest: seq<string>, delims: set<char>)
    requires w != [] && Avoids(w, delims)
    requires forall i :: 0 <= i < |rest| ==> rest[i] != [] && Avoids(rest[i], delims)
    ensures forall i :: 0 <= i < |[w] + rest| ==> ([w] + rest)[i] != [] && Avoids(([w] + rest)[i], delims)
  {
    forall i | 0 <= i < |[w] + rest|
      ensures ([w] + rest)[i] != [] && Avoids(([w] + rest)[i], delims)
    {
      if i > 0 {
        assert ([w] + rest)[i] == rest[i - 1];
      }
    }
  }

  lemma SkipOneDelimiter(c: char, s: string, delims: set<char>)
    requires c in delims
    ensures Tokens([c] + s, delims) == Tokens(s, delims)
  {
    assert ([c] + s)[1..] == s;
  }

  lemma TokensOfWordFirst(w: string, s: string, delims: set<char>)
    requires w != [] && Avoids(w, delims)
    requires s == [] || s[0] in delims
    ensures Tokens(w + s, delims) == [w] + Tokens(s, delims)
  {
    var t := w + s;
    assert SkipDelimiters(t, delims) == t;
    WordOfPrefix(w, s, delims);
    assert t[|w|..] == s;
  }

  lemma TokensOfSeparated(w: string, sep: char, s: string, delims: set<char>)
    requires w != [] && Avoids(w, delims) && sep in delims
    ensures Tokens(w + ([sep] + s), delims) == [w] + Tokens(s, delims)
  {
    SkipOneDelimiter(sep, s, delims);
    TokensOfWordFirst(w, [sep] + s, delims);
  }

  lemma {:induction false} WordOfPrefix(w: string, s: string, delims: set<char>)
    requires Avoids(w, delims)
    requires s == [] || s[0] in delims
    ensures Word(w + s, delims) == w
  {
    if w != [] {
      assert (w + s)[1..] == w[1..] + s;
      WordOfPrefix(w[1..], s, delims);
    } else {
      assert w + s == s;
    }
  }

  lemma JoinSingle(ws: seq<string>, sep: char, delims: set<char>)
    requires |ws| == 1 && ws[0] != [] && Avoids(ws[0], delims)
    ensures Tokens(JoinWith(ws, sep), delims) == ws
  {
    assert JoinWith(ws, sep) == ws[0];
    TokensOfWord(ws[0], delims);
    assert ws == [ws[0]];
  }

  lemma TokensOfWord(w: string, delims: set<char>)
    requires w != [] && Avoids(w, delims)
    ensures Tokens(w, delims) == [w]
  {
    TokensOfWordFirst(w, [], delims);
    assert w + [] == w;
  }

  lemma JoinStep(ws: seq<string>, sep: char, delims: set<char>)
    requires |ws| >= 2 && sep in delims && ws[0] != [] && Avoids(ws[0], delims)
    requires Tokens(JoinWith(ws[1..], sep), delims) == ws[1..]
    ensures Tokens(JoinWith(ws, sep), delims) == ws
  {
    var rest := JoinWith(ws[1..], sep);
    assert JoinWith(ws, sep) == ws[0] + ([sep] + rest);
    TokensOfSeparated(ws[0], sep, rest, delims);
    assert [ws[0]] + ws[1..] == ws;
  }

  /** Tokens separated by single blanks are read back one for one. */
  lemma {:induction false} TokensOfJoin(ws: seq<string>, sep: char, delims: set<char>)
    requires |ws| >= 1 && sep in delims
    requires forall i :: 0 <= i < |ws| ==> ws[i] != [] && Avoids(ws[i], delims)
    ensures Tokens(JoinWith(ws, sep), delims) == ws
  {
    if |ws| == 1 {
      JoinSingle(ws, sep, delims);
    } else {
      TokensOfJoin(ws[1..], sep, delims);
      JoinStep(ws, sep, delims);
    }
  }

  // ---------------------------------------------------------------------
  // ASCII case mapping

  function UpperChar(c: char): char {
    if 'a' <= c <= 'z' then (c as int - 32) as char else c
  }

  function LowerChar(c: char): char {
    if 'A' <= c <= 'Z' then (c as int + 32) as char else c
  }

  function ToUpper(s: string): string {
    seq(|s|, i requires 0 <= i < |s| => UpperChar(s[i]))
  }

  function ToLower(s: string): string {
    seq(|s|, i requires 0 <= i < |s| => LowerChar(s[i]))
  }

  /** `equalsIgnoreCase`, and `toLowerCase() ===` against a lower-case literal. */
  predicate SameIgnoringCase(a: string, b: string) {
    ToLower(a) == ToLower(b)
  }

  /** Upper-casing forgets the case a mnemonic was written in. */
  lemma UpperForgetsCase(s: string)
    ensures ToUpper(ToLower(s)) == ToUpper(s)
    ensures ToUpper(ToUpper(s)) == ToUpper(s)
  {
  }

  // ---------------------------------------------------------------------
  // Decimal integers (`Integer.parseInt`, `atoi` on well-formed input)

  predicate IsDigit(c: char) {
    '0' <= c <= '9'
  }

  predicate AllDigits(s: string) {
    forall i :: 0 <= i < |s| ==> IsDigit(s[i])
  }

  function DigitsValue(s: string): nat
    requires AllDigits(s)
  {
    if s == [] then 0 else DigitsValue(s[..|s| - 1]) * 10 + (s[|s| - 1] as int - '0' as int)
  }

  /** An optional sign followed by one or more decimal digits, or `None`. */
  function ParseInt(s: string): Option<int> {
    if |s| > 1 && (s[0] == '-' || s[0] == '+') && AllDigits(s[1..]) then
      var magnitude: int := DigitsValue(s[1..]);
      Some(if s[0] == '-' then -magnitude else magnitude)
    else if |s| > 0 && AllDigits(s) then
      Some(DigitsValue(s))
    else
      None
  }

  function DigitChar(d: nat): (c: char)
    requires d < 10
  {
    ('0' as int + d) as char
  }

  function NatToString(n: nat): (s: string)
    ensures s != [] && AllDigits(s)
  {
    if n < 10 then [DigitChar(n)] else NatToString(n / 10) + [DigitChar(n % 10)]
  }

  function IntToString(n: int): string {
    if n < 0 then "-" + NatToString(-n) else NatToString(n)
  }

  lemma {:induction false} DigitsOfNat(n: nat)
    ensures DigitsValue(NatToString(n)) == n
  {
    var s := NatToString(n);
    if n >= 10 {
      DigitsOfNat(n / 10);
      assert s[..|s| - 1] == NatToString(n / 10);
    }
  }

  /** Reading back a printed integer gives the integer. */
  lemma ParseIntOfString(n: int)
    ensures ParseInt(IntToString(n)) == Some(n)
  {
    if n < 0 {
      var s := IntToString(n);
      assert s[1..] == NatToString(-n);
      DigitsOfNat(-n);
    } else {
      DigitsOfNat(n);
    }
  }
}
