/**
 * Characters, strings and small scanners standing in for the JavaScript built-ins
 * the address engine relies on: `trim()` and `split(/\s+/)`, `toUpperCase()`
 * (ASCII letters only), `includes`, `indexOf`, `endsWith`, `join(' ')`,
 * `Number()` (decimal digit strings only) and `parseInt()` (decimal only), and
 * the leftmost-first search of a regular expression without the `g` flag.
 */
module Text {
  import opened Wrappers

  // ---------------------------------------------------------------------------
  // Character classes
  // ---------------------------------------------------------------------------

  /** White space or a line terminator as ECMAScript's `\s`, `trim()` and `split(/\s+/)` see it. */
  predicate IsSpace(c: char) {
    || c == ' ' || c == '\t' || c == '\n' || c == '\r' || c == '\U{000B}' || c == '\U{000C}'
    || c == '\U{00A0}' || c == '\U{1680}' || ('\U{2000}' <= c <= '\U{200A}')
    || c == '\U{2028}' || c == '\U{2029}' || c == '\U{202F}' || c == '\U{205F}'
    || c == '\U{3000}' || c == '\U{FEFF}'
  }

  predicate IsDigit(c: char) { '0' <= c <= '9' }

  predicate IsUpperLetter(c: char) { 'A' <= c <= 'Z' }

  predicate IsLowerLetter(c: char) { 'a' <= c <= 'z' }

  /** `[A-Z]` under the `i` flag. */
  predicate IsLetter(c: char) { IsUpperLetter(c) || IsLowerLetter(c) }

  /** `\w` of a regular expression without the `u` flag; `\b` sits between a `\w` and a non-`\w`. */
  predicate IsWordChar(c: char) { IsLetter(c) || IsDigit(c) || c == '_' }

  /** `toUpperCase()` of one character, restricted to the ASCII letters. */
  function UpperChar(c: char): (u: char)
    ensures IsLowerLetter(c) ==> IsUpperLetter(u)
    ensures !IsLowerLetter(c) ==> u == c
  {
    if IsLowerLetter(c) then (c as int - 32) as char else c
  }

  /** Case-insensitive equality of two characters, as the `i` flag compares them. */
  predicate EqI(c: char, d: char) { UpperChar(c) == UpperChar(d) }

  // ---------------------------------------------------------------------------
  // Strings
  // ---------------------------------------------------------------------------

  /** `s.toUpperCase()`, restricted to the ASCII letters. */
  function Upper(s: string): (u: string)
    ensures |u| == |s|
    ensures forall i :: 0 <= i < |s| ==> u[i] == UpperChar(s[i])
  {
    if s == [] then [] else [UpperChar(s[0])] + Upper(s[1..])
  }

  predicate AllUpperLetters(s: string) {
    forall i :: 0 <= i < |s| ==> IsUpperLetter(s[i])
  }

  lemma UpperWithoutLowerLetters(s: string)
    requires forall i :: 0 <= i < |s| ==> !IsLowerLetter(s[i])
    ensures Upper(s) == s
  {
    assert forall i :: 0 <= i < |s| ==> Upper(s)[i] == s[i];
  }

  /** `sub` occurs in `s` starting at index `i`. */
  predicate OccursAt(s: string, sub: string, i: nat) {
    i + |sub| <= |s| && s[i..i + |sub|] == sub
  }

  /** `s.includes(sub)`. */
  predicate Contains(s: string, sub: string) {
    exists i: nat :: i <= |s| && OccursAt(s, sub, i)
  }

  /** `s.endsWith(suffix)`. */
  predicate EndsWith(s: string, suffix: string) {
    |suffix| <= |s| && s[|s| - |suffix|..] == suffix
  }

  /** `s.trim()` is the empty string. */
  predicate IsBlank(s: string) {
    forall i :: 0 <= i < |s| ==> IsSpace(s[i])
  }

  predicate NoSpace(s: string) {
    forall i :: 0 <= i < |s| ==> !IsSpace(s[i])
  }

  /** `xs.indexOf(x)`: the first index holding `x`, or -1. */
  function IndexOf<T(==)>(xs: seq<T>, x: T): (k: int)
    ensures k == -1 <==> x !in xs
    ensures k != -1 ==> 0 <= k < |xs| && xs[k] == x && x !in xs[..k]
  {
    if xs == [] then -1
    else if xs[0] == x then 0
    else
      var k := IndexOf(xs[1..], x);
      assert xs[1..][..if k == -1 then 0 else k] == xs[1..if k == -1 then 1 else k + 1];
      if k == -1 then -1 else k + 1
  }

  /** `parts.join(' ')`. */
  function JoinSpaces(parts: seq<string>): string {
    if |parts| == 0 then ""
    else if |parts| == 1 then parts[0]
    else parts[0] + " " + JoinSpaces(parts[1..])
  }

  // ---------------------------------------------------------------------------
  // Runs and tokens
  // ---------------------------------------------------------------------------

  /** Length of the longest run of letters that starts at index `j` of `s`. */
  function LetterRun(s: string, j: nat): (k: nat)
    decreases |s| - j
    ensures k == 0 || j + k <= |s|
    ensures forall m :: j <= m < j + k ==> IsLetter(s[m])
    ensures j + k < |s| ==> !IsLetter(s[j + k])
  {
    if j >= |s| || !IsLetter(s[j]) then 0 else 1 + LetterRun(s, j + 1)
  }

  /** Length of the longest run of white space that starts at index `j` of `s`. */
  function SpaceRun(s: string, j: nat): (k: nat)
    decreases |s| - j
    ensures k == 0 || j + k <= |s|
    ensures forall m :: j <= m < j + k ==> IsSpace(s[m])
    ensures j + k < |s| ==> !IsSpace(s[j + k])
  {
    if j >= |s| || !IsSpace(s[j]) then 0 else 1 + SpaceRun(s, j + 1)
  }

  /** Length of the longest run of digits that starts at index `j` of `s`. */
  function DigitRun(s: string, j: nat): (k: nat)
    decreases |s| - j
    ensures k == 0 || j + k <= |s|
    ensures forall m :: j <= m < j + k ==> IsDigit(s[m])
    ensures j + k < |s| ==> !IsDigit(s[j + k])
  {
    if j >= |s| || !IsDigit(s[j]) then 0 else 1 + DigitRun(s, j + 1)
  }

  /** A run of letters from `j` that stops at `e` is the longest one there. */
  lemma {:induction false} LetterRunEnds(s: string, j: nat, e: nat)
    requires j <= e <= |s|
    requires forall m :: j <= m < e ==> IsLetter(s[m])
    requires e < |s| ==> !IsLetter(s[e])
    ensures LetterRun(s, j) == e - j
    decreases e - j
  {
    if j < e {
      LetterRunEnds(s, j + 1, e);
    }
  }

  /** A run of white space from `j` that stops at `e` is the longest one there. */
  lemma {:induction false} SpaceRunEnds(s: string, j: nat, e: nat)
    requires j <= e <= |s|
    requires forall m :: j <= m < e ==> IsSpace(s[m])
    requires e < |s| ==> !IsSpace(s[e])
    ensures SpaceRun(s, j) == e - j
    decreases e - j
  {
    if j < e {
      SpaceRunEnds(s, j + 1, e);
    }
  }

  /** A run of digits from `j` that stops at `e` is the longest one there. */
  lemma {:induction false} DigitRunEnds(s: string, j: nat, e: nat)
    requires j <= e <= |s|
    requires forall m :: j <= m < e ==> IsDigit(s[m])
    requires e < |s| ==> !IsDigit(s[e])
    ensures DigitRun(s, j) == e - j
    decreases e - j
  {
    if j < e {
      DigitRunEnds(s, j + 1, e);
    }
  }

  /** Every character of `s` at an index in [a, b) is a letter. */
  predicate LettersIn(s: string, a: nat, b: nat)
    requires a <= b <= |s|
  {
    forall m :: a <= m < b ==> IsLetter(s[m])
  }

  /** Every character of `s` at an index in [a, b) is white space. */
  predicate SpacesIn(s: string, a: nat, b: nat)
    requires a <= b <= |s|
  {
    forall m :: a <= m < b ==> IsSpace(s[m])
  }

  /** Every character of `s` at an index in [a, b) is a digit. */
  predicate DigitsIn(s: string, a: nat, b: nat)
    requires a <= b <= |s|
  {
    forall m :: a <= m < b ==> IsDigit(s[m])
  }


  /** Length of the leading run of non-space characters of `s`. */
  function LeadingWord(s: string): (k: nat)
    ensures k <= |s|
    ensures NoSpace(s[..k])
    ensures k < |s| ==> IsSpace(s[k])
  {
    if s == [] || IsSpace(s[0]) then 0
    else
      var k := LeadingWord(s[1..]);
      assert s[..k + 1] == [s[0]] + s[1..][..k];
      1 + k
  }

  /** The maximal runs of non-space characters of `s`, in order. */
  function Words(s: string): (ws: seq<string>)
    ensures forall i :: 0 <= i < |ws| ==> ws[i] != [] && NoSpace(ws[i])
    decreases |s|
  {
    if s == [] then []
    else if IsSpace(s[0]) then Words(s[1..])
    else
      var k := LeadingWord(s);
      var rest := Words(s[k..]);
      assert forall i :: 1 <= i <= |rest| ==> ([s[..k]] + rest)[i] == rest[i - 1];
      [s[..k]] + rest
  }

  /** `line.trim().split(/\s+/)`: the words of the line, or `[""]` when the line is blank. */
  function Tokenize(line: string): (tokens: seq<string>)
    ensures |tokens| >= 1
    ensures tokens == [""] || forall i :: 0 <= i < |tokens| ==> tokens[i] != [] && NoSpace(tokens[i])
  {
    var ws := Words(line);
    if ws == [] then [""] else ws
  }

  lemma {:induction false} WordsOfBlank(s: string)
    ensures Words(s) == [] <==> IsBlank(s)
    decreases |s|
  {
    if s != [] {
      WordsOfBlank(s[1..]);
      if IsSpace(s[0]) {
        assert IsBlank(s) <==> IsBlank(s[1..]) by {
          assert forall i :: 1 <= i < |s| ==> s[i] == s[1..][i - 1];
        }
      }
    }
  }

  /** A line yields the single empty token exactly when it is blank. */
  lemma TokenizeBlank(line: string)
    ensures Tokenize(line) == [""] <==> IsBlank(line)
  {
    WordsOfBlank(line);
    var ws := Words(line);
    assert ws != [] ==> ws[0] != [];
  }

  lemma {:induction false} LeadingWordOfJoin(w: string, rest: string)
    requires NoSpace(w)
    requires rest == [] || IsSpace(rest[0])
    ensures LeadingWord(w + rest) == |w|
    decreases |w|
  {
    if w == [] {
      assert w + rest == rest;
    } else {
      assert (w + rest)[0] == w[0];
      assert (w + rest)[1..] == w[1..] + rest;
      LeadingWordOfJoin(w[1..], rest);
    }
  }

  /** Splitting words joined by single spaces gives the words back. */
  lemma {:induction false} WordsOfJoin(parts: seq<string>)
    requires forall i :: 0 <= i < |parts| ==> parts[i] != [] && NoSpace(parts[i])
    ensures Words(JoinSpaces(parts)) == parts
    decreases |parts|
  {
    if |parts| == 1 {
      var w := parts[0];
      LeadingWordOfJoin(w, []);
      assert w + [] == w;
      assert w[|w|..] == [];
    } else if |parts| > 1 {
      var w := parts[0];
      var rest := JoinSpaces(parts[1..]);
      var s := w + " " + rest;
      assert s == w + (" " + rest);
      LeadingWordOfJoin(w, " " + rest);
      assert s[..|w|] == w;
      assert s[|w|..] == " " + rest;
      assert (" " + rest)[1..] == rest;
      WordsOfJoin(parts[1..]);
      assert [w] + parts[1..] == parts;
    }
  }

  /** `seps[0] + words[0] + seps[1] + ... + words[n - 1] + seps[n]`: words with the text between and around them. */
  function Interleave(seps: seq<string>, words: seq<string>): string
    requires |seps| == |words| + 1
  {
    if |words| == 0 then seps[0]
    else seps[0] + words[0] + Interleave(seps[1..], words[1..])
  }

  /** Text glued before the first separator stays in front of the whole. */
  lemma PrependToInterleave(a: string, seps: seq<string>, words: seq<string>)
    requires |seps| == |words| + 1
    ensures Interleave([a + seps[0]] + seps[1..], words) == a + Interleave(seps, words)
  {
    var seps' := [a + seps[0]] + seps[1..];
    assert seps'[1..] == seps[1..];
  }

  /**
   * `words` cover `s` with the separators `seps`: between, before and after
   * the words lie only runs of white space, and the runs between two words
   * are not empty.
   */
  predicate Covers(s: string, seps: seq<string>, words: seq<string>) {
    && |seps| == |words| + 1
    && (forall i :: 0 <= i < |seps| ==> IsBlank(seps[i]))
    && (forall i :: 0 < i < |seps| - 1 ==> seps[i] != [])
    && s == Interleave(seps, words)
  }

  /** White space in front of a covered string joins its first separator. */
  lemma CoverAfterSpace(c: char, t: string, seps: seq<string>, words: seq<string>)
    requires IsSpace(c) && Covers(t, seps, words)
    ensures Covers([c] + t, [[c] + seps[0]] + seps[1..], words)
  {
    var seps' := [[c] + seps[0]] + seps[1..];
    PrependToInterleave([c], seps, words);
    assert IsBlank(seps'[0]) by {
      assert forall i :: 1 <= i < |seps'[0]| ==> seps'[0][i] == seps[0][i - 1];
    }
    assert forall i :: 1 <= i < |seps'| ==> seps'[i] == seps[i];
  }

  /** A word in front of a string covered from a non-empty first separator on becomes its first word. */
  lemma CoverAfterWord(w: string, t: string, seps: seq<string>, words: seq<string>)
    requires Covers(t, seps, words)
    requires words != [] ==> seps[0] != []
    ensures Covers(w + t, [""] + seps, [w] + words)
  {
    var seps' := [""] + seps;
    assert seps'[1..] == seps;
    assert ([w] + words)[1..] == words;
    assert Interleave(seps', [w] + words) == "" + w + Interleave(seps, words);
    assert forall i :: 1 <= i < |seps'| ==> seps'[i] == seps[i - 1];
  }

  /** The words of `s` cover it. */
  lemma {:induction false} WordsCover(s: string) returns (seps: seq<string>)
    ensures Covers(s, seps, Words(s))
    ensures s != [] && IsSpace(s[0]) ==> seps[0] != []
    decreases |s|
  {
    if s == [] {
      seps := [""];
    } else if IsSpace(s[0]) {
      var rest := WordsCover(s[1..]);
      seps := [[s[0]] + rest[0]] + rest[1..];
      CoverAfterSpace(s[0], s[1..], rest, Words(s[1..]));
      assert s == [s[0]] + s[1..];
    } else {
      var k := LeadingWord(s);
      var rest := WordsCover(s[k..]);
      seps := [""] + rest;
      CoverAfterWord(s[..k], s[k..], rest, Words(s[k..]));
      assert s == s[..k] + s[k..];
    }
  }

  /**
   * Every line is its tokens with white space between and around them: a
   * blank line is its one empty token wrapped in the line itself, and the
   * tokens of any other line are separated by non-empty runs of white space.
   */
  lemma TokenizeCovers(line: string) returns (seps: seq<string>)
    ensures |seps| == |Tokenize(line)| + 1
    ensures forall i :: 0 <= i < |seps| ==> IsBlank(seps[i])
    ensures forall i :: 0 < i < |seps| - 1 ==> seps[i] != []
    ensures line == Interleave(seps, Tokenize(line))
  {
    WordsOfBlank(line);
    if Words(line) == [] {
      seps := [line, ""];
      assert Interleave(seps, [""]) == line + "" + "";
    } else {
      seps := WordsCover(line);
    }
  }

  /** Round trip: a street, joined from its parts with single spaces, tokenizes back into those parts. */
  lemma TokenizeJoin(parts: seq<string>)
    requires |parts| >= 1
    requires forall i :: 0 <= i < |parts| ==> parts[i] != [] && NoSpace(parts[i])
    ensures Tokenize(JoinSpaces(parts)) == parts
  {
    WordsOfJoin(parts);
  }

  // ---------------------------------------------------------------------------
  // Numbers
  // ---------------------------------------------------------------------------

  predicate AllDigits(s: string) {
    forall i :: 0 <= i < |s| ==> IsDigit(s[i])
  }

  /** The value of a string of decimal digits. */
  function DigitsValue(s: string): nat
    requires AllDigits(s)
  {
    if s == [] then 0 else DigitsValue(s[..|s| - 1]) * 10 + (s[|s| - 1] as int - '0' as int)
  }

  /**
   * `Number(t)` for a token that holds no white space: the empty token is 0, a
   * decimal digit string is its value, and anything else is treated as NaN (None).
   */
  function NumberValue(t: string): Option<int> {
    if t == [] then Some(0)
    else if AllDigits(t) then Some(DigitsValue(t))
    else None
  }

  /** Length of the leading run of decimal digits of `s`. */
  function DigitPrefix(s: string): (k: nat)
    ensures k <= |s|
    ensures AllDigits(s[..k])
    ensures k < |s| ==> !IsDigit(s[k])
  {
    if s == [] || !IsDigit(s[0]) then 0
    else
      var k := DigitPrefix(s[1..]);
      assert s[..k + 1] == [s[0]] + s[1..][..k];
      1 + k
  }

  function SkipSpaces(s: string): (t: string)
    ensures |t| <= |s|
    ensures t == [] || !IsSpace(t[0])
  {
    if s != [] && IsSpace(s[0]) then SkipSpaces(s[1..]) else s
  }

  /**
   * `parseInt(s)` in base 10: leading white space, an optional sign, then the
   * longest run of decimal digits; None (NaN) when there is no digit.
   */
  function ParseInt(s: string): Option<int> {
    var t := SkipSpaces(s);
    var negative := |t| > 0 && t[0] == '-';
    var body := if |t| > 0 && (t[0] == '-' || t[0] == '+') then t[1..] else t;
    var k := DigitPrefix(body);
    if k == 0 then None
    else
      var v: int := DigitsValue(body[..k]);
      Some(if negative then -v else v)
  }

  /** On a non-empty decimal digit string `parseInt` and `Number` agree. */
  lemma ParseIntOfDigits(t: string)
    requires t != [] && AllDigits(t)
    ensures ParseInt(t) == NumberValue(t) == Some(DigitsValue(t))
  {
    assert SkipSpaces(t) == t;
    assert DigitPrefix(t) == |t|;
    assert t[..|t|] == t;
  }

  /**
   * `parseInt` skips leading white space, reads a sign and stops at the first
   * non-digit, and is NaN without a digit.
   */
  lemma ParseIntExamples()
    ensures ParseInt(" \t-12abc") == Some(-12)
    ensures ParseInt("-") == None
    ensures ParseInt("abc") == None
  {
    var s := " \t-12abc";
    assert SkipSpaces(s) == s[2..];
    var body := s[3..];
    assert DigitPrefix(body) == 2 by {
      assert DigitPrefix(body[2..]) == 0;
      assert DigitPrefix(body[1..]) == 1 + DigitPrefix(body[2..]);
    }
    assert body[..2] == "12";
    TwelveValue();
  }

  lemma TwelveValue()
    ensures DigitsValue("12") == 12
  {
    assert "12"[..1] == "1";
    assert "1"[..0] == "";
  }

  /** `Number` reads leading zeros as decimal and is NaN on a trailing letter. */
  lemma NumberValueExamples()
    ensures NumberValue("0100") == Some(100)
    ensures NumberValue("12a") == None
  {
    assert DigitsValue("0100") == 100 by {
      assert "0100"[..3] == "010";
      assert "010"[..2] == "01";
      assert "01"[..1] == "0";
      assert "0"[..0] == "";
    }
    assert !AllDigits("12a") by {
      assert !IsDigit("12a"[2]);
    }
  }

  // ---------------------------------------------------------------------------
  // Regular-expression search
  // ---------------------------------------------------------------------------

  /**
   * The leftmost index `k >= from` of `s` at which `p` holds, or -1: the order in
   * which a regular expression without the `g` flag tries its start positions.
   */
  function FindAt(s: string, from: nat, p: (string, nat) -> bool): (k: int)
    decreases |s| - from
    ensures k == -1 || (from <= k < |s| && p(s, k))
    ensures forall j :: from <= j < |s| && (k == -1 || j < k) ==> !p(s, j)
  {
    if from >= |s| then -1
    else if p(s, from) then from
    else FindAt(s, from + 1, p)
  }

  /** `\b` just before index `i`, given that `s[i]` is a word character. */
  predicate BoundaryBefore(s: string, i: nat) {
    i == 0 || (i <= |s| && !IsWordChar(s[i - 1]))
  }

  /** `\b` at index `e`, given that `s[e - 1]` is a word character. */
  predicate BoundaryAfter(s: string, e: nat) {
    e >= |s| || !IsWordChar(s[e])
  }

  /** The upper-case literal `lit` matches `s` at index `i` under the `i` flag. */
  predicate MatchesI(s: string, i: nat, lit: string) {
    i + |lit| <= |s| && Upper(s[i..i + |lit|]) == lit
  }
}
