/**
 * The final line parser, `parseSmartLine`: the seven shared fields, then the
 * PPC / ALT_PPC cascade of regular-expression searches with its closing
 * literal override, the fire-station code and the risk category.
 */
module AddressParser {
  import opened Text
  import opened Wrappers
  import opened LineFields
  import opened AddressTypes
  import opened RiskMapping
  import AddressConstants

  // ---------------------------------------------------------------------------
  // PPC and ALT_PPC
  // ---------------------------------------------------------------------------

  /** `/\b(5X\/10W\/10)\b/i` matches at index `i`. */
  predicate ComplexAt(s: string, i: nat) {
    MatchesI(s, i, "5X/10W/10") && BoundaryBefore(s, i) && BoundaryAfter(s, i + 9)
  }

  /** `/\b(5X\/10W|10W\/10)\b/i` matches at index `i`; both alternatives are six characters long. */
  predicate AltAt(s: string, i: nat) {
    (MatchesI(s, i, "5X/10W") || MatchesI(s, i, "10W/10")) && BoundaryBefore(s, i) && BoundaryAfter(s, i + 6)
  }

  /**
   * Length of the match of `/\b([1-9]|10)\b(?!\w)/` (case-sensitive) at index `i`,
   * or 0. After `\b` at the end of a digit, `(?!\w)` asks nothing more.
   */
  function BasicLength(s: string, i: nat): nat {
    if i >= |s| || !BoundaryBefore(s, i) then 0
    else if '1' <= s[i] <= '9' && BoundaryAfter(s, i + 1) then 1
    else if OccursAt(s, "10", i) && BoundaryAfter(s, i + 2) then 2
    else 0
  }

  predicate BasicAt(s: string, i: nat) {
    BasicLength(s, i) > 0
  }

  /** `\b(?!\w|\/)` after a modifier: the end of the line, or neither a word character nor `/`. */
  predicate EndsModifier(s: string, e: nat) {
    e >= |s| || (!IsWordChar(s[e]) && s[e] != '/')
  }

  /** Length of the match of `/\b(5X|10W)\b(?!\w|\/)/` (case-sensitive) at index `i`, or 0. */
  function ModifierLength(s: string, i: nat): nat {
    if !BoundaryBefore(s, i) then 0
    else if OccursAt(s, "5X", i) && EndsModifier(s, i + 2) then 2
    else if OccursAt(s, "10W", i) && EndsModifier(s, i + 3) then 3
    else 0
  }

  predicate ModifierAt(s: string, i: nat) {
    ModifierLength(s, i) > 0
  }

  /** The pair of classification codes the parser assigns. */
  datatype Codes = Codes(ppc: string, altPpc: string)

  /** The prioritised cascade of searches over the raw line, before the override. */
  function CascadeCodes(line: string): Codes {
    var complexMatch := FindAt(line, 0, ComplexAt);
    if complexMatch != -1 then Codes("5", line[complexMatch..complexMatch + 9])
    else
      var altMatch := FindAt(line, 0, AltAt);
      if altMatch != -1 then Codes("5", line[altMatch..altMatch + 6])
      else
        var basicMatch := FindAt(line, 0, BasicAt);
        var ppc := if basicMatch != -1 then line[basicMatch..basicMatch + BasicLength(line, basicMatch)] else "";
        var modifierMatch := FindAt(line, 0, ModifierAt);
        if modifierMatch != -1 then
          Codes(if ppc == "" then "5" else ppc, line[modifierMatch..modifierMatch + ModifierLength(line, modifierMatch)])
        else Codes(ppc, "")
  }

  /**
   * The classification resolver: the cascade, then the unconditional override
   * that a literal, case-sensitive `5X/10W/10` anywhere in the line forces.
   */
  function ResolveCodes(line: string): Codes {
    if Contains(line, "5X/10W/10") then Codes("5", "5X/10W/10") else CascadeCodes(line)
  }

  /** A PPC the basic search can produce: one digit 1 to 9, or `10`. */
  predicate IsBasicCode(p: string) {
    (|p| == 1 && '1' <= p[0] <= '9') || p == "10"
  }

  /** The upper-case forms an ALT_PPC can take. */
  const AltCodes: set<string> := {"5X/10W/10", "5X/10W", "10W/10", "5X", "10W"}

  /** The compound code is written in upper case, so upper-casing it changes nothing. */
  lemma CompoundIsUpperCase()
    ensures Upper("5X/10W/10") == "5X/10W/10"
  {
    UpperWithoutLowerLetters("5X/10W/10");
  }

  lemma AltCodeIsUpperCase()
    ensures Upper("5X/10W") == "5X/10W"
  {
    UpperWithoutLowerLetters("5X/10W");
  }

  lemma ModifierIsUpperCase(c: string)
    requires c == "5X" || c == "10W"
    ensures Upper(c) == c
  {
    UpperWithoutLowerLetters(c);
  }

  /**
   * Codes the cascade can produce: PPC is empty, a digit 1 to 9 or `10`; ALT_PPC
   * is, up to case, one of the five compound or modifier codes; and ALT_PPC never
   * comes without PPC.
   */
  predicate CodesShape(c: Codes) {
    && (c.ppc == "" || IsBasicCode(c.ppc))
    && (c.altPpc == "" || Upper(c.altPpc) in AltCodes)
    && (c.altPpc != "" ==> c.ppc != "")
  }

  /** What the cascade guarantees, whichever of its searches decides the codes. */
  lemma CascadeCodesShape(line: string)
    ensures CascadeCodes(line).ppc == "" || IsBasicCode(CascadeCodes(line).ppc)
    ensures CascadeCodes(line).altPpc == "" || Upper(CascadeCodes(line).altPpc) in AltCodes
    ensures CascadeCodes(line).altPpc != "" ==> CascadeCodes(line).ppc != ""
  {
    var c := FindAt(line, 0, ComplexAt);
    if c != -1 {
      CompoundSearchShape(line, c);
    } else {
      var a := FindAt(line, 0, AltAt);
      if a != -1 {
        AltSearchShape(line, a);
      } else {
        LaterSearchesShape(line);
      }
    }
    assert CodesShape(CascadeCodes(line));
  }

  /** The first search, when it succeeds, decides both codes. */
  lemma CompoundSearchShape(line: string, c: int)
    requires c == FindAt(line, 0, ComplexAt) && c != -1
    ensures CascadeCodes(line) == Codes("5", line[c..c + 9])
    ensures Upper(line[c..c + 9]) == "5X/10W/10"
    ensures CodesShape(CascadeCodes(line))
  {
  }

  /** The second search, when the first fails and it succeeds, decides both codes. */
  lemma AltSearchShape(line: string, a: int)
    requires FindAt(line, 0, ComplexAt) == -1
    requires a == FindAt(line, 0, AltAt) && a != -1
    ensures CascadeCodes(line) == Codes("5", line[a..a + 6])
    ensures Upper(line[a..a + 6]) == "5X/10W" || Upper(line[a..a + 6]) == "10W/10"
    ensures CodesShape(CascadeCodes(line))
  {
  }

  /**
   * When the first two searches fail, the third and fourth decide the codes:
   * ALT_PPC is a modifier or empty, a modifier without a basic code brings PPC
   * `5`, and PPC stays empty only when neither search finds anything.
   */
  lemma LaterSearchesShape(line: string)
    requires FindAt(line, 0, ComplexAt) == -1 && FindAt(line, 0, AltAt) == -1
    ensures CodesShape(CascadeCodes(line))
    ensures CascadeCodes(line).altPpc == "" || Upper(CascadeCodes(line).altPpc) in {"5X", "10W"}
    ensures CascadeCodes(line).altPpc == "" <==> FindAt(line, 0, ModifierAt) == -1
    ensures FindAt(line, 0, BasicAt) == -1 && FindAt(line, 0, ModifierAt) != -1 ==> CascadeCodes(line).ppc == "5"
    ensures CascadeCodes(line).ppc == "" <==> FindAt(line, 0, BasicAt) == -1 && FindAt(line, 0, ModifierAt) == -1
  {
    BasicAndModifierShape(line);
    var b := FindAt(line, 0, BasicAt);
    var m := FindAt(line, 0, ModifierAt);
    var ppc := if b != -1 then line[b..b + BasicLength(line, b)] else "";
    assert ppc == "" <==> b == -1;
    if m != -1 {
      var alt := line[m..m + ModifierLength(line, m)];
      assert alt != [];
      assert CascadeCodes(line) == Codes(if ppc == "" then "5" else ppc, alt);
    } else {
      assert CascadeCodes(line) == Codes(ppc, "");
    }
  }

  /** The third and fourth searches: a basic code as PPC, a modifier as ALT_PPC, with PPC `5` by default. */
  lemma BasicAndModifierShape(line: string)
    ensures var b := FindAt(line, 0, BasicAt);
      b != -1 ==> IsBasicCode(line[b..b + BasicLength(line, b)])
    ensures var m := FindAt(line, 0, ModifierAt);
      m != -1 ==> Upper(line[m..m + ModifierLength(line, m)]) in {"5X", "10W"}
  {
    var b := FindAt(line, 0, BasicAt);
    if b != -1 {
      var len := BasicLength(line, b);
      assert len == 1 ==> line[b..b + len] == [line[b]];
      assert len == 2 ==> line[b..b + len] == "10";
    }
    var m := FindAt(line, 0, ModifierAt);
    if m != -1 {
      var len := ModifierLength(line, m);
      if len == 2 { ModifierIsUpperCase("5X"); } else { ModifierIsUpperCase("10W"); }
      assert len == 2 ==> line[m..m + len] == "5X";
      assert len == 3 ==> line[m..m + len] == "10W";
    }
  }

  /**
   * The override wins: a line holding the literal `5X/10W/10` ends with PPC `5`
   * and ALT_PPC `5X/10W/10`, and otherwise the cascade's codes stand, with the
   * cascade's guarantees.
   */
  lemma ResolvedCodesShape(line: string)
    ensures Contains(line, "5X/10W/10") ==> ResolveCodes(line) == Codes("5", "5X/10W/10")
    ensures !Contains(line, "5X/10W/10") ==> ResolveCodes(line) == CascadeCodes(line)
    ensures ResolveCodes(line).ppc == "" || IsBasicCode(ResolveCodes(line).ppc)
    ensures ResolveCodes(line).altPpc == "" || Upper(ResolveCodes(line).altPpc) in AltCodes
    ensures ResolveCodes(line).altPpc != "" ==> ResolveCodes(line).ppc != ""
  {
    if Contains(line, "5X/10W/10") {
      CompoundIsUpperCase();
    } else {
      CascadeCodesShape(line);
    }
  }

  /**
   * The override is not dead code: in `5X/10W/100` the `\b` after `5X/10W/10`
   * fails, the second search takes `5X/10W`, and the override then rewrites
   * ALT_PPC to `5X/10W/10`.
   */
  lemma OverrideRewritesAltPpc()
    ensures CascadeCodes("5X/10W/100") == Codes("5", "5X/10W")
    ensures ResolveCodes("5X/10W/100") == Codes("5", "5X/10W/10")
  {
    var line := "5X/10W/100";
    CascadeOfOverrideExample(line);
    assert line[0..9] == "5X/10W/10";
    assert OccursAt(line, "5X/10W/10", 0);
  }

  lemma CascadeOfOverrideExample(line: string)
    requires line == "5X/10W/100"
    ensures CascadeCodes(line) == Codes("5", "5X/10W")
  {
    NoCompoundMatchIn(line);
    AltMatchAtStart(line);
  }

  /** The second search finds `5X/10W` at the start of `5X/10W/100`. */
  lemma AltMatchAtStart(line: string)
    requires line == "5X/10W/100"
    ensures FindAt(line, 0, AltAt) == 0 && line[0..6] == "5X/10W"
  {
    assert line[0..6] == "5X/10W";
    AltCodeIsUpperCase();
    assert AltAt(line, 0);
  }

  /** The first search finds nothing in `5X/10W/100`. */
  lemma NoCompoundMatchIn(line: string)
    requires line == "5X/10W/100"
    ensures FindAt(line, 0, ComplexAt) == -1
  {
    forall j | 0 <= j < |line|
      ensures !ComplexAt(line, j)
    {
      if j == 1 {
        assert Upper(line[1..10])[0] == 'X';
      }
    }
  }

  /**
   * The `i` flag keeps the line's own case: `5x/10w/10` is found by the first
   * search and kept in lower case, since the case-sensitive override does not fire.
   */
  lemma LowerCaseCompoundKeepsItsCase()
    ensures ResolveCodes("5x/10w/10") == Codes("5", "5x/10w/10")
  {
    var line := "5x/10w/10";
    LowerCompoundMatches();
    assert line[0..9] == line;
    assert CascadeCodes(line) == Codes("5", line);
    LowerCompoundIsNotLiteral();
  }

  lemma LowerCompoundIsNotLiteral()
    ensures !Contains("5x/10w/10", "5X/10W/10")
  {
    var line := "5x/10w/10";
    assert line[0..9][1] != "5X/10W/10"[1];
  }

  lemma LowerCompoundMatches()
    ensures ComplexAt("5x/10w/10", 0)
  {
    var line := "5x/10w/10";
    assert line[0..9] == line;
    UpperOfLowerCompound();
  }

  lemma UpperOfLowerCompound()
    ensures Upper("5x/10w/10") == "5X/10W/10"
  {
    var u := Upper("5x/10w/10");
    assert UpperChar('x') == 'X' && UpperChar('w') == 'W';
    assert forall i :: 0 <= i < 9 ==> u[i] == "5X/10W/10"[i];
  }

  // ---------------------------------------------------------------------------
  // FS
  // ---------------------------------------------------------------------------

  /**
   * Where the parts of a fire-station match end: the letters at `letters`, the
   * white space after them at `gap`, the optional `V` at `fs` (where `FS`
   * starts), the white space after `FS` at `digits`, the digits at `end`.
   */
  datatype FsSplit = FsSplit(letters: nat, gap: nat, fs: nat, digits: nat, end: nat)

  /**
   * `s[i..m.end]` reads letters, white space, an optional `V`, `FS`, white space
   * and digits, split as `m` says, with no letter, digit or `_` on either side.
   */
  predicate FsShapeAt(s: string, i: nat, m: FsSplit) {
    && i < m.letters < m.gap <= m.fs && m.fs + 2 < m.digits < m.end <= |s|
    && BoundaryBefore(s, i) && BoundaryAfter(s, m.end)
    && LettersIn(s, i, m.letters) && SpacesIn(s, m.letters, m.gap)
    && (m.fs == m.gap || (m.fs == m.gap + 1 && EqI(s[m.gap], 'V')))
    && EqI(s[m.fs], 'F') && EqI(s[m.fs + 1], 'S')
    && SpacesIn(s, m.fs + 2, m.digits) && DigitsIn(s, m.digits, m.end)
  }

  /** The match of `FS\s+\d+\b` (case-insensitive) at index `f`: where its digits start and end. */
  function FsTailAt(s: string, f: nat): (t: Option<(nat, nat)>)
    ensures t.Some? ==> (&& f + 2 < t.value.0 < t.value.1 <= |s|
      && EqI(s[f], 'F') && EqI(s[f + 1], 'S')
      && SpacesIn(s, f + 2, t.value.0) && DigitsIn(s, t.value.0, t.value.1)
      && BoundaryAfter(s, t.value.1))
  {
    if !(f + 1 < |s| && EqI(s[f], 'F') && EqI(s[f + 1], 'S')) then None
    else
      var d := f + 2 + SpaceRun(s, f + 2);
      var e := d + DigitRun(s, d);
      if d == f + 2 || e == d || !BoundaryAfter(s, e) then None else Some((d, e))
  }

  /** The match of `\b[A-Z]+\s+` (case-insensitive) at index `i`: where its letters and its white space end. */
  function FsHeadAt(s: string, i: nat): (h: Option<(nat, nat)>)
    ensures h.Some? ==> (&& i < h.value.0 < h.value.1 <= |s|
      && BoundaryBefore(s, i) && LettersIn(s, i, h.value.0) && SpacesIn(s, h.value.0, h.value.1))
  {
    if !(i < |s| && IsLetter(s[i]) && BoundaryBefore(s, i)) then None
    else
      var a := i + LetterRun(s, i);
      var b := a + SpaceRun(s, a);
      if b == a then None else Some((a, b))
  }

  /**
   * The match of `/\b[A-Z]+\s+(?:V)?FS\s+\d+\b/i` at index `i`, if any. Each run
   * is greedy and giving characters back never helps (the character given back
   * cannot start what follows), so the match is found without backtracking; an
   * optional `V` that is present must be followed by `FS`.
   */
  function FsMatchAt(s: string, i: nat): (m: Option<FsSplit>)
    ensures m.Some? ==> FsShapeAt(s, i, m.value)
  {
    var head := FsHeadAt(s, i);
    if head.None? then None
    else
      var (a, b) := head.value;
      var f := if b < |s| && EqI(s[b], 'V') then b + 1 else b;
      var tail := FsTailAt(s, f);
      if tail.None? then None else Some(FsSplit(a, b, f, tail.value.0, tail.value.1))
  }

  predicate FsAt(s: string, i: nat) {
    FsMatchAt(s, i).Some?
  }

  /**
   * The search misses no match: wherever `s` has the shape of a fire-station
   * match, the search at that index finds it, with the same split.
   */
  lemma FsComplete(s: string, i: nat, m: FsSplit)
    requires FsShapeAt(s, i, m)
    ensures FsAt(s, i) && FsMatchAt(s, i).value == m
  {
    assert !IsSpace(s[m.gap]);
    FsHeadFinds(s, i, m.letters, m.gap);
    FsTailFinds(s, m.fs, m.digits, m.end);
    if m.fs == m.gap {
      assert !EqI(s[m.gap], 'V');
    }
    assert FsMatchAt(s, i) == Some(FsSplit(m.letters, m.gap, m.fs, m.digits, m.end));
  }

  /** Letters from `i` to `a` and white space from `a` to `b`, both maximal, are the head the search reads. */
  lemma FsHeadFinds(s: string, i: nat, a: nat, b: nat)
    requires i < a < b <= |s| && BoundaryBefore(s, i)
    requires LettersIn(s, i, a) && SpacesIn(s, a, b)
    requires b < |s| ==> !IsSpace(s[b])
    ensures FsHeadAt(s, i) == Some((a, b))
  {
    LetterRunEnds(s, i, a);
    SpaceRunEnds(s, a, b);
  }

  /** `FS` at `f`, then white space up to `d` and digits up to a `\b` at `e`, is the tail the search reads. */
  lemma FsTailFinds(s: string, f: nat, d: nat, e: nat)
    requires f + 2 < d < e <= |s|
    requires EqI(s[f], 'F') && EqI(s[f + 1], 'S')
    requires SpacesIn(s, f + 2, d) && DigitsIn(s, d, e) && BoundaryAfter(s, e)
    ensures FsTailAt(s, f) == Some((d, e))
  {
    SpaceRunEnds(s, f + 2, d);
    DigitRunEnds(s, d, e);
  }

  /** The first fire-station match in `s`, or empty. */
  function FirstFs(s: string): string {
    var fsMatch := FindAt(s, 0, FsAt);
    if fsMatch == -1 then "" else s[fsMatch..FsMatchAt(s, fsMatch).value.end]
  }

  /** FS: the first fire-station match in the upper-cased line, or empty. */
  function FsOf(line: string): string {
    FirstFs(Upper(line))
  }

  /**
   * The search comes back empty exactly when no fire-station match starts
   * anywhere in `s`: neither where the search looks nor in any other split.
   */
  lemma FirstFsEmptyIffNoMatch(s: string)
    ensures FirstFs(s) == "" <==> forall k :: 0 <= k < |s| ==> !FsAt(s, k)
    ensures FirstFs(s) == "" <==> forall k: nat, m :: !FsShapeAt(s, k, m)
  {
    var k := FindAt(s, 0, FsAt);
    if k != -1 {
      assert |s[k..FsMatchAt(s, k).value.end]| > 0;
      assert FsShapeAt(s, k, FsMatchAt(s, k).value);
    } else {
      forall k: nat, m | FsShapeAt(s, k, m)
        ensures false
      {
        FsComplete(s, k, m);
      }
    }
  }

  /**
   * A non-empty result is the piece of `s` that the leftmost match spans,
   * shaped like `VOL FS 12` or `CITY VFS 7`: no split of any kind fits
   * at an earlier index.
   */
  lemma FirstFsIsLeftmostMatch(s: string)
    ensures FirstFs(s) != "" ==> exists k: nat, m :: (FsShapeAt(s, k, m) && FirstFs(s) == s[k..m.end]
        && forall j: nat, m' :: j < k ==> !FsShapeAt(s, j, m'))
  {
    var k := FindAt(s, 0, FsAt);
    if k != -1 {
      var m := FsMatchAt(s, k).value;
      forall j: nat, m' | j < k && FsShapeAt(s, j, m')
        ensures false
      {
        FsComplete(s, j, m');
      }
      assert FsShapeAt(s, k, m) && FirstFs(s) == s[k..m.end];
    }
  }

  // ---------------------------------------------------------------------------
  // RISK_CATEGORY
  // ---------------------------------------------------------------------------

  /** RISK_CATEGORY from the final codes: the ALT_PPC tests first, then the PPC classifier. */
  function RiskOf(codes: Codes): string {
    var alt := Upper(codes.altPpc);
    if codes.altPpc != "" && Contains(alt, "5X/10W/10") then HighRisk
    else if codes.altPpc != "" && (Contains(alt, "5X/10W") || Contains(alt, "10W/10")) then ModerateRisk
    else if codes.ppc != "" then MapRiskCategory(codes.ppc)
    else ""
  }

  // ---------------------------------------------------------------------------
  // The whole line
  // ---------------------------------------------------------------------------

  /** The record `parseSmartLine` returns for `line`, field by field. */
  function SmartLine(line: string): AddressRecord {
    var codes := ResolveCodes(line);
    LineFieldsOf(line, AddressConstants.TypeSet, AddressConstants.AllowedStreetTokens)
      .(ppc := codes.ppc, altPpc := codes.altPpc, fs := FsOf(line), riskCategory := RiskOf(codes))
  }

  /** PPC and ALT_PPC: the four searches in order of priority, then the literal override. */
  method FillCodes(line: string, result: AddressRecord) returns (r: AddressRecord)
    requires result.ppc == "" && result.altPpc == ""
    ensures r == result.(ppc := ResolveCodes(line).ppc, altPpc := ResolveCodes(line).altPpc)
  {
    r := result;
    var complexMatch := FindAt(line, 0, ComplexAt);
    if complexMatch != -1 {
      r := r.(altPpc := line[complexMatch..complexMatch + 9], ppc := "5");
    } else {
      var altMatch := FindAt(line, 0, AltAt);
      if altMatch != -1 {
        r := r.(altPpc := line[altMatch..altMatch + 6], ppc := "5");
      } else {
        var basicMatch := FindAt(line, 0, BasicAt);
        if basicMatch != -1 {
          r := r.(ppc := line[basicMatch..basicMatch + BasicLength(line, basicMatch)]);
        }
        var modifierMatch := FindAt(line, 0, ModifierAt);
        if modifierMatch != -1 {
          if r.ppc == "" {
            r := r.(ppc := "5");
          }
          r := r.(altPpc := line[modifierMatch..modifierMatch + ModifierLength(line, modifierMatch)]);
        }
      }
    }
    if Contains(line, "5X/10W/10") {
      r := r.(ppc := "5", altPpc := "5X/10W/10");
    }
  }

  /** FS: the first fire-station match in the upper-cased line. */
  method FillFs(line: string, result: AddressRecord) returns (r: AddressRecord)
    requires result.fs == ""
    ensures r == result.(fs := FsOf(line))
  {
    r := result;
    var fullLine := Upper(line);
    var fsMatch := FindAt(fullLine, 0, FsAt);
    if fsMatch != -1 {
      r := r.(fs := fullLine[fsMatch..FsMatchAt(fullLine, fsMatch).value.end]);
    }
    assert r.fs == FirstFs(fullLine);
  }

  /** RISK_CATEGORY from the codes already in the record. */
  method FillRisk(result: AddressRecord) returns (r: AddressRecord)
    requires result.riskCategory == ""
    ensures r == result.(riskCategory := RiskOf(Codes(result.ppc, result.altPpc)))
  {
    r := result;
    var alt := Upper(r.altPpc);
    if r.altPpc != "" && Contains(alt, "5X/10W/10") {
      r := r.(riskCategory := HighRisk);
    } else if r.altPpc != "" && (Contains(alt, "5X/10W") || Contains(alt, "10W/10")) {
      r := r.(riskCategory := ModerateRisk);
    } else if r.ppc != "" {
      r := r.(riskCategory := MapRiskCategory(r.ppc));
    }
  }

  /**
   * `parseSmartLine`: starting from the empty record, the seven shared fields,
   * then the codes, the fire station and the risk category, one field after
   * another.
   */
  method ParseSmartLine(line: string) returns (result: AddressRecord)
    ensures result == SmartLine(line)
  {
    result := ParseFields(line, AddressConstants.TypeSet, AddressConstants.AllowedStreetTokens);
    result := FillCodes(line, result);
    result := FillFs(line, result);
    result := FillRisk(result);
  }

  // ---------------------------------------------------------------------------
  // Properties of the whole record
  // ---------------------------------------------------------------------------

  /**
   * For codes the cascade can produce (no ALT_PPC without a PPC), the risk
   * category is empty exactly when PPC is, is never `Unknown`, and a compound
   * ALT_PPC decides it before the PPC classifier is consulted.
   */
  lemma RiskOfCodes(c: Codes)
    requires c.altPpc != "" ==> c.ppc != ""
    ensures RiskOf(c) == "" <==> c.ppc == ""
    ensures RiskOf(c) in {"", LowRisk, ModerateRisk, HighRisk}
    ensures c.altPpc != "" && Contains(Upper(c.altPpc), "5X/10W/10") ==> RiskOf(c) == HighRisk
    ensures c.altPpc != "" && !Contains(Upper(c.altPpc), "5X/10W/10") && Contains(Upper(c.altPpc), "5X/10W")
      ==> RiskOf(c) == ModerateRisk
    ensures c.altPpc != "" && !Contains(Upper(c.altPpc), "5X/10W/10") && Contains(Upper(c.altPpc), "10W/10")
      ==> RiskOf(c) == ModerateRisk
    ensures (&& !(c.altPpc != "" && Contains(Upper(c.altPpc), "5X/10W/10"))
             && !(c.altPpc != "" && (Contains(Upper(c.altPpc), "5X/10W") || Contains(Upper(c.altPpc), "10W/10")))
             && c.ppc != "")
      ==> RiskOf(c) == MapRiskCategory(c.ppc)
  {
  }

  /**
   * RISK_CATEGORY of a parsed line is empty exactly when its PPC is, never
   * `Unknown`, High Risk for a compound ALT_PPC (and for any line holding the
   * literal `5X/10W/10`), Moderate Risk for the other compound forms, and
   * otherwise the PPC classifier's verdict.
   */
  lemma SmartRisk(line: string)
    ensures SmartLine(line).riskCategory == "" <==> SmartLine(line).ppc == ""
    ensures SmartLine(line).riskCategory in {"", LowRisk, ModerateRisk, HighRisk}
    ensures Contains(line, "5X/10W/10") ==> SmartLine(line).ppc == "5" && SmartLine(line).riskCategory == HighRisk
    ensures var r := SmartLine(line);
      r.altPpc != "" && Contains(Upper(r.altPpc), "5X/10W/10") ==> r.riskCategory == HighRisk
    ensures var r := SmartLine(line);
      (&& r.altPpc != "" && !Contains(Upper(r.altPpc), "5X/10W/10")
       && (Contains(Upper(r.altPpc), "5X/10W") || Contains(Upper(r.altPpc), "10W/10")))
      ==> r.riskCategory == ModerateRisk
    ensures var r := SmartLine(line);
      (&& !(r.altPpc != "" && Contains(Upper(r.altPpc), "5X/10W/10"))
       && !(r.altPpc != "" && (Contains(Upper(r.altPpc), "5X/10W") || Contains(Upper(r.altPpc), "10W/10")))
       && r.ppc != "")
      ==> r.riskCategory == MapRiskCategory(r.ppc)
  {
    var c := ResolveCodes(line);
    ResolvedCodesShape(line);
    RiskOfCodes(c);
    assert SmartLine(line).ppc == c.ppc && SmartLine(line).altPpc == c.altPpc;
    assert SmartLine(line).riskCategory == RiskOf(c);
    if Contains(line, "5X/10W/10") {
      CompoundCodeIsHighRisk();
    }
  }

  /**
   * A line that ends in `5X/10W/10` holds it, so the override and `SmartRisk`
   * apply: whatever comes before it, the record has PPC 5, ALT_PPC `5X/10W/10`
   * and High Risk.
   */
  lemma CompoundCodeLine(prefix: string)
    ensures var r := SmartLine(prefix + "5X/10W/10");
      r.ppc == "5" && r.altPpc == "5X/10W/10" && r.riskCategory == HighRisk
  {
    var line := prefix + "5X/10W/10";
    assert line[|prefix|..|prefix| + 9] == "5X/10W/10";
    assert OccursAt(line, "5X/10W/10", |prefix|);
    ResolvedCodesShape(line);
    SmartRisk(line);
  }

  /** The compound code alone decides the risk category: High Risk. */
  lemma CompoundCodeIsHighRisk()
    ensures RiskOf(Codes("5", "5X/10W/10")) == HighRisk
  {
    CompoundIsUpperCase();
    ContainsItself("5X/10W/10");
  }
}
