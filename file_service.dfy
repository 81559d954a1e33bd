/**
 * The upload service: the earlier line parser, whose PPC comes from a scan over
 * the tokens, and the text-to-records pipeline of `parseFile`.
 */
module FileService {
  import opened Text
  import opened Wrappers
  import opened Sequences
  import opened AddressTypes
  import opened LineFields
  import AddressConstants
  import AddressParser

  // ---------------------------------------------------------------------------
  // The service's own copies of the vocabularies
  // ---------------------------------------------------------------------------

  const LegacyTypeSet: set<string> := {"RD", "ST", "AVE", "DR", "LN", "BLVD", "CT", "WAY", "PL", "PKWY", "TUNL"}

  const LegacyAllowedStreetTokens: set<string> :=
    {"US", "FM", "SH", "CR", "COUNTY", "ROAD", "HWY", "HIGHWAY", "STATE", "LINE", "AIRPORT", "TUNNEL", "PLAZA", "TOLL"}

  /** The duplicated sets are the shared ones, word for word. */
  lemma LegacySetsAreShared()
    ensures LegacyTypeSet == AddressConstants.TypeSet
    ensures LegacyAllowedStreetTokens == AddressConstants.AllowedStreetTokens
  {
  }

  // ---------------------------------------------------------------------------
  // PPC: /^\d{1,2}[WX]?$|^\d{1,2}\/\d{1,2}[WX]?$/
  // ---------------------------------------------------------------------------

  /** `\d{1,2}`: one or two decimal digits. */
  predicate IsShortNumber(t: string) {
    1 <= |t| <= 2 && AllDigits(t)
  }

  /** `\d{1,2}[WX]?`: a short number with an optional upper-case `W` or `X`. */
  predicate IsCodePart(t: string) {
    || IsShortNumber(t)
    || (|t| >= 2 && IsShortNumber(t[..|t| - 1]) && (t[|t| - 1] == 'W' || t[|t| - 1] == 'X'))
  }

  /**
   * The whole token is a code: a code part, or a short number, `/` and a code
   * part. The `/` can only be the second or the third character.
   */
  predicate IsLegacyPpcToken(t: string) {
    || IsCodePart(t)
    || (|t| >= 3 && t[1] == '/' && IsShortNumber(t[..1]) && IsCodePart(t[2..]))
    || (|t| >= 4 && t[2] == '/' && IsShortNumber(t[..2]) && IsCodePart(t[3..]))
  }

  /** Index of the first code token at or after `from`, or -1. */
  function FirstPpcIndex(tokens: seq<string>, from: nat): (k: int)
    decreases |tokens| - from
    ensures k == -1 || (from <= k < |tokens| && IsLegacyPpcToken(tokens[k]))
    ensures forall j :: from <= j < |tokens| && (k == -1 || j < k) ==> !IsLegacyPpcToken(tokens[j])
  {
    if from >= |tokens| then -1
    else if IsLegacyPpcToken(tokens[from]) then from
    else FirstPpcIndex(tokens, from + 1)
  }

  /** Where the scan starts: seven tokens past ZIP when there is one, at the first token otherwise. */
  function PpcStart(tokens: seq<string>, zip: string): nat {
    if zip != "" then IndexOf(tokens, zip) + 7 else 0
  }

  /** PPC: the first code token from `from` on, or empty. */
  function LegacyPpcFrom(tokens: seq<string>, from: nat): string {
    var k := FirstPpcIndex(tokens, from);
    if k == -1 then "" else tokens[k]
  }

  /** The `for … of` over `tokens.slice(startIdx)` that stops at the first code. */
  method ScanLegacyPpc(tokens: seq<string>, startIdx: nat) returns (ppc: string)
    ensures ppc == LegacyPpcFrom(tokens, startIdx)
  {
    ppc := "";
    var rest := if startIdx <= |tokens| then tokens[startIdx..] else [];
    for k := 0 to |rest|
      invariant forall j :: 0 <= j < k ==> !IsLegacyPpcToken(rest[j])
      invariant forall j :: 0 <= j < k ==> rest[j] == tokens[startIdx + j]
    {
      if IsLegacyPpcToken(rest[k]) {
        ppc := rest[k];
        assert FirstPpcIndex(tokens, startIdx) == startIdx + k;
        return;
      }
    }
    assert forall j :: startIdx <= j < |tokens| ==> tokens[j] == rest[j - startIdx];
  }

  // ---------------------------------------------------------------------------
  // The earlier line parser
  // ---------------------------------------------------------------------------

  /**
   * The record this `parseSmartLine` returns. Its record type has no ALT_PPC,
   * FS or RISK_CATEGORY; they are left empty here.
   */
  function LegacyLine(line: string): AddressRecord {
    var fields := LineFieldsOf(line, LegacyTypeSet, LegacyAllowedStreetTokens);
    var tokens := Tokenize(line);
    fields.(ppc := LegacyPpcFrom(tokens, PpcStart(tokens, fields.zip)))
  }

  /** PPC from the token scan that starts after ZIP. */
  method FillLegacyPpc(tokens: seq<string>, result: AddressRecord) returns (r: AddressRecord)
    requires result.ppc == ""
    ensures r == result.(ppc := LegacyPpcFrom(tokens, PpcStart(tokens, result.zip)))
  {
    r := result;
    var startIdx := if result.zip != "" then IndexOf(tokens, result.zip) + 7 else 0;
    var ppc := ScanLegacyPpc(tokens, startIdx);
    r := r.(ppc := ppc);
  }

  /** `parseSmartLine` of the upload service: the seven shared fields with its own sets, then PPC. */
  method ParseLegacyLine(line: string) returns (result: AddressRecord)
    ensures result == LegacyLine(line)
  {
    result := ParseFields(line, LegacyTypeSet, LegacyAllowedStreetTokens);
    var tokens := Tokenize(line);
    result := FillLegacyPpc(tokens, result);
  }

  /**
   * On every line the two parsers agree on TRACKNUM, ZIP, CITY, STREET, TYPE, LOW
   * and HIGH; the earlier one never sets ALT_PPC, FS or RISK_CATEGORY.
   */
  lemma ParsersAgreeOnSharedFields(line: string)
    ensures var legacy := LegacyLine(line);
      var smart := AddressParser.SmartLine(line);
      && legacy.trackNum == smart.trackNum && legacy.zip == smart.zip && legacy.city == smart.city
      && legacy.street == smart.street && legacy.streetType == smart.streetType
      && legacy.low == smart.low && legacy.high == smart.high
    ensures LegacyLine(line).altPpc == "" && LegacyLine(line).fs == "" && LegacyLine(line).riskCategory == ""
  {
    LegacySetsAreShared();
  }

  /**
   * PPC is empty exactly when no token from the start index on is a code, and
   * otherwise it is the first such token; the start index is seven past ZIP's
   * position when ZIP was found, so the six tokens after ZIP are never read.
   */
  lemma LegacyPpcIsFirstCode(line: string)
    ensures var tokens := Tokenize(line);
      var r := LegacyLine(line);
      var start := PpcStart(tokens, r.zip);
      && (r.zip != "" ==> 7 <= start <= |tokens| + 6 && tokens[start - 7] == r.zip)
      && (r.zip == "" ==> start == 0)
      && (r.ppc == "" <==> forall j :: start <= j < |tokens| ==> !IsLegacyPpcToken(tokens[j]))
      && (r.ppc != "" ==> exists k :: (start <= k < |tokens| && r.ppc == tokens[k] && IsLegacyPpcToken(tokens[k])
            && forall j :: start <= j < k ==> !IsLegacyPpcToken(tokens[j])))
  {
    var tokens := Tokenize(line);
    assert LegacyLine(line).zip == ZipOf(tokens);
    ZipIsFound(tokens);
    FirstCodeFrom(tokens, PpcStart(tokens, ZipOf(tokens)));
  }

  /** A found ZIP is one of the tokens, so the scan starts seven past it. */
  lemma ZipIsFound(tokens: seq<string>)
    ensures var zip := ZipOf(tokens);
      zip != "" ==> var start := PpcStart(tokens, zip); 7 <= start <= |tokens| + 6 && tokens[start - 7] == zip
  {
    ZipAndCity(tokens);
  }

  /** The scan from `start` finds the first code token there is, and nothing when there is none. */
  lemma FirstCodeFrom(tokens: seq<string>, start: nat)
    ensures var ppc := LegacyPpcFrom(tokens, start);
      && (ppc == "" <==> forall j :: start <= j < |tokens| ==> !IsLegacyPpcToken(tokens[j]))
      && (ppc != "" ==> exists k :: (start <= k < |tokens| && ppc == tokens[k] && IsLegacyPpcToken(tokens[k])
            && forall j :: start <= j < k ==> !IsLegacyPpcToken(tokens[j])))
  {
    var k := FirstPpcIndex(tokens, start);
    if k != -1 {
      assert |tokens[k]| >= 1;
    }
  }

  /** Every code token is one to six characters long, built from digits, `/`, `W` and `X`. */
  lemma LegacyPpcAlphabet(t: string)
    requires IsLegacyPpcToken(t)
    ensures 1 <= |t| <= 6
    ensures forall i :: 0 <= i < |t| ==> IsDigit(t[i]) || t[i] == '/' || t[i] == 'W' || t[i] == 'X'
  {
    if !IsCodePart(t) {
      var s := if t[1] == '/' && IsShortNumber(t[..1]) && IsCodePart(t[2..]) then 1 else 2;
      var tail := t[s + 1..];
      assert IsCodePart(tail);
      CodePartAlphabet(tail);
      forall i | 0 <= i < |t|
        ensures IsDigit(t[i]) || t[i] == '/' || t[i] == 'W' || t[i] == 'X'
      {
        if i < s {
          assert t[i] == t[..s][i];
        } else if i > s {
          assert t[i] == tail[i - s - 1];
        }
      }
    } else {
      CodePartAlphabet(t);
    }
  }

  lemma CodePartAlphabet(t: string)
    requires IsCodePart(t)
    ensures 1 <= |t| <= 3
    ensures forall i :: 0 <= i < |t| ==> IsDigit(t[i]) || t[i] == 'W' || t[i] == 'X'
  {
    if !IsShortNumber(t) {
      assert forall i :: 0 <= i < |t| - 1 ==> t[i] == t[..|t| - 1][i];
    }
  }

  /** The scan is case-sensitive and reads whole tokens: which tokens are codes and which are not. */
  lemma LegacyPpcExamples()
    ensures IsLegacyPpcToken("7") && IsLegacyPpcToken("10W") && IsLegacyPpcToken("8/9X")
    ensures !IsLegacyPpcToken("10w") && !IsLegacyPpcToken("100") && !IsLegacyPpcToken("5X/10W")
  {
    assert "10W"[..2] == "10";
    assert "8/9X"[..1] == "8" && "8/9X"[2..] == "9X" && "9X"[..1] == "9";
    assert "10w"[..2] == "10";
    assert "5X/10W"[..2] == "5X";
  }

  // ---------------------------------------------------------------------------
  // parseFile
  // ---------------------------------------------------------------------------

  const ValidTypes: seq<string> := ["text/csv", "text/plain", "application/csv", "application/vnd.ms-excel"]

  const InvalidFileType := "Invalid file type. Please upload a CSV or TXT file."

  /** The file is taken when its MIME type is one of the four, or its name ends in `.csv` or `.txt`. */
  predicate AcceptsFile(mimeType: string, name: string) {
    mimeType in ValidTypes || EndsWith(name, ".csv") || EndsWith(name, ".txt")
  }

  /** `text.split('\n')`: the pieces between line feeds, one more than there are line feeds. */
  function SplitLines(text: string): (lines: seq<string>)
    decreases |text|
    ensures |lines| >= 1
    ensures forall i :: 0 <= i < |lines| ==> '\n' !in lines[i]
  {
    var k := IndexOf(text, '\n');
    if k == -1 then [text]
    else
      var rest := SplitLines(text[k + 1..]);
      assert forall i :: 1 <= i < |rest| + 1 ==> ([text[..k]] + rest)[i] == rest[i - 1];
      [text[..k]] + rest
  }

  /** The pieces joined back with line feeds. */
  function JoinLines(lines: seq<string>): string
    requires |lines| >= 1
  {
    if |lines| == 1 then lines[0] else lines[0] + "\n" + JoinLines(lines[1..])
  }

  /** Splitting loses nothing: joining the pieces with line feeds gives the text back. */
  lemma {:induction false} JoinSplitLines(text: string)
    decreases |text|
    ensures JoinLines(SplitLines(text)) == text
  {
    var k := IndexOf(text, '\n');
    if k != -1 {
      var lines := SplitLines(text);
      var rest := SplitLines(text[k + 1..]);
      assert lines == [text[..k]] + rest;
      assert lines[0] == text[..k] && lines[1..] == rest;
      JoinSplitLines(text[k + 1..]);
      assert JoinLines(lines) == text[..k] + "\n" + text[k + 1..];
      CutAtLineFeed(text, k);
    }
  }

  lemma CutAtLineFeed(text: string, k: nat)
    requires k < |text| && text[k] == '\n'
    ensures text == text[..k] + "\n" + text[k + 1..]
  {
    assert text == text[..k] + [text[k]] + text[k + 1..];
  }

  /** Pieces without line feeds come back from a split of their join. */
  lemma {:induction false} SplitJoinLines(lines: seq<string>)
    requires |lines| >= 1
    requires forall i :: 0 <= i < |lines| ==> '\n' !in lines[i]
    ensures SplitLines(JoinLines(lines)) == lines
  {
    if |lines| > 1 {
      var first := lines[0];
      var rest := JoinLines(lines[1..]);
      assert JoinLines(lines) == first + "\n" + rest;
      SplitAtFirstLineFeed(first, rest);
      SplitJoinLines(lines[1..]);
      assert [first] + lines[1..] == lines;
    }
  }

  /** A piece without line feeds, a line feed and the rest split into that piece and the split of the rest. */
  lemma SplitAtFirstLineFeed(first: string, rest: string)
    requires '\n' !in first
    ensures SplitLines(first + "\n" + rest) == [first] + SplitLines(rest)
  {
    var text := first + "\n" + rest;
    IndexAfter(first, rest, '\n');
    assert text[..|first|] == first && text[|first| + 1..] == rest;
  }

  /** The first `c` of `a + [c] + b`, when `a` holds none, is the one after `a`. */
  lemma IndexAfter(a: string, b: string, c: char)
    requires c !in a
    ensures IndexOf(a + [c] + b, c) == |a|
  {
    assert (a + [c] + b)[|a|] == c;
  }

  /** `line.trim()` is truthy: the line is not all white space. */
  predicate IsNonBlank(line: string) {
    !IsBlank(line)
  }

  /** `.filter(line => line.trim())`: the lines that are not all white space, in order. */
  function NonBlankLines(lines: seq<string>): (kept: seq<string>)
    ensures |kept| <= |lines|
    ensures forall i :: 0 <= i < |kept| ==> !IsBlank(kept[i])
  {
    FilterIsSelection(lines, IsNonBlank);
    Filter(lines, IsNonBlank)
  }

  /** The header test looks at the first remaining line only: it is dropped when it holds `TRACKNUM`. */
  function DropHeader(lines: seq<string>): seq<string> {
    if |lines| > 0 && Contains(lines[0], "TRACKNUM") then lines[1..] else lines
  }

  /** `.map(line => parseSmartLine(line))`. */
  function ParsedLines(lines: seq<string>): seq<AddressRecord> {
    seq(|lines|, i requires 0 <= i < |lines| => LegacyLine(lines[i]))
  }

  /** `record.TRACKNUM && record.ZIP`. */
  predicate IsValidRecord(r: AddressRecord) {
    r.trackNum != "" && r.zip != ""
  }

  /** `.filter(record => record.TRACKNUM && record.ZIP)`. */
  function ValidRecords(records: seq<AddressRecord>): seq<AddressRecord> {
    Filter(records, IsValidRecord)
  }

  /** The lines `parseFile` parses: the non-blank pieces, without a leading header. */
  function DataLines(text: string): seq<string> {
    DropHeader(NonBlankLines(SplitLines(text)))
  }

  /** What `parseFile` resolves with for an accepted file holding `text`. */
  function FileRecords(text: string): seq<AddressRecord> {
    ValidRecords(ParsedLines(DataLines(text)))
  }

  /**
   * `parseFile` on a file already read as `text`: a file of the wrong type is
   * refused with the service's message, any other yields the valid records.
   */
  method ParseFile(mimeType: string, name: string, text: string) returns (r: Result<seq<AddressRecord>, string>)
    ensures !AcceptsFile(mimeType, name) ==> r == Failure(InvalidFileType)
    ensures AcceptsFile(mimeType, name) ==> r == Success(FileRecords(text))
  {
    if mimeType !in ValidTypes && !EndsWith(name, ".csv") && !EndsWith(name, ".txt") {
      return Failure(InvalidFileType);
    }
    var lines := NonBlankLines(SplitLines(text));
    if |lines| > 0 && Contains(lines[0], "TRACKNUM") {
      lines := lines[1..];
    }
    var records := ValidRecords(ParsedLines(lines));
    return Success(records);
  }

  // ---------------------------------------------------------------------------
  // Properties of the pipeline
  // ---------------------------------------------------------------------------

  /** Blank lines are dropped, the others kept in their order. */
  lemma NonBlankLinesKeepsTheRest(lines: seq<string>)
    ensures IsSubsequence(NonBlankLines(lines), lines)
    ensures forall i :: 0 <= i < |lines| && !IsBlank(lines[i]) ==> lines[i] in NonBlankLines(lines)
  {
    FilterIsSelection(lines, IsNonBlank);
  }

  /** Only the first line can be dropped as a header, and only when it holds `TRACKNUM`. */
  lemma HeaderDropIsFirstLineOnly(lines: seq<string>)
    ensures var kept := DropHeader(lines);
      && |lines| - 1 <= |kept| <= |lines|
      && kept == lines[|lines| - |kept|..]
      && (|kept| < |lines| <==> |lines| > 0 && Contains(lines[0], "TRACKNUM"))
  {
  }

  /** Every record carries a TRACKNUM and a ZIP. */
  lemma ValidRecordsAreValid(records: seq<AddressRecord>)
    ensures forall i :: 0 <= i < |ValidRecords(records)| ==> IsValidRecord(ValidRecords(records)[i])
    ensures IsSubsequence(ValidRecords(records), records)
    ensures forall i :: 0 <= i < |records| && IsValidRecord(records[i]) ==> records[i] in ValidRecords(records)
  {
    FilterIsSelection(records, IsValidRecord);
  }

  /**
   * The records of a file: each has TRACKNUM and ZIP, they come in the order
   * of their lines, and there are at most as many as non-blank lines.
   */
  lemma FileRecordsAreValidAndInOrder(text: string)
    ensures forall i :: 0 <= i < |FileRecords(text)| ==> IsValidRecord(FileRecords(text)[i])
    ensures IsSubsequence(FileRecords(text), ParsedLines(DataLines(text)))
    ensures |FileRecords(text)| <= |NonBlankLines(SplitLines(text))|
  {
    var parsed := ParsedLines(DataLines(text));
    ValidRecordsAreValid(parsed);
    SubsequenceMembers(FileRecords(text), parsed);
  }

  /**
   * Each record is the parse of one data line, and every data line whose parse
   * is valid gives a record.
   */
  lemma FileRecordsAreTheValidParses(text: string)
    ensures var parsed := ParsedLines(DataLines(text));
      && (forall i :: 0 <= i < |FileRecords(text)| ==> FileRecords(text)[i] in parsed)
      && (forall j :: 0 <= j < |parsed| && IsValidRecord(parsed[j]) ==> parsed[j] in FileRecords(text))
  {
    var parsed := ParsedLines(DataLines(text));
    ValidRecordsAreValid(parsed);
    SubsequenceMembers(FileRecords(text), parsed);
  }

  /** A text of white space and line breaks only, the empty text among them, yields no records. */
  lemma BlankTextHasNoRecords(text: string)
    requires IsBlank(text)
    ensures FileRecords(text) == []
  {
    BlankTextSplitsIntoBlankLines(text);
    FilterNone(SplitLines(text), IsNonBlank);
  }

  lemma {:induction false} BlankTextSplitsIntoBlankLines(text: string)
    requires IsBlank(text)
    decreases |text|
    ensures forall i :: 0 <= i < |SplitLines(text)| ==> IsBlank(SplitLines(text)[i])
  {
    var k := IndexOf(text, '\n');
    if k != -1 {
      var rest := text[k + 1..];
      assert forall i :: 0 <= i < |rest| ==> rest[i] == text[k + 1 + i];
      BlankTextSplitsIntoBlankLines(rest);
      assert forall i :: 0 <= i < k ==> text[..k][i] == text[i];
    }
  }

  /** Which files are taken: by MIME type, or else by a lower-case `.csv` or `.txt` name. */
  lemma AcceptsFileExamples()
    ensures AcceptsFile("text/plain", "addresses")
    ensures AcceptsFile("", "addresses.csv") && AcceptsFile("application/octet-stream", "addresses.txt")
    ensures !AcceptsFile("application/json", "addresses.json")
    ensures !AcceptsFile("", "ADDRESSES.CSV")
  {
    assert "addresses.csv"[9..] == ".csv";
    assert "addresses.txt"[9..] == ".txt";
    assert "ADDRESSES.CSV"[9..] != ".csv";
    assert "ADDRESSES.CSV"[9..] != ".txt";
    assert "addresses.json"[10..] != ".csv";
    assert "addresses.json"[10..] != ".txt";
  }
}
