/**
 * The seven fields both line parsers recover the same way from a tokenized line:
 * TRACKNUM, ZIP, CITY, TYPE, STREET, LOW and HIGH. The street-type set and the
 * allowed street tokens are parameters because each parser consults its own copy.
 */
module LineFields {
  import opened Text
  import opened Wrappers
  import opened Sequences
  import opened AddressTypes
  import AddressConstants

  // ---------------------------------------------------------------------------
  // TRACKNUM: /R\d+_\d+/ searched anywhere in the first token
  // ---------------------------------------------------------------------------

  /** The pattern `R\d+_\d+` matches `t` starting at index `i` (the digit run is greedy). */
  predicate TrackAt(t: string, i: nat) {
    && i < |t| && t[i] == 'R'
    && var k := DigitRun(t, i + 1);
    && k > 0 && i + k + 2 < |t| && t[i + 1 + k] == '_' && IsDigit(t[i + 2 + k])
  }

  /** `t.match(/R\d+_\d+/)` succeeds: the scanner tries every start position. */
  predicate HasTrackPattern(t: string) {
    FindAt(t, 0, TrackAt) != -1
  }

  /** `t[i..j + 2]` is an `R`, one or more digits, an underscore and a digit. */
  predicate TrackSpan(t: string, i: nat, j: nat) {
    i + 1 < j && j + 1 < |t| && t[i] == 'R' && DigitsIn(t, i + 1, j) && t[j] == '_' && IsDigit(t[j + 1])
  }

  /**
   * The scanner agrees with the pattern's meaning: an `R`, one or more digits,
   * `_` and one or more digits appear somewhere in `t`, case-sensitively and
   * without anchoring.
   */
  lemma TrackPatternIff(t: string)
    ensures HasTrackPattern(t) <==> exists i, j :: TrackSpan(t, i, j)
  {
    var k := FindAt(t, 0, TrackAt);
    if k != -1 {
      var r := DigitRun(t, k + 1);
      assert TrackSpan(t, k, k + 1 + r);
    }
    if exists i, j :: TrackSpan(t, i, j) {
      var i, j :| TrackSpan(t, i, j);
      TrackSpanIsTrackAt(t, i, j);
    }
  }

  lemma TrackSpanIsTrackAt(t: string, i: nat, j: nat)
    requires TrackSpan(t, i, j)
    ensures TrackAt(t, i)
  {
    var r := DigitRun(t, i + 1);
    assert forall m :: i + 1 <= m < j ==> IsDigit(t[m]);
    assert !IsDigit(t[j]);
    assert r == j - i - 1;
  }

  /** TRACKNUM: the first token when it carries the pattern, otherwise empty. */
  function TrackNumOf(tokens: seq<string>): string
    requires |tokens| >= 1
  {
    if HasTrackPattern(tokens[0]) then tokens[0] else ""
  }

  // ---------------------------------------------------------------------------
  // ZIP and CITY
  // ---------------------------------------------------------------------------

  /** `/^\d{5}$/`. */
  predicate IsZipToken(t: string) {
    |t| == 5 && AllDigits(t)
  }

  /** `tokens.filter(t => t.match(/^\d{5}$/))`. */
  function ZipCandidates(tokens: seq<string>): (zs: seq<string>)
    ensures forall i :: 0 <= i < |zs| ==> IsZipToken(zs[i])
    ensures zs == [] <==> forall i :: 0 <= i < |tokens| ==> !IsZipToken(tokens[i])
  {
    var zs := Filter(tokens, IsZipToken);
    FilterIsSelection(tokens, IsZipToken);
    SubsequenceMembers(zs, tokens);
    zs
  }

  /** ZIP: the first five-digit token, or empty. */
  function ZipOf(tokens: seq<string>): string {
    var zs := ZipCandidates(tokens);
    if |zs| > 0 then zs[0] else ""
  }

  /** CITY: the token right after the first occurrence of the ZIP, if there is one. */
  function CityOf(tokens: seq<string>, zip: string): string {
    if zip == "" then ""
    else
      var zipIdx := IndexOf(tokens, zip);
      if zipIdx + 1 < |tokens| then tokens[zipIdx + 1] else ""
  }

  /**
   * ZIP is empty exactly when no token is five digits; otherwise it is the first
   * such token, and `indexOf(ZIP)` finds that very token, so CITY is the token
   * right after the first five-digit token (empty when the ZIP ends the line).
   */
  lemma ZipAndCity(tokens: seq<string>)
    ensures ZipOf(tokens) == "" <==> forall i :: 0 <= i < |tokens| ==> !IsZipToken(tokens[i])
    ensures ZipOf(tokens) == "" ==> CityOf(tokens, ZipOf(tokens)) == ""
    ensures ZipOf(tokens) != "" ==>
      var k := IndexOf(tokens, ZipOf(tokens));
      && 0 <= k < |tokens|
      && IsZipToken(tokens[k]) && ZipOf(tokens) == tokens[k]
      && (forall i :: 0 <= i < k ==> !IsZipToken(tokens[i]))
      && CityOf(tokens, ZipOf(tokens)) == (if k + 1 < |tokens| then tokens[k + 1] else "")
  {
    var zs := ZipCandidates(tokens);
    if zs != [] {
      var k := FilterHead(tokens, IsZipToken);
      var z := tokens[k];
      var m := IndexOf(tokens, z);
      assert m == k;
    }
  }

  // ---------------------------------------------------------------------------
  // TYPE
  // ---------------------------------------------------------------------------

  /** The upper-cased token is a street type. */
  predicate IsTypeToken(t: string, types: set<string>) {
    Upper(t) in types
  }

  /** The index of the first street-type token, or -1. */
  function TypeIndex(tokens: seq<string>, types: set<string>): (k: int)
    ensures -1 <= k < |tokens|
    ensures k != -1 ==> IsTypeToken(tokens[k], types)
    ensures forall i :: 0 <= i < |tokens| && (k == -1 || i < k) ==> !IsTypeToken(tokens[i], types)
  {
    if tokens == [] then -1
    else if IsTypeToken(tokens[0], types) then 0
    else
      var k := TypeIndex(tokens[1..], types);
      assert forall i :: 1 <= i < |tokens| ==> tokens[i] == tokens[1..][i - 1];
      if k == -1 then -1 else k + 1
  }

  /**
   * The `for` loop that looks for the street type: it stops at the first token
   * whose upper-case form is in `types` and leaves -1 when there is none.
   */
  method FindTypeIndex(tokens: seq<string>, types: set<string>) returns (typeIdx: int)
    ensures -1 <= typeIdx < |tokens|
    ensures typeIdx != -1 ==> IsTypeToken(tokens[typeIdx], types)
    ensures forall i :: 0 <= i < |tokens| && (typeIdx == -1 || i < typeIdx) ==> !IsTypeToken(tokens[i], types)
    ensures typeIdx == TypeIndex(tokens, types)
  {
    typeIdx := -1;
    var i := 0;
    while i < |tokens|
      invariant 0 <= i <= |tokens|
      invariant forall j :: 0 <= j < i ==> !IsTypeToken(tokens[j], types)
    {
      if Upper(tokens[i]) in types {
        typeIdx := i;
        break;
      }
      i := i + 1;
    }
  }

  /** TYPE: the upper-cased street-type token, or empty. */
  function TypeOf(tokens: seq<string>, typeIdx: int): string
    requires -1 <= typeIdx < |tokens|
  {
    if typeIdx == -1 then "" else Upper(tokens[typeIdx])
  }

  // ---------------------------------------------------------------------------
  // STREET: the words walked backwards from the street type
  // ---------------------------------------------------------------------------

  /** A character of `[A-Z0-9\-]`. */
  predicate IsStreetChar(c: char) {
    IsUpperLetter(c) || IsDigit(c) || c == '-'
  }

  /** `t.toUpperCase().match(/^[A-Z0-9\-]+$/)`. */
  predicate IsStreetWord(t: string) {
    t != [] && forall i :: 0 <= i < |t| ==> IsStreetChar(UpperChar(t[i]))
  }

  /** The backward walk takes `t`: it is no street type, and a street word or an allowed token. */
  predicate KeepsStreet(t: string, types: set<string>, allowed: set<string>) {
    !IsTypeToken(t, types) && (IsStreetWord(t) || Upper(t) in allowed)
  }

  /** Where the backward walk that starts just before index `k` stops: the street is `tokens[s..k]`. */
  function StreetStart(tokens: seq<string>, types: set<string>, allowed: set<string>, k: nat): (s: nat)
    requires k <= |tokens|
    ensures s <= k
    ensures forall j :: s <= j < k ==> KeepsStreet(tokens[j], types, allowed)
    ensures s > 0 ==> !KeepsStreet(tokens[s - 1], types, allowed)
  {
    if k == 0 || !KeepsStreet(tokens[k - 1], types, allowed) then k
    else StreetStart(tokens, types, allowed, k - 1)
  }

  /**
   * The `while` loop that walks backwards from the token before the street type,
   * putting each accepted token in front of the parts collected so far.
   */
  method CollectStreet(tokens: seq<string>, types: set<string>, allowed: set<string>, typeIdx: nat)
    returns (streetParts: seq<string>)
    requires typeIdx <= |tokens|
    ensures streetParts == tokens[StreetStart(tokens, types, allowed, typeIdx)..typeIdx]
  {
    var j: int := typeIdx - 1;
    streetParts := [];
    while j >= 0
      invariant -1 <= j < typeIdx
      invariant streetParts == tokens[j + 1..typeIdx]
      invariant StreetStart(tokens, types, allowed, typeIdx) == StreetStart(tokens, types, allowed, j + 1)
    {
      var token := tokens[j];
      if Upper(token) in types {
        break;
      }
      if IsStreetWord(token) || Upper(token) in allowed {
        streetParts := [token] + streetParts;
      } else {
        break;
      }
      j := j - 1;
    }
  }

  /** STREET: the collected parts joined by single spaces, or empty. */
  function StreetOf(tokens: seq<string>, types: set<string>, allowed: set<string>, typeIdx: int): string
    requires -1 <= typeIdx < |tokens|
  {
    if typeIdx > 0 then JoinSpaces(tokens[StreetStart(tokens, types, allowed, typeIdx)..typeIdx]) else ""
  }

  /** Every allowed street token is already a street word, so testing the allowed set changes nothing. */
  lemma AllowedTokensAreStreetWords(t: string)
    requires Upper(t) in AddressConstants.AllowedStreetTokens
    ensures IsStreetWord(t)
  {
    AddressConstants.VocabularyIsUpperCase();
    var u := Upper(t);
    assert forall i :: 0 <= i < |t| ==> UpperChar(t[i]) == u[i] && IsUpperLetter(u[i]);
  }

  /**
   * With the first street type at `typeIdx`, the walk never stops at a street
   * type (the check for one is unreachable) and the allowed tokens add nothing:
   * the street is the longest run of street words ending just before the type,
   * stopped only by a token outside `[A-Za-z0-9-]+` or by the start of the line.
   */
  lemma StreetIsMaximalWordRun(tokens: seq<string>, typeIdx: nat)
    requires typeIdx == TypeIndex(tokens, AddressConstants.TypeSet)
    ensures var s := StreetStart(tokens, AddressConstants.TypeSet, AddressConstants.AllowedStreetTokens, typeIdx);
      && (forall j :: s <= j < typeIdx ==> IsStreetWord(tokens[j]))
      && (s > 0 ==> !IsStreetWord(tokens[s - 1]) && !IsTypeToken(tokens[s - 1], AddressConstants.TypeSet))
  {
    var s := StreetStart(tokens, AddressConstants.TypeSet, AddressConstants.AllowedStreetTokens, typeIdx);
    forall j | s <= j < typeIdx
      ensures IsStreetWord(tokens[j])
    {
      if Upper(tokens[j]) in AddressConstants.AllowedStreetTokens {
        AllowedTokensAreStreetWords(tokens[j]);
      }
    }
    if s > 0 {
      assert !IsTypeToken(tokens[s - 1], AddressConstants.TypeSet);
    }
  }

  // ---------------------------------------------------------------------------
  // LOW and HIGH
  // ---------------------------------------------------------------------------

  /** `!isNaN(Number(t)) && Number(t) >= 100 && Number(t) <= 99999`. */
  predicate IsDoorNumber(t: string) {
    var v := NumberValue(t);
    v.Some? && 100 <= v.value <= 99999
  }

  /** The door-number tokens of `ts`, in order (the `filter`). */
  function DoorCandidates(ts: seq<string>): (ds: seq<string>)
    ensures |ds| <= |ts|
    ensures forall i :: 0 <= i < |ds| ==> IsDoorNumber(ds[i])
    ensures forall j :: 0 <= j < |ts| && IsDoorNumber(ts[j]) ==> ts[j] in ds
  {
    FilterIsSelection(ts, IsDoorNumber);
    Filter(ts, IsDoorNumber)
  }

  /** LOW and HIGH: the first two door numbers after the street type, or both empty. */
  function DoorRange(tokens: seq<string>, typeIdx: int): (string, string)
    requires -1 <= typeIdx < |tokens|
  {
    if typeIdx == -1 then ("", "")
    else
      var numberTokens := DoorCandidates(tokens[typeIdx + 1..]);
      if |numberTokens| >= 2 then (numberTokens[0], numberTokens[1]) else ("", "")
  }

  /** `DoorCandidates(ts)` begins with `ts[a]` and `ts[b]`: the first two door numbers of `ts`. */
  predicate FirstTwoDoors(ts: seq<string>, a: nat, b: nat) {
    && a < b < |ts|
    && IsDoorNumber(ts[a]) && IsDoorNumber(ts[b])
    && (forall i :: 0 <= i < a ==> !IsDoorNumber(ts[i]))
    && (forall i :: a < i < b ==> !IsDoorNumber(ts[i]))
  }

  lemma DoorCandidatesFirstTwo(ts: seq<string>) returns (a: nat, b: nat)
    requires |DoorCandidates(ts)| >= 2
    ensures FirstTwoDoors(ts, a, b) && DoorCandidates(ts)[0] == ts[a] && DoorCandidates(ts)[1] == ts[b]
  {
    a := FilterHead(ts, IsDoorNumber);
    var rest := ts[a + 1..];
    var c := FilterHead(rest, IsDoorNumber);
    b := a + 1 + c;
    assert forall i :: a < i < b ==> ts[i] == rest[i - a - 1];
  }

  /** `tokens[a]` and `tokens[b]` are the first two door numbers at or after index `from`. */
  predicate FirstTwoDoorsFrom(tokens: seq<string>, from: nat, a: nat, b: nat) {
    && from <= a < b < |tokens|
    && IsDoorNumber(tokens[a]) && IsDoorNumber(tokens[b])
    && (forall i :: from <= i < a ==> !IsDoorNumber(tokens[i]))
    && (forall i :: a < i < b ==> !IsDoorNumber(tokens[i]))
  }

  lemma FirstTwoDoorsShift(tokens: seq<string>, from: nat, a: nat, b: nat)
    requires from <= |tokens|
    ensures FirstTwoDoors(tokens[from..], a, b) <==> FirstTwoDoorsFrom(tokens, from, from + a, from + b)
  {
    assert forall i :: 0 <= i < |tokens| - from ==> tokens[from..][i] == tokens[from + i];
  }

  /**
   * LOW and HIGH are set together or not at all. When set they are, in this order
   * and never swapped, the first two tokens after the street type whose value
   * lies in [100, 99999]; they are empty when no street type was found or fewer
   * than two such tokens follow it.
   */
  lemma DoorRangeIsFirstTwoNumbers(tokens: seq<string>, typeIdx: int)
    requires -1 <= typeIdx < |tokens|
    ensures DoorRange(tokens, typeIdx).0 == "" <==> DoorRange(tokens, typeIdx).1 == ""
    ensures typeIdx == -1 ==> DoorRange(tokens, typeIdx) == ("", "")
    ensures DoorRange(tokens, typeIdx).0 != "" ==>
      exists a: nat, b: nat :: FirstTwoDoorsFrom(tokens, typeIdx + 1, a, b)
        && DoorRange(tokens, typeIdx) == (tokens[a], tokens[b])
    ensures typeIdx != -1 && DoorRange(tokens, typeIdx).0 == "" ==>
      forall a, b :: typeIdx < a < b < |tokens| ==> !(IsDoorNumber(tokens[a]) && IsDoorNumber(tokens[b]))
  {
    if typeIdx != -1 {
      var from := typeIdx + 1;
      var ts := tokens[from..];
      if |DoorCandidates(ts)| >= 2 {
        var a, b := DoorCandidatesFirstTwo(ts);
        assert ts[a] != "" && ts[b] != "";
        FirstTwoDoorsShift(tokens, from, a, b);
        assert ts[a] == tokens[from + a] && ts[b] == tokens[from + b];
      } else {
        forall a, b | typeIdx < a < b < |tokens| ensures !(IsDoorNumber(tokens[a]) && IsDoorNumber(tokens[b])) {
          if IsDoorNumber(tokens[a]) && IsDoorNumber(tokens[b]) {
            assert ts[a - from] == tokens[a] && ts[b - from] == tokens[b];
            FilterKeepsTwo(ts, IsDoorNumber, a - from, b - from);
          }
        }
      }
    }
  }

  // ---------------------------------------------------------------------------
  // The seven fields together
  // ---------------------------------------------------------------------------

  /** The record holding the seven fields recovered from `line`, every other field empty. */
  function LineFieldsOf(line: string, types: set<string>, allowed: set<string>): AddressRecord {
    var tokens := Tokenize(line);
    var zip := ZipOf(tokens);
    var typeIdx := TypeIndex(tokens, types);
    var doors := DoorRange(tokens, typeIdx);
    EmptyRecord.(trackNum := TrackNumOf(tokens), zip := zip, city := CityOf(tokens, zip),
      street := StreetOf(tokens, types, allowed, typeIdx), streetType := TypeOf(tokens, typeIdx),
      low := doors.0, high := doors.1)
  }

  /** TRACKNUM: the first token when it carries the pattern. */
  method FillTrackNum(tokens: seq<string>, result: AddressRecord) returns (r: AddressRecord)
    requires |tokens| >= 1 && result.trackNum == ""
    ensures r == result.(trackNum := TrackNumOf(tokens))
  {
    r := result;
    if HasTrackPattern(tokens[0]) {
      r := r.(trackNum := tokens[0]);
    }
  }

  /** ZIP and CITY: ZIP from the first five-digit token, CITY from the token after it. */
  method FillZipAndCity(tokens: seq<string>, result: AddressRecord) returns (r: AddressRecord)
    requires result.zip == "" && result.city == ""
    ensures r == result.(zip := ZipOf(tokens), city := CityOf(tokens, ZipOf(tokens)))
  {
    r := result;
    var zipCandidates := ZipCandidates(tokens);
    if |zipCandidates| > 0 {
      r := r.(zip := zipCandidates[0]);
    }
    if r.zip != "" {
      var zipIdx := IndexOf(tokens, r.zip);
      if zipIdx + 1 < |tokens| {
        r := r.(city := tokens[zipIdx + 1]);
      }
    }
  }

  /** TYPE and STREET: TYPE from the first street-type token, STREET from the walk back from it. */
  method FillTypeAndStreet(tokens: seq<string>, types: set<string>, allowed: set<string>, result: AddressRecord)
    returns (r: AddressRecord, typeIdx: int)
    requires result.streetType == "" && result.street == ""
    ensures typeIdx == TypeIndex(tokens, types)
    ensures r == result.(streetType := TypeOf(tokens, typeIdx), street := StreetOf(tokens, types, allowed, typeIdx))
  {
    r := result;
    typeIdx := FindTypeIndex(tokens, types);
    if typeIdx != -1 {
      r := r.(streetType := Upper(tokens[typeIdx]));
    }
    if typeIdx > 0 {
      var streetParts := CollectStreet(tokens, types, allowed, typeIdx);
      if |streetParts| > 0 {
        r := r.(street := JoinSpaces(streetParts));
      }
    }
  }

  /** LOW and HIGH: the first two door numbers after the street type. */
  method FillDoorRange(tokens: seq<string>, typeIdx: int, result: AddressRecord) returns (r: AddressRecord)
    requires -1 <= typeIdx < |tokens|
    requires result.low == "" && result.high == ""
    ensures r == result.(low := DoorRange(tokens, typeIdx).0, high := DoorRange(tokens, typeIdx).1)
  {
    r := result;
    if typeIdx != -1 {
      var numberTokens := DoorCandidates(tokens[typeIdx + 1..]);
      if |numberTokens| >= 2 {
        r := r.(low := numberTokens[0], high := numberTokens[1]);
      }
    }
  }

  /**
   * The first part of both line parsers: starting from the empty record, fill in
   * TRACKNUM, ZIP, CITY, TYPE, STREET, LOW and HIGH one field after another.
   */
  method ParseFields(line: string, types: set<string>, allowed: set<string>) returns (result: AddressRecord)
    ensures result == LineFieldsOf(line, types, allowed)
  {
    result := EmptyRecord;
    var tokens := Tokenize(line);
    result := FillTrackNum(tokens, result);
    result := FillZipAndCity(tokens, result);
    var typeIdx;
    result, typeIdx := FillTypeAndStreet(tokens, types, allowed, result);
    result := FillDoorRange(tokens, typeIdx, result);
  }

  // ---------------------------------------------------------------------------
  // Field by field
  // ---------------------------------------------------------------------------

  /**
   * TRACKNUM is the first token exactly when an `R`, digits, `_` and a digit
   * appear somewhere inside it; otherwise it is empty.
   */
  lemma FieldsTrackNum(line: string, types: set<string>, allowed: set<string>)
    ensures var tokens := Tokenize(line);
      LineFieldsOf(line, types, allowed).trackNum == if exists i, j :: TrackSpan(tokens[0], i, j) then tokens[0] else ""
  {
    TrackPatternIff(Tokenize(line)[0]);
  }

  /**
   * ZIP is empty exactly when no token has five digits, and otherwise the first
   * such token; CITY is the token after it, empty when there is none.
   */
  lemma FieldsZipAndCity(line: string, types: set<string>, allowed: set<string>)
    ensures var tokens := Tokenize(line); var r := LineFieldsOf(line, types, allowed);
      && (r.zip == "" <==> forall i :: 0 <= i < |tokens| ==> !IsZipToken(tokens[i]))
      && (r.zip == "" ==> r.city == "")
      && (r.zip != "" ==>
            var k := IndexOf(tokens, r.zip);
            && 0 <= k < |tokens| && IsZipToken(tokens[k]) && r.zip == tokens[k]
            && (forall i :: 0 <= i < k ==> !IsZipToken(tokens[i]))
            && r.city == (if k + 1 < |tokens| then tokens[k + 1] else ""))
  {
    ZipAndCity(Tokenize(line));
  }

  /**
   * With the repository's street vocabulary, TYPE is empty exactly when no token
   * is a street type, and otherwise the upper-case form of the first one. STREET
   * is then the space-joined, original-case run of street words ending just
   * before the type, which no ZIP or CITY interrupts: only a token outside
   * `[A-Za-z0-9-]+`, or the start of the line, stops it. Split again, STREET
   * gives back exactly those tokens.
   */
  lemma FieldsTypeAndStreet(line: string)
    ensures var tokens := Tokenize(line);
      var r := LineFieldsOf(line, AddressConstants.TypeSet, AddressConstants.AllowedStreetTokens);
      var k := TypeIndex(tokens, AddressConstants.TypeSet);
      && (r.streetType == "" <==> forall i :: 0 <= i < |tokens| ==> !IsTypeToken(tokens[i], AddressConstants.TypeSet))
      && (k != -1 ==> r.streetType == Upper(tokens[k]) && r.streetType in AddressConstants.TypeSet)
      && (k <= 0 ==> r.street == "")
      && (k > 0 ==> var s := StreetStart(tokens, AddressConstants.TypeSet, AddressConstants.AllowedStreetTokens, k);
            && (forall j :: s <= j < k ==> IsStreetWord(tokens[j]))
            && (s > 0 ==> !IsStreetWord(tokens[s - 1]))
            && r.street == JoinSpaces(tokens[s..k])
            && (s < k ==> Tokenize(r.street) == tokens[s..k]))
  {
    TypeOfFirstType(Tokenize(line));
    StreetOfIsWordRun(Tokenize(line));
  }

  /** The TYPE half of `FieldsTypeAndStreet`, on the token sequence. */
  lemma TypeOfFirstType(tokens: seq<string>)
    ensures var k := TypeIndex(tokens, AddressConstants.TypeSet);
      && (TypeOf(tokens, k) == "" <==> forall i :: 0 <= i < |tokens| ==> !IsTypeToken(tokens[i], AddressConstants.TypeSet))
      && (k != -1 ==> TypeOf(tokens, k) == Upper(tokens[k]) && TypeOf(tokens, k) in AddressConstants.TypeSet)
  {
    AddressConstants.VocabularyIsUpperCase();
  }

  /** The STREET half of `FieldsTypeAndStreet`, on the token sequence. */
  lemma StreetOfIsWordRun(tokens: seq<string>)
    ensures var k := TypeIndex(tokens, AddressConstants.TypeSet);
      var street := StreetOf(tokens, AddressConstants.TypeSet, AddressConstants.AllowedStreetTokens, k);
      && (k <= 0 ==> street == "")
      && (k > 0 ==> var s := StreetStart(tokens, AddressConstants.TypeSet, AddressConstants.AllowedStreetTokens, k);
            && (forall j :: s <= j < k ==> IsStreetWord(tokens[j]))
            && (s > 0 ==> !IsStreetWord(tokens[s - 1]))
            && street == JoinSpaces(tokens[s..k])
            && (s < k ==> Tokenize(street) == tokens[s..k]))
  {
    var k := TypeIndex(tokens, AddressConstants.TypeSet);
    if k > 0 {
      StreetIsMaximalWordRun(tokens, k);
      var s := StreetStart(tokens, AddressConstants.TypeSet, AddressConstants.AllowedStreetTokens, k);
      if s < k {
        StreetWordsRoundTrip(tokens, s, k);
      }
    }
  }

  /** Street words hold no white space, so joining them with spaces and splitting again gives them back. */
  lemma StreetWordsRoundTrip(tokens: seq<string>, s: nat, k: nat)
    requires s < k <= |tokens|
    requires forall j :: s <= j < k ==> IsStreetWord(tokens[j])
    ensures Tokenize(JoinSpaces(tokens[s..k])) == tokens[s..k]
  {
    var parts := tokens[s..k];
    forall i | 0 <= i < |parts|
      ensures parts[i] != [] && NoSpace(parts[i])
    {
      var t := parts[i];
      assert t == tokens[s + i] && IsStreetWord(t);
      assert forall m :: 0 <= m < |t| ==> IsStreetChar(UpperChar(t[m]));
    }
    TokenizeJoin(parts);
  }

  /**
   * LOW and HIGH are set together; when set they are the first two tokens after
   * TYPE with a value in [100, 99999], in order; with no TYPE both are empty.
   */
  lemma FieldsDoorRange(line: string, types: set<string>, allowed: set<string>)
    requires "" !in types
    ensures var tokens := Tokenize(line); var r := LineFieldsOf(line, types, allowed);
      var k := TypeIndex(tokens, types);
      && (r.low == "" <==> r.high == "")
      && (r.streetType == "" ==> r.low == "")
      && (r.low != "" ==> exists a: nat, b: nat :: (FirstTwoDoorsFrom(tokens, k + 1, a, b)
            && r.low == tokens[a] && r.high == tokens[b]))
  {
    var tokens := Tokenize(line);
    var k := TypeIndex(tokens, types);
    LineFieldsDoors(line, types, allowed);
    DoorRangeIsFirstTwoNumbers(tokens, k);
  }

  /** LOW, HIGH and TYPE of the record come from `DoorRange` and `TypeOf` at the first street-type token. */
  lemma LineFieldsDoors(line: string, types: set<string>, allowed: set<string>)
    requires "" !in types
    ensures var tokens := Tokenize(line); var r := LineFieldsOf(line, types, allowed);
      var k := TypeIndex(tokens, types);
      && r.low == DoorRange(tokens, k).0 && r.high == DoorRange(tokens, k).1
      && (r.streetType == "" ==> k == -1)
  {
  }
}
