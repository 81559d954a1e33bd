/**
 * `findMatches`: a first pass that sorts the records of the searched ZIP and
 * city into exact and near matches by street and door number, and a fallback
 * pass that adds ZIP-only records with a similar street when nothing matched
 * exactly.
 */
module AddressMatcher {
  import opened Text
  import opened Wrappers
  import opened Sequences
  import opened AddressTypes

  /** The search criteria; an optional criterion that is not given is the empty string. */
  datatype Criteria = Criteria(zipCode: string, city: string, street: string, streetType: string, doorNumber: string)

  /** How far outside a record's door range a door number still counts as near. */
  const Window := 200

  /** The street similarity a fallback match needs. */
  const SimilarityThreshold: real := 0.7

  // ---------------------------------------------------------------------------
  // The first pass, record by record
  // ---------------------------------------------------------------------------

  /** Same ZIP, and the same city up to case. */
  predicate InLocation(r: AddressRecord, c: Criteria) {
    r.zip == c.zipCode && Upper(r.city) == Upper(c.city)
  }

  /** `isExactStreetMatch`: the street contains the searched one and the type is the searched one, up to case, where given. */
  predicate IsExactStreetMatch(r: AddressRecord, c: Criteria) {
    && (c.street == "" || Contains(Upper(r.street), Upper(c.street)))
    && (c.streetType == "" || Upper(r.streetType) == Upper(c.streetType))
  }

  /** A door number was searched for and the record has both ends of its range. */
  predicate HasDoorTest(r: AddressRecord, c: Criteria) {
    c.doorNumber != "" && r.low != "" && r.high != ""
  }

  /** `a <= b` on the results of `parseInt`: false when either is NaN. */
  predicate NumLe(a: Option<int>, b: Option<int>) {
    a.Some? && b.Some? && a.value <= b.value
  }

  /** `Math.abs(a - b) <= Window` on the results of `parseInt`: false when either is NaN. */
  predicate NumNear(a: Option<int>, b: Option<int>) {
    a.Some? && b.Some? && -Window <= a.value - b.value <= Window
  }

  datatype Verdict = Exact | Near | Excluded

  /** Where the first pass puts a record. */
  function FirstPassVerdict(r: AddressRecord, c: Criteria): Verdict {
    if !InLocation(r, c) then Excluded
    else if HasDoorTest(r, c) then
      var doorNum := ParseInt(c.doorNumber);
      var low := ParseInt(r.low);
      var high := ParseInt(r.high);
      if NumLe(low, doorNum) && NumLe(doorNum, high) && IsExactStreetMatch(r, c) then Exact
      else if (NumNear(doorNum, low) || NumNear(doorNum, high)) && IsExactStreetMatch(r, c) then Near
      else Excluded
    else if IsExactStreetMatch(r, c) then Exact
    else Excluded
  }

  /** The copy a near match is reported as: RISK_CATEGORY marked approximate. */
  function Approximate(r: AddressRecord): AddressRecord {
    r.(riskCategory := "Approximate " + (if r.riskCategory != "" then r.riskCategory else "Unknown Risk"))
  }

  // ---------------------------------------------------------------------------
  // The passes over the list
  // ---------------------------------------------------------------------------

  /** The records the first pass gives verdict `v`, in input order. */
  function WithVerdict(records: seq<AddressRecord>, c: Criteria, v: Verdict): seq<AddressRecord> {
    Filter(records, HasVerdict(c, v))
  }

  /** The test `WithVerdict` filters by. */
  function HasVerdict(c: Criteria, v: Verdict): AddressRecord -> bool {
    r => FirstPassVerdict(r, c) == v
  }

  /** A fallback candidate: the searched ZIP, and a street similar enough once both are upper-cased. */
  predicate IsSimilar(r: AddressRecord, c: Criteria, similarity: (string, string) -> real) {
    r.zip == c.zipCode && similarity(Upper(c.street), Upper(r.street)) >= SimilarityThreshold
  }

  /** The records the fallback pass takes, in input order. */
  function FallbackRecords(records: seq<AddressRecord>, c: Criteria, similarity: (string, string) -> real)
    : seq<AddressRecord>
  {
    Filter(records, SimilarTo(c, similarity))
  }

  /** The test `FallbackRecords` filters by. */
  function SimilarTo(c: Criteria, similarity: (string, string) -> real): AddressRecord -> bool {
    r => IsSimilar(r, c, similarity)
  }

  /** The approximate copies of `records`, in order. */
  function ApproximateAll(records: seq<AddressRecord>): (copies: seq<AddressRecord>)
    ensures |copies| == |records|
    ensures forall i :: 0 <= i < |records| ==> copies[i] == Approximate(records[i])
  {
    if records == [] then []
    else
      var init := records[..|records| - 1];
      assert forall i :: 0 <= i < |records| - 1 ==> records[i] == init[i];
      ApproximateAll(init) + [Approximate(records[|records| - 1])]
  }

  /** The fallback runs only when the first pass found no exact match and a street was searched for. */
  predicate FallbackRuns(exact: seq<AddressRecord>, c: Criteria) {
    |exact| == 0 && c.street != ""
  }

  /** What `findMatches` returns. */
  function Matches(records: seq<AddressRecord>, c: Criteria, similarity: (string, string) -> real): SearchResults {
    var exact := WithVerdict(records, c, Exact);
    var near := ApproximateAll(WithVerdict(records, c, Near));
    var fallback := if FallbackRuns(exact, c) then ApproximateAll(FallbackRecords(records, c, similarity)) else [];
    SearchResults(exact, near + fallback)
  }

  /**
   * `findMatches`, with the similarity measure a parameter: the first loop with
   * its flag and `continue`s, then the fallback loop.
   */
  method FindMatches(records: seq<AddressRecord>, c: Criteria, similarity: (string, string) -> real)
    returns (results: SearchResults)
    ensures results == Matches(records, c, similarity)
  {
    var exactMatches: seq<AddressRecord> := [];
    var nearMatches: seq<AddressRecord> := [];
    for i := 0 to |records|
      invariant exactMatches == WithVerdict(records[..i], c, Exact)
      invariant nearMatches == ApproximateAll(WithVerdict(records[..i], c, Near))
    {
      var record := records[i];
      WithVerdictStep(records, i, c);
      if record.zip != c.zipCode || Upper(record.city) != Upper(c.city) {
        assert FirstPassVerdict(record, c) == Excluded;
        continue;
      }
      var isExactStreetMatch := true;
      if c.street != "" && !Contains(Upper(record.street), Upper(c.street)) {
        isExactStreetMatch := false;
      }
      if c.streetType != "" && Upper(record.streetType) != Upper(c.streetType) {
        isExactStreetMatch := false;
      }
      assert isExactStreetMatch == IsExactStreetMatch(record, c);
      if c.doorNumber != "" && record.low != "" && record.high != "" {
        var doorNum := ParseInt(c.doorNumber);
        var low := ParseInt(record.low);
        var high := ParseInt(record.high);
        if NumLe(low, doorNum) && NumLe(doorNum, high) && isExactStreetMatch {
          assert FirstPassVerdict(record, c) == Exact;
          exactMatches := exactMatches + [record];
          continue;
        }
        if (NumNear(doorNum, low) || NumNear(doorNum, high)) && isExactStreetMatch {
          assert FirstPassVerdict(record, c) == Near;
          nearMatches := nearMatches + [Approximate(record)];
        } else {
          assert FirstPassVerdict(record, c) == Excluded;
        }
      } else if isExactStreetMatch {
        assert FirstPassVerdict(record, c) == Exact;
        exactMatches := exactMatches + [record];
      } else {
        assert FirstPassVerdict(record, c) == Excluded;
      }
    }
    assert records[..|records|] == records;
    if |exactMatches| == 0 && c.street != "" {
      nearMatches := AddFallbackMatches(records, c, similarity, nearMatches);
    }
    results := SearchResults(exactMatches, nearMatches);
  }

  /** The fallback loop: appends the approximate copy of every similar record of the searched ZIP. */
  method AddFallbackMatches(records: seq<AddressRecord>, c: Criteria, similarity: (string, string) -> real,
                            nearMatches: seq<AddressRecord>)
    returns (extended: seq<AddressRecord>)
    ensures extended == nearMatches + ApproximateAll(FallbackRecords(records, c, similarity))
  {
    extended := nearMatches;
    ghost var added: seq<AddressRecord> := [];
    for i := 0 to |records|
      invariant added == ApproximateAll(FallbackRecords(records[..i], c, similarity))
      invariant extended == nearMatches + added
    {
      var record := records[i];
      FallbackStep(records, i, c, similarity);
      if record.zip != c.zipCode {
        continue;
      }
      var score := similarity(Upper(c.street), Upper(record.street));
      if score >= SimilarityThreshold {
        extended := extended + [Approximate(record)];
        added := added + [Approximate(record)];
      }
    }
    assert records[..|records|] == records;
  }

  /** Copying one record more appends its copy. */
  lemma ApproximateAllAppend(records: seq<AddressRecord>, r: AddressRecord)
    ensures ApproximateAll(records + [r]) == ApproximateAll(records) + [Approximate(r)]
  {
    assert (records + [r])[..|records|] == records;
  }

  /** One more record through the first pass: it joins the list its verdict names. */
  lemma WithVerdictStep(records: seq<AddressRecord>, i: nat, c: Criteria)
    requires i < |records|
    ensures var r := records[i];
      && WithVerdict(records[..i + 1], c, Exact)
        == WithVerdict(records[..i], c, Exact) + (if FirstPassVerdict(r, c) == Exact then [r] else [])
      && ApproximateAll(WithVerdict(records[..i + 1], c, Near))
        == ApproximateAll(WithVerdict(records[..i], c, Near)) + (if FirstPassVerdict(r, c) == Near then [Approximate(r)] else [])
  {
    FilterStep(records, i, HasVerdict(c, Exact));
    FilterStep(records, i, HasVerdict(c, Near));
    var near := WithVerdict(records[..i], c, Near);
    assert HasVerdict(c, Exact)(records[i]) == (FirstPassVerdict(records[i], c) == Exact);
    assert HasVerdict(c, Near)(records[i]) == (FirstPassVerdict(records[i], c) == Near);
    if FirstPassVerdict(records[i], c) == Near {
      assert WithVerdict(records[..i + 1], c, Near) == near + [records[i]];
      ApproximateAllAppend(near, records[i]);
    } else {
      assert WithVerdict(records[..i + 1], c, Near) == near;
    }
  }

  /** One more record through the fallback pass. */
  lemma FallbackStep(records: seq<AddressRecord>, i: nat, c: Criteria, similarity: (string, string) -> real)
    requires i < |records|
    ensures var r := records[i];
      ApproximateAll(FallbackRecords(records[..i + 1], c, similarity))
        == ApproximateAll(FallbackRecords(records[..i], c, similarity)) + (if IsSimilar(r, c, similarity) then [Approximate(r)] else [])
  {
    FilterStep(records, i, SimilarTo(c, similarity));
    var kept := FallbackRecords(records[..i], c, similarity);
    assert SimilarTo(c, similarity)(records[i]) == IsSimilar(records[i], c, similarity);
    if IsSimilar(records[i], c, similarity) {
      assert FallbackRecords(records[..i + 1], c, similarity) == kept + [records[i]];
      ApproximateAllAppend(kept, records[i]);
    } else {
      assert FallbackRecords(records[..i + 1], c, similarity) == kept;
    }
  }

  // ---------------------------------------------------------------------------
  // Properties of one verdict
  // ---------------------------------------------------------------------------

  /**
   * A record the first pass keeps has the searched ZIP and city, and matches the
   * searched street and type; a near match always went through the door test.
   */
  lemma KeptRecordsPassTheFilters(r: AddressRecord, c: Criteria)
    ensures FirstPassVerdict(r, c) != Excluded ==>
      && r.zip == c.zipCode && Upper(r.city) == Upper(c.city)
      && (c.street != "" ==> Contains(Upper(r.street), Upper(c.street)))
      && (c.streetType != "" ==> Upper(r.streetType) == Upper(c.streetType))
    ensures FirstPassVerdict(r, c) == Near ==> HasDoorTest(r, c)
  {
  }

  /**
   * With a door test, a record of the searched place is exact exactly when its
   * street matches and the door number lies within its range.
   */
  lemma ExactIffInRange(r: AddressRecord, c: Criteria)
    requires InLocation(r, c) && HasDoorTest(r, c)
    ensures var d := ParseInt(c.doorNumber);
      var low := ParseInt(r.low);
      var high := ParseInt(r.high);
      FirstPassVerdict(r, c) == Exact <==>
        IsExactStreetMatch(r, c) && d.Some? && low.Some? && high.Some? && low.value <= d.value <= high.value
  {
  }

  /**
   * With a door test and a well-ordered range, a record of the searched place
   * whose street matches is kept (exact or near) exactly when the door number
   * lies in [low - 200, high + 200], and near exactly when it lies in that
   * window but outside [low, high].
   */
  lemma NearIffInWindow(r: AddressRecord, c: Criteria)
    requires InLocation(r, c) && HasDoorTest(r, c) && IsExactStreetMatch(r, c)
    requires var low := ParseInt(r.low);
      var high := ParseInt(r.high);
      ParseInt(c.doorNumber).Some? && low.Some? && high.Some? && low.value <= high.value
    ensures var d := ParseInt(c.doorNumber).value;
      var low := ParseInt(r.low).value;
      var high := ParseInt(r.high).value;
      && (FirstPassVerdict(r, c) != Excluded <==> low - Window <= d <= high + Window)
      && (FirstPassVerdict(r, c) == Near <==> (low - Window <= d < low || high < d <= high + Window))
  {
    var d := ParseInt(c.doorNumber).value;
    var low := ParseInt(r.low).value;
    var high := ParseInt(r.high).value;
    if d < low {
      assert NumNear(ParseInt(c.doorNumber), ParseInt(r.high)) ==> NumNear(ParseInt(c.doorNumber), ParseInt(r.low));
    } else if d > high {
      assert NumNear(ParseInt(c.doorNumber), ParseInt(r.low)) ==> NumNear(ParseInt(c.doorNumber), ParseInt(r.high));
    }
  }

  /** A door number that does not parse (NaN) keeps a record out of both lists. */
  lemma UnparsableDoorExcludes(r: AddressRecord, c: Criteria)
    requires HasDoorTest(r, c) && ParseInt(c.doorNumber).None?
    ensures FirstPassVerdict(r, c) == Excluded
  {
  }

  /** Without a door test, a record of the searched place is exact exactly when its street matches, and never near. */
  lemma NoDoorTestMeansExact(r: AddressRecord, c: Criteria)
    requires InLocation(r, c) && !HasDoorTest(r, c)
    ensures FirstPassVerdict(r, c) == Exact <==> IsExactStreetMatch(r, c)
    ensures FirstPassVerdict(r, c) != Near
  {
  }

  /**
   * The approximate copy differs from the record in RISK_CATEGORY only, which is
   * `Approximate ` followed by the old category, or by `Unknown Risk` when there was none.
   */
  lemma ApproximateMarksRiskOnly(r: AddressRecord)
    ensures Approximate(r).(riskCategory := r.riskCategory) == r
    ensures var risk := Approximate(r).riskCategory;
      && |risk| >= 12 && risk[..12] == "Approximate "
      && risk[12..] == (if r.riskCategory == "" then "Unknown Risk" else r.riskCategory)
  {
    var tail := if r.riskCategory != "" then r.riskCategory else "Unknown Risk";
    assert ("Approximate " + tail)[..12] == "Approximate ";
    assert ("Approximate " + tail)[12..] == tail;
  }

  // ---------------------------------------------------------------------------
  // Properties of the passes
  // ---------------------------------------------------------------------------

  /**
   * The records with a verdict are taken from the input in its order, all have
   * that verdict, and every input record with that verdict is among them.
   */
  lemma WithVerdictIsFilter(records: seq<AddressRecord>, c: Criteria, v: Verdict)
    ensures forall i :: 0 <= i < |WithVerdict(records, c, v)| ==> FirstPassVerdict(WithVerdict(records, c, v)[i], c) == v
    ensures IsSubsequence(WithVerdict(records, c, v), records)
    ensures forall j :: 0 <= j < |records| && FirstPassVerdict(records[j], c) == v ==> records[j] in WithVerdict(records, c, v)
  {
    FilterIsSelection(records, HasVerdict(c, v));
  }

  /** The fallback records are taken from the input in its order, and are exactly its similar records. */
  lemma FallbackRecordsIsFilter(records: seq<AddressRecord>, c: Criteria, similarity: (string, string) -> real)
    ensures forall i :: 0 <= i < |FallbackRecords(records, c, similarity)| ==>
      IsSimilar(FallbackRecords(records, c, similarity)[i], c, similarity)
    ensures IsSubsequence(FallbackRecords(records, c, similarity), records)
    ensures forall j :: 0 <= j < |records| && IsSimilar(records[j], c, similarity) ==>
      records[j] in FallbackRecords(records, c, similarity)
  {
    FilterIsSelection(records, SimilarTo(c, similarity));
  }

  /** Each record gets one verdict, so the first pass puts no record in both lists. */
  lemma {:induction false} VerdictsPartition(records: seq<AddressRecord>, c: Criteria)
    ensures |WithVerdict(records, c, Exact)| + |WithVerdict(records, c, Near)| + |WithVerdict(records, c, Excluded)|
      == |records|
  {
    if records != [] {
      VerdictsPartition(records[..|records| - 1], c);
    }
  }

  /**
   * Every exact match is an input record of the searched place whose street
   * matches; the near list starts with the approximate copies of the first
   * pass's near records, and holds more only when the fallback runs.
   */
  lemma MatchesShape(records: seq<AddressRecord>, c: Criteria, similarity: (string, string) -> real)
    ensures var m := Matches(records, c, similarity);
      forall i :: 0 <= i < |m.exactMatches| ==>
        m.exactMatches[i] in records && InLocation(m.exactMatches[i], c) && IsExactStreetMatch(m.exactMatches[i], c)
    ensures var m := Matches(records, c, similarity);
      var near := WithVerdict(records, c, Near);
      && |near| <= |m.nearMatches|
      && (forall i :: 0 <= i < |near| ==> m.nearMatches[i] == Approximate(near[i]))
      && (!FallbackRuns(m.exactMatches, c) ==> |m.nearMatches| == |near|)
  {
    var exact := WithVerdict(records, c, Exact);
    WithVerdictIsFilter(records, c, Exact);
    SubsequenceMembers(exact, records);
    forall i | 0 <= i < |exact|
      ensures InLocation(exact[i], c) && IsExactStreetMatch(exact[i], c)
    {
      KeptRecordsPassTheFilters(exact[i], c);
    }
  }

  /**
   * The fallback entries are the approximate copies of every record of the
   * searched ZIP, whatever its city or door range, whose street is similar enough.
   */
  lemma FallbackShape(records: seq<AddressRecord>, c: Criteria, similarity: (string, string) -> real)
    requires FallbackRuns(WithVerdict(records, c, Exact), c)
    ensures var m := Matches(records, c, similarity);
      var near := WithVerdict(records, c, Near);
      var fallback := FallbackRecords(records, c, similarity);
      && |m.nearMatches| == |near| + |fallback|
      && (forall i :: 0 <= i < |fallback| ==> m.nearMatches[|near| + i] == Approximate(fallback[i]))
      && (forall i :: 0 <= i < |fallback| ==> fallback[i] in records && IsSimilar(fallback[i], c, similarity))
      && (forall j :: 0 <= j < |records| && IsSimilar(records[j], c, similarity) ==> records[j] in fallback)
  {
    var fallback := FallbackRecords(records, c, similarity);
    FallbackRecordsIsFilter(records, c, similarity);
    SubsequenceMembers(fallback, records);
  }

  /** No records, no matches. */
  lemma NoRecordsNoMatches(c: Criteria, similarity: (string, string) -> real)
    ensures Matches([], c, similarity) == SearchResults([], [])
  {
  }

  /** Both lists can be non-empty at once: one record in range, another only near it. */
  lemma ExactAndNearTogether(a: AddressRecord, b: AddressRecord, c: Criteria, similarity: (string, string) -> real)
    requires FirstPassVerdict(a, c) == Exact && FirstPassVerdict(b, c) == Near
    ensures Matches([a, b], c, similarity) == SearchResults([a], [Approximate(b)])
  {
    WithVerdictStep([a, b], 0, c);
    WithVerdictStep([a, b], 1, c);
    assert [a, b][..0] == [] && [a, b][..2] == [a, b];
  }

  /** A single record ends up exact, near, near twice or nowhere, as its verdict and similarity say. */
  lemma MatchesOfOne(r: AddressRecord, c: Criteria, similarity: (string, string) -> real)
    ensures var exact := if FirstPassVerdict(r, c) == Exact then [r] else [];
      var near := if FirstPassVerdict(r, c) == Near then [Approximate(r)] else [];
      var fallback := if exact == [] && c.street != "" && IsSimilar(r, c, similarity) then [Approximate(r)] else [];
      Matches([r], c, similarity) == SearchResults(exact, near + fallback)
  {
    assert [r][..0] == [];
    assert ApproximateAll([r]) == [Approximate(r)];
    var extra := if IsSimilar(r, c, similarity) then [Approximate(r)] else [];
    assert ApproximateAll(FallbackRecords([r], c, similarity)) == extra;
    match FirstPassVerdict(r, c)
    case Exact =>
      assert WithVerdict([r], c, Exact) == [r];
      assert WithVerdict([r], c, Near) == [];
    case Near =>
      assert WithVerdict([r], c, Exact) == [];
      assert WithVerdict([r], c, Near) == [r];
    case Excluded =>
      assert WithVerdict([r], c, Exact) == [];
      assert WithVerdict([r], c, Near) == [];
  }

  /** A near record whose street is also similar is listed twice: once by each pass. */
  lemma NearListedTwice(r: AddressRecord, c: Criteria, similarity: (string, string) -> real)
    requires FirstPassVerdict(r, c) == Near && c.street != "" && IsSimilar(r, c, similarity)
    ensures Matches([r], c, similarity) == SearchResults([], [Approximate(r), Approximate(r)])
  {
    MatchesOfOne(r, c, similarity);
  }

  /** The fallback takes a record of another city, which the first pass never would. */
  lemma FallbackIgnoresCity(r: AddressRecord, c: Criteria, similarity: (string, string) -> real)
    requires Upper(r.city) != Upper(c.city) && c.street != "" && IsSimilar(r, c, similarity)
    ensures Matches([r], c, similarity) == SearchResults([], [Approximate(r)])
  {
    MatchesOfOne(r, c, similarity);
  }
}
