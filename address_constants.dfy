/** The two fixed vocabularies both line parsers consult. */
module AddressConstants {
  import opened Text

  /** `TYPE_SET`: the street-type abbreviations. */
  const TypeSet: set<string> := {"RD", "ST", "AVE", "DR", "LN", "BLVD", "CT", "WAY", "PL", "PKWY", "TUNL"}

  /** `ALLOWED_STREET_TOKENS`: extra words allowed inside a multi-word street name. */
  const AllowedStreetTokens: set<string> :=
    {"US", "FM", "SH", "CR", "COUNTY", "ROAD", "HWY", "HIGHWAY", "STATE", "LINE", "AIRPORT", "TUNNEL", "PLAZA", "TOLL"}

  /** Every word of either vocabulary is a non-empty run of upper-case letters. */
  lemma VocabularyIsUpperCase()
    ensures forall w :: w in TypeSet ==> w != [] && AllUpperLetters(w)
    ensures forall w :: w in AllowedStreetTokens ==> w != [] && AllUpperLetters(w)
  {
  }

  /**
   * No street-type abbreviation is an allowed street token; in particular HWY,
   * ROAD and TUNNEL are street words but never a street type.
   */
  lemma VocabulariesDisjoint()
    ensures TypeSet !! AllowedStreetTokens
    ensures "HWY" in AllowedStreetTokens && "HWY" !in TypeSet
    ensures "ROAD" in AllowedStreetTokens && "ROAD" !in TypeSet
    ensures "TUNNEL" in AllowedStreetTokens && "TUNNEL" !in TypeSet
  {
  }
}
