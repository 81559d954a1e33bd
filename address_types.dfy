/** The record the parsers produce and the matcher consumes, and the matcher's result. */
module AddressTypes {

  /**
   * `AddressRecord`. The optional ALT_PPC, FS and RISK_CATEGORY fields are plain
   * strings, the empty string standing for a field the parser left unset.
   */
  datatype AddressRecord = AddressRecord(
    trackNum: string,     // TRACKNUM
    zip: string,          // ZIP
    city: string,         // CITY
    street: string,       // STREET
    streetType: string,   // TYPE
    low: string,          // LOW
    high: string,         // HIGH
    ppc: string,          // PPC
    altPpc: string,       // ALT_PPC
    fs: string,           // FS
    riskCategory: string  // RISK_CATEGORY
  )

  /** The record the parser starts from: every field empty. */
  const EmptyRecord := AddressRecord("", "", "", "", "", "", "", "", "", "", "")

  /** `SearchResults`. */
  datatype SearchResults = SearchResults(exactMatches: seq<AddressRecord>, nearMatches: seq<AddressRecord>)
}
