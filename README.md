# Address Compass Lookup — a verified model of the parsing and matching core

Address Compass Lookup reads exported address tables and looks up the fire-protection rating of an address. Each row is one line of free text holding:

- a track number (`R12_3`);
- a five-digit ZIP and the city after it;
- a street name ending in a street type (`MAIN ST`);
- the low and high door numbers of the block;
- a PPC code (Public Protection Classification: `1`–`10`, `5X`, `10W`, `5X/10W`, `10W/10`, `5X/10W/10`);
- a fire-station note (`HOUSTON FS 12`).

A search takes a ZIP, a city and optionally a street, a street type and a door number. It returns exact matches and near matches. Near matches are copies whose risk category is marked `Approximate`.

The Dafny project models five parts of that code:

- **the risk tiers** (`src/utils/riskMapping.ts`): module `RiskMapping`;
- **the street vocabulary** (`src/constants/addressConstants.ts`): module `AddressConstants`;
- **the line parser** (`src/utils/addressParser.ts`):
  - the seven fields it shares with the upload parser are in module `LineFields`, parameterised by the vocabulary;
  - the PPC/ALT_PPC cascade, the fire-station pattern and the risk category are in module `AddressParser`;
- **the upload path** (`src/services/fileService.ts`): module `FileService`. It covers:
  - the file service's own older line parser, with its PPC token scan;
  - the file-type check;
  - line splitting, blank-line removal, header removal and the record filter;
- **the search** (`src/utils/addressMatcher.ts`): module `AddressMatcher`. It covers the first pass, which sorts records into exact or near matches, and the fallback pass on street similarity.

The supporting modules are:

- `Text`: JavaScript's white space, `trim`/`split(/\s+/)`, ASCII `toUpperCase`, `includes`, `indexOf`, `Number`, `parseInt`, and a leftmost-match scanner for the regular expressions;
- `Sequences`: order-keeping `filter`;
- `AddressTypes`: the record and search-result types;
- `Wrappers`: `Option` and `Result`.

Each source loop is a method with loop invariants, proved equal to a function:
- the TYPE search;
- the backwards street walk;
- the legacy PPC scan;
- the two loops of `findMatches`.

The record-building code fills the record one field at a time. It is modelled as methods that take the record as a value and return it with one group of fields set. `ParseSmartLine`, `ParseLegacyLine` and `ParseFile` chain these steps. The properties are lemmas about the functions.

## Model

| member | source | states |
|---|---|---|
| RiskMapping.MapRiskCategory | src/utils/riskMapping.ts:2-22 | The result is one of the four labels. It is `Unknown` iff the code is empty. It is `High Risk` iff the high rule holds (`10`, `N/A`, or containing `5X/10W/10`). It is `Low Risk` iff neither the high nor the moderate rule holds and the low rule does. Every other non-empty code is `Moderate Risk`, including codes matching no rule. |
| RiskMapping.DocumentedTiers | src/utils/riskMapping.ts:5-18 | Each code the comments list gets its tier: `1`–`5` and `5/5X` are low. `5X`, `10W`, `5X/10W` and `10W/10` are moderate. `10`, `N/A` and `5X/10W/10` are high, because the high test runs first although `5X/10W/10` contains `5X/10W`. |
| RiskMapping.OtherDigitsAreModerate | src/utils/riskMapping.ts:16-21 | The single digits `6`–`9` and `0` fall through every rule to the moderate default. |
| AddressConstants.TypeSet | src/constants/addressConstants.ts:2 | `TYPE_SET`: the eleven street-type abbreviations `RD`, `ST`, `AVE`, `DR`, `LN`, `BLVD`, `CT`, `WAY`, `PL`, `PKWY`, `TUNL`. |
| AddressConstants.AllowedStreetTokens | src/constants/addressConstants.ts:4-7 | `ALLOWED_STREET_TOKENS`: the fourteen extra street words, `US` through `TOLL`. |
| AddressConstants.VocabularyIsUpperCase | src/constants/addressConstants.ts:2-7 | Every street type and allowed street token is a non-empty word of upper-case letters, so it can equal the upper-cased token it is compared with. |
| AddressConstants.VocabulariesDisjoint | src/constants/addressConstants.ts:2-7 | No word is both a street type and an allowed street token. `HWY`, `ROAD` and `TUNNEL` are street words, not types. |
| Text.Upper | src/utils/addressParser.ts:46-47 | Upper-casing keeps the length and maps each character on its own: lower-case ASCII letters become upper-case; everything else is unchanged. |
| Text.IndexOf | src/utils/addressParser.ts:37 | `indexOf` on any sequence (tokens, or the characters of a text) is -1 iff the element is absent. Otherwise the result is the position of its first occurrence. |
| Text.Tokenize | src/utils/addressParser.ts:21 | `trim().split(/\s+/)` yields at least one token. It is `[""]`, or a list of non-empty tokens without white space. |
| Text.TokenizeBlank | src/utils/addressParser.ts:21 | A line tokenizes to `[""]` exactly when it is blank. |
| Text.TokenizeCovers | src/utils/addressParser.ts:21 | Every line is exactly its tokens with runs of white space before, between and after them, and the runs between two tokens are not empty. A blank line is its one empty token with the line itself in front. |
| Text.WordsCover | src/utils/addressParser.ts:21 | The words of any string, with the white-space runs around them, spell the string back. |
| Text.TokenizeJoin | src/utils/addressParser.ts:21 | Tokenizing the single-space join of non-empty, space-free words gives back those words. |
| Text.ParseIntOfDigits | src/utils/addressMatcher.ts:36-38 | On a non-empty string of decimal digits, `parseInt` and `Number` agree and give its decimal value. |
| Text.NumberValue | src/utils/addressParser.ts:77 | `Number(t)` on a token without white space: 0 for the empty token, the decimal value of a digit string (leading zeros read as decimal), NaN for anything else. Exponents, fractions, signs, `0x`/`0b`/`0o` prefixes and `Infinity` are read as NaN. |
| Text.NumberValueExamples | src/utils/addressParser.ts:77 | `Number("0100")` is 100 and `Number("12a")` is NaN. |
| Text.ParseInt | src/utils/addressMatcher.ts:36-38 | `parseInt` in base 10: skip leading white space, read an optional sign, then the longest run of decimal digits; NaN when there is no digit. The `0x` hexadecimal prefix is not modelled. |
| Text.ParseIntExamples | src/utils/addressMatcher.ts:36-38 | `parseInt(" \t-12abc")` is -12; `parseInt("-")` and `parseInt("abc")` are NaN. |
| Text.FindAt | src/utils/addressParser.ts:88 | A pattern search returns -1 or a position where the pattern matches, and the pattern matches at no earlier position. |
| Sequences.FilterIsSelection | src/utils/addressMatcher.ts:20-76 | `filter` keeps only elements that pass the test, and keeps them in order as a subsequence. It drops none that pass. |
| Sequences.FilterCons | src/utils/addressParser.ts:30 | Read from the front, `filter` keeps the first element exactly when it passes the test, and then filters the rest. |
| Sequences.FilterHead | src/utils/addressParser.ts:30-32 | The first element `filter` keeps is the first one that passes the test. What it keeps after that is the filter of the elements after it. |
| Sequences.FilterNone | src/services/fileService.ts:123 | `filter` keeps nothing when no element passes the test. |
| Sequences.FilterKeepsTwo | src/utils/addressParser.ts:75-79 | Two elements that pass the test make the filtered list at least two long. |
| LineFields.TrackNumOf | src/utils/addressParser.ts:24-27 | Defines TRACKNUM: the first token when it contains the track-number pattern, otherwise empty. `FieldsTrackNum` states this of a whole line. |
| LineFields.TrackPatternIff | src/utils/addressParser.ts:25-27 | The first token has a track number iff some substring of it is `R`, digits, `_`, digits (the pattern is not anchored). |
| LineFields.ZipCandidates | src/utils/addressParser.ts:30 | The ZIP candidates are five-digit tokens, and there are none iff no token is five digits. |
| LineFields.ZipOf | src/utils/addressParser.ts:29-33 | Defines ZIP: the first of the ZIP candidates, or empty. `ZipAndCity` states what it is. |
| LineFields.CityOf | src/utils/addressParser.ts:35-41 | Defines CITY: the token after the first occurrence of the ZIP, or empty. `ZipAndCity` states what it is. |
| LineFields.ZipAndCity | src/utils/addressParser.ts:29-41 | No ZIP means no city. Otherwise the ZIP is the first five-digit token, and the city is the token after where `indexOf` finds it, or empty when the ZIP is last. |
| LineFields.TypeIndex | src/utils/addressParser.ts:44-51 | The type index is -1 or points to a token whose upper case is a street type. No earlier token qualifies. |
| LineFields.FindTypeIndex | src/utils/addressParser.ts:44-51 | The loop with `break` finds that first street-type token, or -1. |
| LineFields.TypeOf | src/utils/addressParser.ts:43-51 | Defines TYPE: the upper-cased first street-type token, or empty. `TypeOfFirstType` states what it is. |
| LineFields.StreetOf | src/utils/addressParser.ts:53-71 | Defines STREET: the single-space join of the tokens from the street start up to the type, or empty. `StreetIsMaximalWordRun` and `StreetOfIsWordRun` state what it is. |
| LineFields.StreetStart | src/utils/addressParser.ts:53-67 | Every token from the street start up to the type is kept by the backward walk, and the token just before the start is not. |
| LineFields.CollectStreet | src/utils/addressParser.ts:53-67 | The backward walk with `unshift` collects exactly the tokens between the street start and the type index, in line order. |
| LineFields.AllowedTokensAreStreetWords | src/utils/addressParser.ts:60-61 | An allowed street token (`HWY`, `COUNTY`, ...) already passes the `[A-Z0-9-]+` test. The token set adds no word to the street. |
| LineFields.StreetIsMaximalWordRun | src/utils/addressParser.ts:53-71 | With the shared vocabulary, the street is the longest run of `[A-Z0-9-]+` words ending just before the first type. The token before it is neither such a word nor a type. |
| LineFields.DoorCandidates | src/utils/addressParser.ts:75-77 | The door-number filter keeps no more tokens than it gets. Every kept token has a value in 100–99999, and every such token is kept. |
| LineFields.DoorRange | src/utils/addressParser.ts:73-83 | Defines LOW and HIGH: the first two door candidates after the type, or both empty. `DoorRangeIsFirstTwoNumbers` states what they are. |
| LineFields.DoorRangeIsFirstTwoNumbers | src/utils/addressParser.ts:73-83 | LOW and HIGH are empty together. Both are empty when no type was found. Otherwise they are the first two tokens after the type whose value lies in 100–99999, or empty when fewer than two such tokens exist. |
| LineFields.LineFieldsOf | src/utils/addressParser.ts:6-83 | Defines the record of the seven shared fields of a line, the other four empty. `ParseFields` is proved equal to it, and the `Fields...` lemmas state each field. |
| LineFields.FillTrackNum | src/utils/addressParser.ts:24-27 | Sets TRACKNUM from the first token and changes no other field. |
| LineFields.FillZipAndCity | src/utils/addressParser.ts:29-41 | Sets ZIP and CITY and changes no other field. |
| LineFields.FillTypeAndStreet | src/utils/addressParser.ts:43-71 | Returns the index of the first type; the type is upper-cased and the street is joined. No other field changes. |
| LineFields.FillDoorRange | src/utils/addressParser.ts:73-83 | Sets LOW and HIGH from the door range after the type index and changes no other field. |
| LineFields.ParseFields | src/utils/addressParser.ts:6-83 | The seven shared fields of a line are filled in source order, and the other four stay empty. |
| LineFields.FieldsTrackNum | src/utils/addressParser.ts:21-27 | TRACKNUM is the first token when it contains a track-number pattern, else empty. |
| LineFields.FieldsZipAndCity | src/utils/addressParser.ts:29-41 | On a whole line: ZIP is empty iff no token is five digits. Otherwise it is the first such token and CITY is the token after it or empty. |
| LineFields.FieldsTypeAndStreet | src/utils/addressParser.ts:43-71 | On a whole line: TYPE is empty iff no token is a street type. Otherwise TYPE is the upper-cased first type. STREET is the single-space join of the maximal word run before it, and tokenizes back to those words. It is empty when the type is first or absent. |
| LineFields.TypeOfFirstType | src/utils/addressParser.ts:44-51 | TYPE is empty iff no token is a type. Otherwise it is a member of the type set. |
| LineFields.StreetOfIsWordRun | src/utils/addressParser.ts:53-71 | STREET is the join of the maximal word run before the type, and tokenizing it gives back the run. |
| LineFields.StreetWordsRoundTrip | src/utils/addressParser.ts:69 | Joining street words with single spaces and tokenizing the result is the identity. |
| LineFields.FieldsDoorRange | src/utils/addressParser.ts:73-83 | On a whole line: LOW and HIGH are empty together, and both are empty without a type. When set, they are the first two door numbers after the type. |
| LineFields.LineFieldsDoors | src/utils/addressParser.ts:73-83 | LOW and HIGH of a line's record come from the door range after the first type. An empty TYPE means no type was found. |
| AddressParser.ComplexAt | src/utils/addressParser.ts:87-88 | `/\b(5X\/10W\/10)\b/i` matches at a position: the nine characters there upper-case to `5X/10W/10`, with a word boundary on both sides. |
| AddressParser.AltAt | src/utils/addressParser.ts:94-95 | The case-insensitive alternative-code pattern (`5X/10W` or `10W/10` between word boundaries) matches at a position: the six characters there upper-case to `5X/10W` or `10W/10`, with a word boundary on both sides. |
| AddressParser.BasicLength | src/utils/addressParser.ts:101-102 | Length of the case-sensitive match of the basic-code pattern (a digit 1–9 or `10`, between word boundaries, no word character after) at a position: 1 for a lone digit 1–9, 2 for `10`, 0 for no match. The one-digit alternative is tried first. |
| AddressParser.BasicAt | src/utils/addressParser.ts:101-102 | The basic pattern matches at a position. |
| AddressParser.EndsModifier | src/utils/addressParser.ts:108 | The word boundary and lookahead that close a modifier: the end of the line, or a character that is neither a word character nor `/`. |
| AddressParser.ModifierLength | src/utils/addressParser.ts:108-109 | Length of the case-sensitive match of the modifier pattern (`5X` or `10W` after a word boundary, followed by neither a word character nor `/`) at a position: 2 for `5X`, 3 for `10W`, 0 for no match. |
| AddressParser.ModifierAt | src/utils/addressParser.ts:108-109 | The modifier pattern matches at a position. |
| AddressParser.CascadeCodes | src/utils/addressParser.ts:85-118 | Defines the four searches in order of priority. `CascadeCodesShape` and the three search lemmas state what they produce. |
| AddressParser.ResolveCodes | src/utils/addressParser.ts:85-123 | Defines the cascade followed by the literal override. `ResolvedCodesShape` states what it produces. |
| AddressParser.CascadeCodesShape | src/utils/addressParser.ts:85-118 | Before the override, PPC is empty or one of `1`–`10`. ALT_PPC is empty or, up to case, one of `5X/10W/10`, `5X/10W`, `10W/10`, `5X`, `10W`. A non-empty ALT_PPC always comes with a PPC. |
| AddressParser.CompoundSearchShape | src/utils/addressParser.ts:87-92 | When the case-insensitive compound pattern matches, PPC is `5` and ALT_PPC is the matched text, in its original case, that upper-cases to `5X/10W/10`. |
| AddressParser.AltSearchShape | src/utils/addressParser.ts:94-99 | Otherwise, when the alternative pattern matches, PPC is `5` and ALT_PPC is the matched text, which upper-cases to `5X/10W` or `10W/10`. |
| AddressParser.LaterSearchesShape | src/utils/addressParser.ts:100-117 | When neither of those matches, the basic and modifier searches leave PPC empty or a basic code, and ALT_PPC empty or, up to case, `5X` or `10W`. ALT_PPC is empty iff the modifier search fails. PPC becomes `5` when only a modifier was found, and stays empty iff both searches fail. |
| AddressParser.BasicAndModifierShape | src/utils/addressParser.ts:101-116 | The basic search matches a code `1`–`10`, and the modifier search matches text that upper-cases to `5X` or `10W`. |
| AddressParser.ResolvedCodesShape | src/utils/addressParser.ts:85-123 | With `5X/10W/10` in the line (case-sensitive, anywhere), the codes are `5` and `5X/10W/10`. Without it, they are the cascade's. Either way the cascade's shape holds. |
| AddressParser.OverrideRewritesAltPpc | src/utils/addressParser.ts:94-123 | On `5X/10W/100` the cascade finds `5X/10W`: the compound pattern needs a word boundary and fails. The plain substring override then rewrites ALT_PPC to `5X/10W/10`. |
| AddressParser.LowerCaseCompoundKeepsItsCase | src/utils/addressParser.ts:87-123 | On `5x/10w/10` the case-insensitive pattern stores ALT_PPC in lower case. The case-sensitive override does not fire. |
| AddressParser.FsHeadAt | src/utils/addressParser.ts:130 | A fire-station match starts at a word boundary, with letters followed by white space. |
| AddressParser.FsTailAt | src/utils/addressParser.ts:130 | The match ends with `FS` (any case), white space and digits, followed by a word boundary. |
| AddressParser.FsMatchAt | src/utils/addressParser.ts:130 | Any match found at a position has the whole pattern's shape: letters, white space, optional `V`, `FS`, white space, digits between word boundaries. `FsComplete` gives the converse. |
| AddressParser.FsComplete | src/utils/addressParser.ts:130 | The search misses nothing: wherever the text has the pattern's shape at a position, the search at that position finds it, split the same way. |
| AddressParser.FsHeadFinds | src/utils/addressParser.ts:130 | Maximal runs of letters and then white space at a word boundary are the head the search reads. |
| AddressParser.FsTailFinds | src/utils/addressParser.ts:130 | `FS`, a maximal white-space run and then digits ending at a word boundary are the tail the search reads. |
| AddressParser.FirstFs | src/utils/addressParser.ts:132-136 | Defines FS of a text: the leftmost match, or empty. The two lemmas below state what it is. |
| AddressParser.FsOf | src/utils/addressParser.ts:128-139 | Defines FS of a line as `FirstFs` of the upper-cased line. |
| AddressParser.FirstFsEmptyIffNoMatch | src/utils/addressParser.ts:129-136 | FS is empty iff the search matches nowhere in the upper-cased line, and iff the pattern's shape occurs nowhere, at any position and with any split. |
| AddressParser.FirstFsIsLeftmostMatch | src/utils/addressParser.ts:129-136 | A non-empty FS is the text of a match of the pattern's shape, and no match of any split starts earlier. |
| AddressParser.RiskOf | src/utils/addressParser.ts:141-150 | Defines RISK_CATEGORY from the codes: the ALT_PPC tests first, then the PPC classifier. `RiskOfCodes` states what it is. |
| AddressParser.SmartLine | src/utils/addressParser.ts:6-153 | Defines the whole record of a line. `ParseSmartLine` is proved equal to it, and `SmartRisk` states its risk category. |
| AddressParser.FillCodes | src/utils/addressParser.ts:85-126 | Sets PPC and ALT_PPC to the resolved codes and changes no other field. |
| AddressParser.FillFs | src/utils/addressParser.ts:128-139 | Sets FS to the first fire-station match and changes no other field. |
| AddressParser.FillRisk | src/utils/addressParser.ts:141-150 | Sets RISK_CATEGORY from the codes and changes no other field. |
| AddressParser.ParseSmartLine | src/utils/addressParser.ts:6-153 | The whole parser: the shared fields, then the codes, FS and the risk category, in source order. |
| AddressParser.RiskOfCodes | src/utils/addressParser.ts:141-150 | RISK_CATEGORY is empty iff PPC is empty. Otherwise it is one of the three tiers. It is high when ALT_PPC contains `5X/10W/10` up to case. Otherwise it is moderate when ALT_PPC contains `5X/10W` or `10W/10`. When neither test holds and PPC is set, it is the PPC classifier's tier. |
| AddressParser.SmartRisk | src/utils/addressParser.ts:120-152 | Every parsed line has a risk category iff it has a PPC, and the category is one of the three tiers. A line holding `5X/10W/10` has PPC `5` and is high risk. The three ALT_PPC/PPC cases of `RiskOfCodes` hold of the parsed record. |
| AddressParser.CompoundCodeLine | src/utils/addressParser.ts:120-143 | A line ending in `5X/10W/10` holds the literal, so the override and `SmartRisk` give its record PPC `5`, ALT_PPC `5X/10W/10` and High Risk, whatever precedes it. |
| AddressParser.CompoundCodeIsHighRisk | src/utils/addressParser.ts:142-143 | The compound code is high risk. |
| FileService.LegacyTypeSet | src/services/fileService.ts:13 | The file service's own copy of the street-type set. |
| FileService.LegacyAllowedStreetTokens | src/services/fileService.ts:14 | The file service's own copy of the allowed street words. |
| FileService.LegacySetsAreShared | src/services/fileService.ts:13-14 | The file service's own vocabulary equals the shared constants, so its fields agree with the shared parser. |
| FileService.IsLegacyPpcToken | src/services/fileService.ts:94 | Defines the PPC pattern: one or two digits and an optional `W` or `X`, or two such numbers around a `/`. `LegacyPpcAlphabet` and `LegacyPpcExamples` state what it accepts. |
| FileService.PpcStart | src/services/fileService.ts:96 | Defines the scan start: 7 past the ZIP's position, or 0 without a ZIP. |
| FileService.LegacyPpcFrom | src/services/fileService.ts:97-102 | Defines PPC of the scan: the first matching token from the start, or empty. `FirstCodeFrom` states what it is. |
| FileService.LegacyLine | src/services/fileService.ts:16-108 | Defines the older parser's record. `ParseLegacyLine` is proved equal to it. |
| FileService.FirstPpcIndex | src/services/fileService.ts:94-102 | The scan stops at the first token from the start index that matches the PPC pattern, or finds none. |
| FileService.ScanLegacyPpc | src/services/fileService.ts:96-102 | The `for ... of` over `tokens.slice(startIdx)` with `break` returns the first matching token, or empty. |
| FileService.FillLegacyPpc | src/services/fileService.ts:93-105 | Sets PPC from the scan that starts 7 tokens after the ZIP (or at 0 without one) and changes no other field. |
| FileService.ParseLegacyLine | src/services/fileService.ts:16-108 | The older parser: the seven shared fields, then the PPC scan. |
| FileService.ParsersAgreeOnSharedFields | src/services/fileService.ts:16-91 | The older parser and the shared line parser agree on TRACKNUM, ZIP, CITY, STREET, TYPE, LOW and HIGH. The older one never sets ALT_PPC, FS or RISK_CATEGORY. |
| FileService.LegacyPpcIsFirstCode | src/services/fileService.ts:93-105 | The scan start is 7 past the ZIP's position, or 0. PPC is empty iff no token from there matches. Otherwise it is the first matching token from there. |
| FileService.ZipIsFound | src/services/fileService.ts:96 | A set ZIP is found among the tokens, so the scan starts exactly 7 tokens after it. |
| FileService.FirstCodeFrom | src/services/fileService.ts:97-102 | From any start, the scanned PPC is empty iff nothing matches, and is otherwise the first matching token. |
| FileService.LegacyPpcAlphabet | src/services/fileService.ts:94 | A PPC token has 1 to 6 characters, each a digit, `/`, `W` or `X`. |
| FileService.CodePartAlphabet | src/services/fileService.ts:94 | One side of a PPC token has 1 to 3 characters, each a digit, `W` or `X`. |
| FileService.LegacyPpcExamples | src/services/fileService.ts:94 | The pattern accepts `7`, `10W` and `8/9X`. It rejects `10w` (case-sensitive), `100` (three digits) and `5X/10W` (a suffix letter before the slash). |
| FileService.SplitLines | src/services/fileService.ts:123 | `split('\n')` yields at least one piece, and no piece holds a line feed. |
| FileService.JoinSplitLines | src/services/fileService.ts:123 | Joining the pieces with line feeds restores the text, so the split loses nothing. |
| FileService.SplitJoinLines | src/services/fileService.ts:123 | Splitting the line-feed join of feed-free lines gives back the same lines. |
| FileService.SplitAtFirstLineFeed | src/services/fileService.ts:123 | A piece without line feeds, a line feed and the rest split into that piece followed by the split of the rest. |
| FileService.NonBlankLines | src/services/fileService.ts:123 | The filter keeps no more lines than it gets, and no kept line is blank. |
| FileService.NonBlankLinesKeepsTheRest | src/services/fileService.ts:123 | The kept lines are the input in order, and every non-blank line is kept. |
| FileService.DropHeader | src/services/fileService.ts:125-128 | Defines header removal: drop the first line when it contains `TRACKNUM`. `HeaderDropIsFirstLineOnly` states what it does. |
| FileService.HeaderDropIsFirstLineOnly | src/services/fileService.ts:126-128 | Header removal drops at most the first line. It drops a line exactly when the first line contains `TRACKNUM`. |
| FileService.ParsedLines | src/services/fileService.ts:131-132 | `.map(line => parseSmartLine(line))`: the older parser's record of each data line, in order. |
| FileService.ValidRecords | src/services/fileService.ts:131-133 | Defines the record filter as `filter` with the TRACKNUM-and-ZIP test. `ValidRecordsAreValid` states what it keeps. |
| FileService.ValidRecordsAreValid | src/services/fileService.ts:133 | The record filter keeps, in order, exactly the records with both TRACKNUM and ZIP. |
| FileService.ValidTypes | src/services/fileService.ts:112 | The four MIME types the file service accepts: `text/csv`, `text/plain`, `application/csv`, `application/vnd.ms-excel`. |
| FileService.AcceptsFile | src/services/fileService.ts:111-115 | Defines the type check: a listed MIME type, or a name ending in `.csv` or `.txt`. `AcceptsFileExamples` states cases of it. |
| FileService.DataLines | src/services/fileService.ts:122-128 | Defines the lines that get parsed: the non-blank pieces of the split, without a leading header. |
| FileService.FileRecords | src/services/fileService.ts:122-135 | Defines what an accepted file resolves with: the valid parses of its data lines. The lemmas below state what they are. |
| FileService.ParseFile | src/services/fileService.ts:110-143 | A file that fails the type check yields the invalid-type error. Otherwise the result is the valid records parsed from the text's data lines. |
| FileService.FileRecordsAreValidAndInOrder | src/services/fileService.ts:123-135 | Every returned record has TRACKNUM and ZIP. The records are parsed lines kept in file order, no more than the non-blank lines. |
| FileService.FileRecordsAreTheValidParses | src/services/fileService.ts:131-135 | Every returned record is the parse of a data line, and every valid parse is returned. |
| FileService.BlankTextHasNoRecords | src/services/fileService.ts:121-135 | A blank file gives no records. |
| FileService.AcceptsFileExamples | src/services/fileService.ts:112-115 | A listed MIME type, or a `.csv` or `.txt` name, is accepted. A JSON file is rejected, as is `ADDRESSES.CSV`, because the extension check is case-sensitive. |
| AddressMatcher.IsExactStreetMatch | src/utils/addressMatcher.ts:25-33 | Defines the street flag: the searched street is contained in STREET and the searched type equals TYPE, each up to case, when given. |
| AddressMatcher.FirstPassVerdict | src/utils/addressMatcher.ts:20-57 | Defines the first pass's verdict on one record: exact, near or excluded. `ExactIffInRange`, `NearIffInWindow`, `UnparsableDoorExcludes` and `NoDoorTestMeansExact` state when each holds. |
| AddressMatcher.Approximate | src/utils/addressMatcher.ts:49-52 | Defines the approximate copy of a record. `ApproximateMarksRiskOnly` states what differs. |
| AddressMatcher.ApproximateAll | src/utils/addressMatcher.ts:49-52 | There are as many copies as records, and the i-th copy is the approximate copy of the i-th record. |
| AddressMatcher.WithVerdict | src/utils/addressMatcher.ts:20-57 | Defines each first-pass list as `filter` by verdict. `WithVerdictIsFilter` states what it holds. |
| AddressMatcher.FallbackRecords | src/utils/addressMatcher.ts:60-76 | Defines the fallback's records as `filter` by ZIP and similarity. `FallbackRecordsIsFilter` states what it holds. |
| AddressMatcher.Matches | src/utils/addressMatcher.ts:15-78 | Defines the search results: the exact list, and the near list followed by the fallback's copies when there is no exact match and a street was given. `FindMatches` is proved equal to it. |
| AddressMatcher.FindMatches | src/utils/addressMatcher.ts:5-79 | Both loops, with `continue` and the street flag, compute exactly the modelled results. |
| AddressMatcher.AddFallbackMatches | src/utils/addressMatcher.ts:60-76 | The fallback loop appends the approximate copies of the similar same-ZIP records, in order. |
| AddressMatcher.KeptRecordsPassTheFilters | src/utils/addressMatcher.ts:21-33 | A record the first pass keeps has the searched ZIP and city up to case. It contains the searched street and has the searched type, up to case. A near match always went through the door test. |
| AddressMatcher.ExactIffInRange | src/utils/addressMatcher.ts:35-43 | With a door test, a record is exact iff its street matches and all three numbers parse with low ≤ door ≤ high. |
| AddressMatcher.NearIffInWindow | src/utils/addressMatcher.ts:35-53 | For a matching street and a range with low ≤ high, the record is kept iff the door is in [low−200, high+200]. It is near iff the door is in that window but outside [low, high]. |
| AddressMatcher.UnparsableDoorExcludes | src/utils/addressMatcher.ts:35-53 | A door number that `parseInt` cannot read (NaN) excludes the record from the first pass whenever the door test runs. |
| AddressMatcher.NoDoorTestMeansExact | src/utils/addressMatcher.ts:54-56 | Without a door test, a record of the searched place is exact iff its street matches, and never near. |
| AddressMatcher.ApproximateMarksRiskOnly | src/utils/addressMatcher.ts:49-52 | The copy differs only in RISK_CATEGORY. That field is `Approximate ` followed by the old category, or by `Unknown Risk` when there was none. |
| AddressMatcher.WithVerdictIsFilter | src/utils/addressMatcher.ts:20-57 | Each first-pass list holds, in input order, exactly the records with that verdict. |
| AddressMatcher.FallbackRecordsIsFilter | src/utils/addressMatcher.ts:60-76 | The fallback takes, in input order, exactly the same-ZIP records whose street similarity is at least 0.7. |
| AddressMatcher.VerdictsPartition | src/utils/addressMatcher.ts:20-57 | Exact, near and excluded records together account for every input record once. So the first pass never lists a record both as exact and as near. |
| AddressMatcher.MatchesShape | src/utils/addressMatcher.ts:20-78 | Every exact match is an input record of the searched place whose street matches. The near list starts with the first pass's approximate copies and is longer only when the fallback runs. |
| AddressMatcher.FallbackShape | src/utils/addressMatcher.ts:59-76 | When the fallback runs, it appends one approximate copy for each similar same-ZIP input record, whatever its city or door range, and for no other. |
| AddressMatcher.NoRecordsNoMatches | src/utils/addressMatcher.ts:15-78 | An empty table gives empty results. |
| AddressMatcher.MatchesOfOne | src/utils/addressMatcher.ts:20-78 | A one-record table is exact, near, near twice or absent, as its verdict, the searched street and its similarity decide. |
| AddressMatcher.ExactAndNearTogether | src/utils/addressMatcher.ts:40-53 | One record in range and one only near it give both an exact and a near match in one search. |
| AddressMatcher.NearListedTwice | src/utils/addressMatcher.ts:45-76 | A near record with a similar street is listed twice in the near matches, once per pass. |
| AddressMatcher.FallbackIgnoresCity | src/utils/addressMatcher.ts:60-76 | The fallback adds a same-ZIP record of another city, which the first pass rejects. |

## Behaviour worth knowing

These follow from the code as written. They are stated as lemmas above, and the model keeps the behaviour.

- The final override (`5X/10W/10` anywhere, case-sensitive) is not redundant with the compound search:
  - it fires on `5X/10W/100`, where the compound pattern fails for lack of a word boundary (`OverrideRewritesAltPpc`);
  - it does not fire on `5x/10w/10`, which the compound search has already stored in lower case (`LowerCaseCompoundKeepsItsCase`).
- A search can return exact and near matches together (`ExactAndNearTogether`).
- When no exact match exists, one record can appear twice in the near matches (`NearListedTwice`).
- The fallback pass ignores the city and the door window (`FallbackIgnoresCity`, `FallbackShape`).

## Left out

- Reading the file: `FileReader`, the promise, `onerror` ("Error reading file") and `readAsText` are I/O. `ParseFile` takes the MIME type, the file name and the text as parameters.
- The `reject` with "Failed to process text file. Please check the format." is left out. The model's parsing is total on a string, so that branch cannot be reached. The file's content is a string by construction.
- The `try`/`catch` blocks around the PPC and fire-station parsing, and their `console.error` calls, are left out: nothing inside them throws on a string.
- `toUpperCase` and the `/i` flag are modelled on ASCII letters only. Other letters are left unchanged.
- `Number(t)` is modelled for decimal digit strings (and the empty string). Exponents, fractions, signs, `0x`/`0b`/`0o` prefixes and `Infinity` are treated as NaN.
- `parseInt` is modelled in base 10 (white space, sign, leading digits). The `0x` hexadecimal prefix it also accepts is left out.
- Numbers are unbounded integers; floating-point precision of very long digit strings is not modelled.
- `calculateStringSimilarity` comes from `src/utils/stringSimilarity.ts`, which is not part of this model. It is a parameter `(string, string) -> real`, so the similarity is never NaN.
- The optional fields ALT_PPC, FS and RISK_CATEGORY, and the omitted search criteria, are the empty string when absent. Both are falsy wherever the code tests them. The older file-service record type has no such fields, and its records carry empty strings there.
- The search returns values. That the exact list shares objects with the input table, and the near list holds fresh copies, is not modelled.
- `ParseFile` maps the line parser over the lines as the function `LegacyLine`. `ParseLegacyLine` is the same parser as a method, proved equal to it.
- A carriage return before a line feed stays in the line. It is white space, so it changes neither the blank test nor the tokens.
- The user interface (`src/components/`, `src/pages/`) is not part of this model.
- LineFields.FieldsDoorRange: stated for type sets that do not contain the empty word, which holds for both vocabularies.
