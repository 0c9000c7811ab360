# GRIB1 parameter and level-type metadata resolver

A Dafny model of gribberish's GRIB edition 1 metadata resolver. GRIB edition 1 is
WMO FM 92, described in the WMO Manual on Codes (WMO-No. 306). The resolver takes
integer codes that a decoder has already read from a GRIB1 product definition
section and returns descriptive labels:

- `GetParameter(centerId, parameter)` uses the originating-centre id to pick a
  parameter table, then looks the parameter code up in that table. Centre 98
  (ECMWF) picks the ECMWF local table. Centre 7 (NCEP) picks the NCEP table,
  which only hands the code on to the WMO standard table (Code Table 2). Every
  other centre picks the WMO standard table. The result is a `Grib1Parameter`
  record (code, abbreviation, name, units), or `None` when the chosen table has
  no entry for the code.
- `GetLevelTypeInfo(levelType)` maps a Code Table 3 level type to a
  `(name, unit)` pair. It is total: a code with no entry gives the value
  `("unknown", "")`.

Layout:

- `parameters.dfy` (module `Grib1Parameters`) follows the source file. It has
  the record datatype, the ECMWF and WMO tables written as `match` over an
  8-bit code with every arm's text copied verbatim, the NCEP delegate, the
  dispatcher and the level-type table.
  `Table`, `TableFor` and `Lookup` split the dispatcher's `match` into two steps:
  pick the table, then look the code up in it.
- `table_entries.dfy` (module `Grib1TableEntries`) treats a table as data. It
  lists a table's records in code order. It proves that no code holds two
  records, that the list holds exactly what the lookup returns, and that
  filing the list by code gives back the lookup.
- `parameter_facts.dfy` (module `Grib1ParameterFacts`) holds lemmas that relate
  several lookups. These cover the dispatch rule, the examples in the
  decoder's tests, and how meanings differ between centres.

A centre picks one table, and a miss in that table is final: there is no
per-code fallback to the WMO table. `GetParameter(98, 7)` is `None` although
the WMO table defines code 7 (`NoFallbackFromEcmwf`,
`OnlyCodeSevenIsLostUnderEcmwf`).

Purity makes repeated calls with the same inputs return the same result. Dafny
functions have this property by construction, so no lemma states it.

## Model

| member | source | states |
|---|---|---|
| `Grib1Parameters.Grib1Parameter` | gribberish/src/grib1/parameters.rs:7-12 | a parameter record: its code (`number`, an 8-bit value) and the abbreviation, name and units labels |
| `Grib1Parameters.EcmwfParameter` | gribberish/src/grib1/parameters.rs:24-546 | any record the ECMWF table returns has `number` equal to the code it was looked up by |
| `Grib1Parameters.EcmwfDomain` | gribberish/src/grib1/parameters.rs:25-543 | the ECMWF table has an entry for exactly the 86 codes its arms list (`IsEcmwfCode`); every other code is a miss |
| `Grib1Parameters.NcepParameter` | gribberish/src/grib1/parameters.rs:548-551 | the NCEP table files each record under its own code and has an entry for exactly the WMO standard codes |
| `Grib1Parameters.WmoStandardParameter` | gribberish/src/grib1/parameters.rs:553-620 | any record the WMO table returns carries the code it was looked up by; the table's domain is exactly {1, 2, 7, 11, 33, 34, 39, 51, 52, 61} |
| `Grib1Parameters.TableFor` | gribberish/src/grib1/parameters.rs:16-20 | centre dispatch is total: 98 picks ECMWF, 7 picks NCEP, and every other centre picks the WMO standard table |
| `Grib1Parameters.Lookup` | gribberish/src/grib1/parameters.rs:15-21 | a table lookup is keyed on the code only; a hit carries that code; the ECMWF table and the other two tables each have their own domain |
| `Grib1Parameters.GetParameter` | gribberish/src/grib1/parameters.rs:14-21 | a hit carries the requested code; a hit occurs exactly when the code is in the chosen centre's domain; ECMWF answers from its own table only, so a miss there is final; every other centre, NCEP included, gets exactly the WMO standard answer |
| `Grib1Parameters.GetLevelTypeInfo` | gribberish/src/grib1/parameters.rs:622-645 | total and never gives an empty name; the name is "unknown" exactly for the codes outside the 18 listed level types, and those codes give exactly `("unknown", "")` |
| `Grib1ParameterFacts.EcmwfExamples` | gribberish/src/grib1/parameters.rs:651-659 | ECMWF code 11 is ("t", "Temperature", "K") and ECMWF code 131 has abbreviation "u" |
| `Grib1ParameterFacts.StandardTableExamples` | gribberish/src/grib1/parameters.rs:610-615 | NCEP code 61 is the WMO entry ("tp", "Total precipitation", "kg m-2"); an unlisted centre (255) gets "t" for code 11 |
| `Grib1ParameterFacts.NonEcmwfCentersShareStandardTable` | gribberish/src/grib1/parameters.rs:18-19 | any two centres other than ECMWF give the same answer for every code |
| `Grib1ParameterFacts.NoFallbackFromEcmwf` | gribberish/src/grib1/parameters.rs:542 | ECMWF's lookup of code 7 is a miss, although the WMO table maps 7 to ("gh", "Geopotential height", "gpm") |
| `Grib1ParameterFacts.OnlyCodeSevenIsLostUnderEcmwf` | gribberish/src/grib1/parameters.rs:554-617 | for any other centre, the codes it resolves but ECMWF misses are exactly {7} |
| `Grib1ParameterFacts.CenterChangesMeaning` | gribberish/src/grib1/parameters.rs:74-79 | code 33 is snow density under ECMWF but the U wind component elsewhere; code 61 is in "m" under ECMWF but in "kg m-2" elsewhere |
| `Grib1ParameterFacts.AbbreviationsRepeatInEcmwfTable` | gribberish/src/grib1/parameters.rs:116-133 | abbreviations are not keys: ECMWF codes 1 and 134 are both "sp"; codes 51, 53 and 133 are all "q", and 51 and 53 are different records |
| `Grib1ParameterFacts.LevelTypeExamples` | gribberish/src/grib1/parameters.rs:661-669 | level type 100 is ("isobaric", "hPa"), 1 is ("surface", ""), and an unlisted code (250) is ("unknown", "") |
| `Grib1TableEntries.Entries` | gribberish/src/grib1/parameters.rs:25-542 | a table's records, listed from a given code upward, all have codes at or above that code |
| `Grib1TableEntries.ByNumber` | gribberish/src/grib1/parameters.rs:24-620 | filing records by `number` gives a map whose keys are exactly the records' codes, with each record stored under its own code |
| `Grib1TableEntries.CodesUnique` | gribberish/src/grib1/parameters.rs:25-542 | within each table, no two records share a code |
| `Grib1TableEntries.EntriesMatchLookup` | gribberish/src/grib1/parameters.rs:554-617 | a record is among a table's entries exactly when the table returns that record for its code |
| `Grib1TableEntries.TableRoundTrip` | gribberish/src/grib1/parameters.rs:15-21 | listing a table's entries and filing them by code gives a map that agrees with the table's lookup on every code |
| `Grib1TableEntries.NonEcmwfCentersEnumerateStandardTable` | gribberish/src/grib1/parameters.rs:549-551 | the table of any centre other than ECMWF lists exactly the WMO standard records |

## Left out

- GRIB1 binary parsing (section headers, bit-packing, data values) happens elsewhere in the decoder. This file gets codes that have already been extracted, so the model takes them as `uint8` arguments.
- The Rust test module is left out. Its assertions are restated as the lemmas `EcmwfExamples` and `LevelTypeExamples`.
- `#[derive(Debug, Clone)]` and the `&'static str` lifetimes are left out. The labels are ordinary Dafny strings with the same text.
- WMO and NCEP table entries that the source does not write out are left out. The model has exactly the arms in the source.
- EcmwfParameter: its own contract states only that each record carries its own code. Its exact domain is proved separately by `EcmwfDomain`, because stating both in one contract makes that single proof obligation too expensive for the verifier.
