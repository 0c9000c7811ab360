/**
 * Facts about the GRIB1 metadata resolver that relate several lookups: the
 * examples the decoder's own tests check, the centre-dispatch rule and the
 * shape of the level-type table.
 */
module Grib1ParameterFacts {
  import opened Grib1Parameters

  /** ECMWF resolves code 11 to temperature and code 131 to the U wind component. */
  lemma EcmwfExamples()
    ensures GetParameter(98, 11) == Some(Grib1Parameter(11, "t", "Temperature", "K"))
    ensures GetParameter(98, 131).Some? && GetParameter(98, 131).value.abbreviation == "u"
  {
  }

  /** NCEP and an unlisted centre both answer from the WMO standard table. */
  lemma StandardTableExamples()
    ensures GetParameter(7, 61) == Some(Grib1Parameter(61, "tp", "Total precipitation", "kg m-2"))
    ensures GetParameter(255, 11).Some? && GetParameter(255, 11).value.abbreviation == "t"
  {
  }

  /** Every centre other than ECMWF, NCEP included, sees exactly the WMO standard table. */
  lemma NonEcmwfCentersShareStandardTable(centerA: uint8, centerB: uint8, parameter: uint8)
    requires centerA != EcmwfCenter && centerB != EcmwfCenter
    ensures GetParameter(centerA, parameter) == GetParameter(centerB, parameter)
  {
  }

  /**
   * No per-code fallback: code 7 is geopotential height in the WMO standard table,
   * yet ECMWF's lookup of 7 is a miss.
   */
  lemma NoFallbackFromEcmwf()
    ensures GetParameter(98, 7) == None
    ensures GetParameter(0, 7) == Some(Grib1Parameter(7, "gh", "Geopotential height", "gpm"))
  {
  }

  /** Code 7 is the only code the WMO standard table defines and the ECMWF table lacks. */
  lemma OnlyCodeSevenIsLostUnderEcmwf(centerId: uint8, parameter: uint8)
    requires centerId != EcmwfCenter
    ensures GetParameter(EcmwfCenter, parameter).None? && GetParameter(centerId, parameter).Some?
            <==> parameter == 7
  {
  }

  /** The same code means different things under different centres. */
  lemma CenterChangesMeaning()
    ensures GetParameter(98, 33) == Some(Grib1Parameter(33, "rsn", "Snow density", "kg m-3"))
    ensures GetParameter(0, 33) == Some(Grib1Parameter(33, "u", "U-component of wind", "m s-1"))
    ensures GetParameter(98, 61).Some? && GetParameter(98, 61).value.units == "m"
    ensures GetParameter(0, 61).Some? && GetParameter(0, 61).value.units == "kg m-2"
  {
  }

  /** Abbreviations do not identify a record: several ECMWF codes share one. */
  lemma AbbreviationsRepeatInEcmwfTable()
    ensures EcmwfParameter(1).Some? && EcmwfParameter(134).Some?
    ensures EcmwfParameter(1).value.abbreviation == EcmwfParameter(134).value.abbreviation == "sp"
    ensures EcmwfParameter(51).Some? && EcmwfParameter(53).Some? && EcmwfParameter(133).Some?
    ensures EcmwfParameter(51).value.abbreviation == EcmwfParameter(53).value.abbreviation
            == EcmwfParameter(133).value.abbreviation == "q"
    ensures EcmwfParameter(51) != EcmwfParameter(53)
  {
  }

  /** The level types the decoder's tests check, and the sentinel for an unlisted code. */
  lemma LevelTypeExamples()
    ensures GetLevelTypeInfo(100) == ("isobaric", "hPa")
    ensures GetLevelTypeInfo(1) == ("surface", "")
    ensures GetLevelTypeInfo(250) == ("unknown", "")
  {
  }
}
