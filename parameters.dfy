/**
 * GRIB edition 1 metadata resolver: turns the parameter and level-type codes
 * already extracted from a GRIB1 product definition section into descriptive
 * labels. GRIB edition 1 is WMO FM 92 in the WMO Manual on Codes (WMO-No. 306);
 * the parameter tables follow its Code Table 2 (with ECMWF's local table for
 * originating centre 98) and the level types its Code Table 3.
 *
 * Every operation is a pure function of one or two 8-bit codes over constant data.
 */
module Grib1Parameters {

  /** An unsigned 8-bit header field. */
  newtype uint8 = x: int | 0 <= x < 256

  datatype Option<+T> = None | Some(value: T)

  /** Metadata of one parameter code: the code itself and three labels. */
  datatype Grib1Parameter = Grib1Parameter(number: uint8, abbreviation: string, name: string, units: string)

  /** Originating-centre identifiers that select a table of their own. */
  const EcmwfCenter: uint8 := 98
  const NcepCenter: uint8 := 7

  /**
   * The codes the ECMWF table defines. Written as a `match` rather than a set
   * display like WmoStandardCodes: membership in an 86-element set display is
   * much costlier for the verifier to decide against the 86-arm table.
   */
  predicate IsEcmwfCode(parameter: uint8) {
    match parameter
    case 1 | 2 | 11 | 20 | 22 | 29 | 31 | 32 | 33 | 34 | 39 | 44 | 47 | 49 | 50 | 51 |
      52 | 53 | 54 | 59 | 61 | 66 | 67 | 71 | 78 | 79 | 89 | 121 | 122 | 123 | 124 |
      125 | 126 | 127 | 128 | 129 | 130 | 131 | 132 | 133 | 134 | 135 | 136 | 137 | 139 |
      141 | 143 | 144 | 148 | 151 | 157 | 159 | 164 | 165 | 166 | 167 | 168 | 169 | 179 |
      186 | 187 | 188 | 213 | 217 | 218 | 219 | 220 | 221 | 226 | 228 | 229 | 230 | 231 |
      232 | 234 | 235 | 236 | 237 | 238 | 239 | 240 | 241 | 243 | 244 | 246 | 247 => true
    case _ => false
  }

  /** The codes the WMO standard table (the subset of Code Table 2 written out here) defines. */
  const WmoStandardCodes: set<uint8> := { 1, 2, 7, 11, 33, 34, 39, 51, 52, 61 }

  /** The level-type codes of Code Table 3 that have a label of their own. */
  const LevelTypeCodes: set<uint8> :=
    { 1, 2, 3, 4, 100, 102, 103, 105, 106, 107, 108, 109, 111, 112, 113, 114, 200, 201 }

  /** The label a level-type code without an entry resolves to. */
  const UnknownLevel: (string, string) := ("unknown", "")

  /** ECMWF local parameter table (centre 98). A code it lacks is a miss. */
  function EcmwfParameter(parameter: uint8): (r: Option<Grib1Parameter>)
    ensures r.Some? ==> r.value.number == parameter
  {
    match parameter
    case 1 => Some(Grib1Parameter(1, "sp", "Surface pressure", "Pa"))
    case 2 => Some(Grib1Parameter(2, "prmsl", "Pressure reduced to MSL", "Pa"))
    case 11 => Some(Grib1Parameter(11, "t", "Temperature", "K"))
    case 20 => Some(Grib1Parameter(20, "vit", "Visibility", "m"))
    case 22 => Some(Grib1Parameter(22, "clmr", "Mixing ratio", "kg kg-1"))
    case 29 => Some(Grib1Parameter(29, "lvt", "Type of low vegetation", "~"))
    case 31 => Some(Grib1Parameter(31, "ci", "Sea-ice cover", "(0-1)"))
    case 32 => Some(Grib1Parameter(32, "asn", "Snow albedo", "(0-1)"))
    case 33 => Some(Grib1Parameter(33, "rsn", "Snow density", "kg m-3"))
    case 34 => Some(Grib1Parameter(34, "sstk", "Sea surface temperature", "K"))
    case 39 => Some(Grib1Parameter(39, "swvl1", "Volumetric soil water layer 1", "m3 m-3"))
    case 44 => Some(Grib1Parameter(44, "es", "Snow evaporation", "m of water equivalent"))
    case 47 => Some(Grib1Parameter(47, "dsrp", "Direct solar radiation", "W m-2 s"))
    case 49 => Some(Grib1Parameter(49, "10fg", "10 metre wind gust", "m s-1"))
    case 50 => Some(Grib1Parameter(50, "lspf", "Large-scale precipitation fraction", "s"))
    case 51 => Some(Grib1Parameter(51, "q", "Specific humidity", "kg kg-1"))
    case 52 => Some(Grib1Parameter(52, "r", "Relative humidity", "%"))
    case 53 => Some(Grib1Parameter(53, "q", "Humidity mixing ratio", "kg kg-1"))
    case 54 => Some(Grib1Parameter(54, "pwat", "Precipitable water", "kg m-2"))
    case 59 => Some(Grib1Parameter(59, "prate", "Precipitation rate", "kg m-2 s-1"))
    case 61 => Some(Grib1Parameter(61, "tp", "Total precipitation", "m"))
    case 66 => Some(Grib1Parameter(66, "lsff", "Lake shape factor", "dimensionless"))
    case 67 => Some(Grib1Parameter(67, "lmlt", "Lake mix-layer temperature", "K"))
    case 71 => Some(Grib1Parameter(71, "tcc", "Total cloud cover", "%"))
    case 78 => Some(Grib1Parameter(78, "tclw", "Total column cloud liquid water", "kg m-2"))
    case 79 => Some(Grib1Parameter(79, "tciw", "Total column cloud ice water", "kg m-2"))
    case 89 => Some(Grib1Parameter(89, "sunsd", "Sunshine duration", "s"))
    case 121 => Some(Grib1Parameter(121, "mx2t", "Maximum temperature at 2 metres", "K"))
    case 122 => Some(Grib1Parameter(122, "mn2t", "Minimum temperature at 2 metres", "K"))
    case 123 => Some(Grib1Parameter(123, "10fg", "10 metre wind gust", "m s-1"))
    case 124 => Some(Grib1Parameter(124, "emis", "Surface emissivity", "dimensionless"))
    case 125 => Some(Grib1Parameter(125, "veg", "Vegetation fraction", "(0-1)"))
    case 126 => Some(Grib1Parameter(126, "sltyp", "Soil type", "dimensionless"))
    case 127 => Some(Grib1Parameter(127, "cape", "Convective available potential energy", "J kg-1"))
    case 128 => Some(Grib1Parameter(128, "cin", "Convective inhibition", "J kg-1"))
    case 129 => Some(Grib1Parameter(129, "z", "Geopotential", "m2 s-2"))
    case 130 => Some(Grib1Parameter(130, "t", "Temperature", "K"))
    case 131 => Some(Grib1Parameter(131, "u", "U component of wind", "m s-1"))
    case 132 => Some(Grib1Parameter(132, "v", "V component of wind", "m s-1"))
    case 133 => Some(Grib1Parameter(133, "q", "Specific humidity", "kg kg-1"))
    case 134 => Some(Grib1Parameter(134, "sp", "Surface pressure", "Pa"))
    case 135 => Some(Grib1Parameter(135, "w", "Vertical velocity", "Pa s-1"))
    case 136 => Some(Grib1Parameter(136, "tcw", "Total column water", "kg m-2"))
    case 137 => Some(Grib1Parameter(137, "tcwv", "Total column water vapour", "kg m-2"))
    case 139 => Some(Grib1Parameter(139, "stl1", "Soil temperature level 1", "K"))
    case 141 => Some(Grib1Parameter(141, "sd", "Snow depth", "m of water equivalent"))
    case 143 => Some(Grib1Parameter(143, "cp", "Convective precipitation", "m"))
    case 144 => Some(Grib1Parameter(144, "sf", "Snowfall", "m of water equivalent"))
    case 148 => Some(Grib1Parameter(148, "chnk", "Charnock", "dimensionless"))
    case 151 => Some(Grib1Parameter(151, "prmsl", "Pressure reduced to MSL", "Pa"))
    case 157 => Some(Grib1Parameter(157, "r", "Relative humidity", "%"))
    case 159 => Some(Grib1Parameter(159, "blh", "Boundary layer height", "m"))
    case 164 => Some(Grib1Parameter(164, "tcc", "Total cloud cover", "(0-1)"))
    case 165 => Some(Grib1Parameter(165, "u10", "10 metre U wind component", "m s-1"))
    case 166 => Some(Grib1Parameter(166, "v10", "10 metre V wind component", "m s-1"))
    case 167 => Some(Grib1Parameter(167, "t2m", "2 metre temperature", "K"))
    case 168 => Some(Grib1Parameter(168, "d2m", "2 metre dewpoint temperature", "K"))
    case 169 => Some(Grib1Parameter(169, "ssrd", "Surface solar radiation downwards", "J m-2"))
    case 179 => Some(Grib1Parameter(179, "ttr", "Top net thermal radiation", "J m-2"))
    case 186 => Some(Grib1Parameter(186, "lcc", "Low cloud cover", "(0-1)"))
    case 187 => Some(Grib1Parameter(187, "mcc", "Medium cloud cover", "(0-1)"))
    case 188 => Some(Grib1Parameter(188, "hcc", "High cloud cover", "(0-1)"))
    case 213 => Some(Grib1Parameter(213, "vimd", "Vertically integrated moisture divergence", "kg m-2"))
    case 217 => Some(Grib1Parameter(217, "sdwe", "Standard deviation wave height", "m"))
    case 218 => Some(Grib1Parameter(218, "mpww", "Mean wave period based on second moment", "s"))
    case 219 => Some(Grib1Parameter(219, "p1ww", "Mean wave period based on first moment", "s"))
    case 220 => Some(Grib1Parameter(220, "mzww", "Mean zero-crossing wave period", "s"))
    case 221 => Some(Grib1Parameter(221, "ipww", "Mean period of wind waves", "s"))
    case 226 => Some(Grib1Parameter(226, "10ws", "10 metre wind speed", "m s-1"))
    case 228 => Some(Grib1Parameter(228, "tp", "Total precipitation", "m"))
    case 229 => Some(Grib1Parameter(229, "iews", "Instantaneous eastward turbulent surface stress", "N m-2"))
    case 230 => Some(Grib1Parameter(230, "inss", "Instantaneous northward turbulent surface stress", "N m-2"))
    case 231 => Some(Grib1Parameter(231, "ishf", "Instantaneous surface heat flux", "W m-2"))
    case 232 => Some(Grib1Parameter(232, "ie", "Instantaneous moisture flux", "kg m-2 s-1"))
    case 234 => Some(Grib1Parameter(234, "lsrh", "Logarithm of surface roughness length for heat", "dimensionless"))
    case 235 => Some(Grib1Parameter(235, "skt", "Skin temperature", "K"))
    case 236 => Some(Grib1Parameter(236, "stl4", "Soil temperature level 4", "K"))
    case 237 => Some(Grib1Parameter(237, "swvl4", "Volumetric soil water layer 4", "m3 m-3"))
    case 238 => Some(Grib1Parameter(238, "tsn", "Temperature of snow layer", "K"))
    case 239 => Some(Grib1Parameter(239, "csf", "Convective snowfall", "m of water equivalent"))
    case 240 => Some(Grib1Parameter(240, "lsf", "Large-scale snowfall", "m of water equivalent"))
    case 241 => Some(Grib1Parameter(241, "acf", "Accumulated cloud fraction tendency", "(-1 to 1)"))
    case 243 => Some(Grib1Parameter(243, "fal", "Forecast albedo", "(0-1)"))
    case 244 => Some(Grib1Parameter(244, "fsr", "Forecast surface roughness", "m"))
    case 246 => Some(Grib1Parameter(246, "clwc", "Cloud liquid water content", "kg kg-1"))
    case 247 => Some(Grib1Parameter(247, "ciwc", "Cloud ice water content", "kg kg-1"))
    case _ => None
  }

  /** The ECMWF table defines exactly the codes IsEcmwfCode lists. */
  lemma EcmwfDomain(parameter: uint8)
    ensures EcmwfParameter(parameter).Some? <==> IsEcmwfCode(parameter)
  {
  }

  /** NCEP table (centre 7): carries no entries of its own and answers with the WMO standard table. */
  function NcepParameter(parameter: uint8): (r: Option<Grib1Parameter>)
    ensures r.Some? ==> r.value.number == parameter
    ensures r.Some? <==> parameter in WmoStandardCodes
  {
    WmoStandardParameter(parameter)
  }

  /** WMO standard parameter table (Code Table 2), as far as it is written out. */
  function WmoStandardParameter(parameter: uint8): (r: Option<Grib1Parameter>)
    ensures r.Some? ==> r.value.number == parameter
    ensures r.Some? <==> parameter in WmoStandardCodes
  {
    match parameter
    case 1 => Some(Grib1Parameter(1, "pres", "Pressure", "Pa"))
    case 2 => Some(Grib1Parameter(2, "prmsl", "Pressure reduced to MSL", "Pa"))
    case 7 => Some(Grib1Parameter(7, "gh", "Geopotential height", "gpm"))
    case 11 => Some(Grib1Parameter(11, "t", "Temperature", "K"))
    case 33 => Some(Grib1Parameter(33, "u", "U-component of wind", "m s-1"))
    case 34 => Some(Grib1Parameter(34, "v", "V-component of wind", "m s-1"))
    case 39 => Some(Grib1Parameter(39, "w", "Vertical velocity", "Pa s-1"))
    case 51 => Some(Grib1Parameter(51, "q", "Specific humidity", "kg kg-1"))
    case 52 => Some(Grib1Parameter(52, "r", "Relative humidity", "%"))
    case 61 => Some(Grib1Parameter(61, "tp", "Total precipitation", "kg m-2"))
    case _ => None
  }

  /** The parameter tables an originating centre can be resolved to. */
  datatype Table = Ecmwf | Ncep | WmoStandard

  /**
   * Centre dispatch: ECMWF and NCEP select their own table, every other centre
   * the WMO standard table. Selection is total: no centre is refused.
   */
  function TableFor(centerId: uint8): (t: Table)
    ensures t == Ecmwf <==> centerId == EcmwfCenter
    ensures t == Ncep <==> centerId == NcepCenter
    ensures t == WmoStandard <==> centerId !in {EcmwfCenter, NcepCenter}
  {
    match centerId
    case 98 => Ecmwf
    case 7 => Ncep
    case _ => WmoStandard
  }

  /** Looks a code up in one table; the code is the only key. */
  function Lookup(t: Table, parameter: uint8): (r: Option<Grib1Parameter>)
    ensures r.Some? ==> r.value.number == parameter
    ensures r.Some? <==> (if t == Ecmwf then IsEcmwfCode(parameter) else parameter in WmoStandardCodes)
  {
    match t
    case Ecmwf => EcmwfDomain(parameter); EcmwfParameter(parameter)
    case Ncep => NcepParameter(parameter)
    case WmoStandard => WmoStandardParameter(parameter)
  }

  /**
   * Parameter metadata for a centre and a code. The centre selects one table and
   * the code is looked up there only: a miss in the selected table is final.
   */
  function GetParameter(centerId: uint8, parameter: uint8): (r: Option<Grib1Parameter>)
    ensures r.Some? ==> r.value.number == parameter
    ensures r.Some? <==> if centerId == EcmwfCenter then IsEcmwfCode(parameter) else parameter in WmoStandardCodes
    ensures centerId == EcmwfCenter ==> r == EcmwfParameter(parameter)
    ensures centerId != EcmwfCenter ==> r == WmoStandardParameter(parameter)
  {
    Lookup(TableFor(centerId), parameter)
  }

  /**
   * Level-type name and unit (Code Table 3). Total: a code without an entry gives
   * the sentinel ("unknown", ""), and no code with an entry gives that name.
   */
  function GetLevelTypeInfo(levelType: uint8): (info: (string, string))
    ensures info.0 != ""
    ensures levelType in LevelTypeCodes <==> info.0 != UnknownLevel.0
    ensures levelType !in LevelTypeCodes ==> info == UnknownLevel
  {
    match levelType
    case 1 => ("surface", "")
    case 2 => ("cloud_base", "")
    case 3 => ("cloud_top", "")
    case 4 => ("isotherm_zero", "m")
    case 100 => ("isobaric", "hPa")
    case 102 => ("mean_sea_level", "")
    case 103 => ("fixed_height", "m")
    case 105 => ("fixed_height_above_ground", "m")
    case 106 => ("sigma", "sigma")
    case 107 => ("sigma_height", "sigma")
    case 108 => ("sigma_pressure", "sigma")
    case 109 => ("hybrid", "hybrid")
    case 111 => ("depth_below_surface", "m")
    case 112 => ("layer_between_depths", "m")
    case 113 => ("isentropic", "K")
    case 114 => ("layer_between_isentropic", "K")
    case 200 => ("entire_atmosphere", "")
    case 201 => ("entire_ocean", "")
    case _ => UnknownLevel
  }
}
