/** Selector decoders of the noise generator plugin.

    Every enumerated control port delivers a raw integer selector; the plugin
    maps it onto the enumeration the noise-synthesis library understands, and
    any value outside the known set falls back to a fixed default. The codes
    below follow the order in which the port lists enumerate the options. */
module Selectors {

  /** Output distribution of the linear congruential generator. */
  datatype LcgDist = LcgUniform | LcgExponential | LcgTriangular | LcgGaussian

  /** Sub-algorithm of the velvet-noise synthesizer. */
  datatype VelvetType = VelvetOvn | VelvetOvna | VelvetArn | VelvetTrn

  /** Spectral colour of the generated noise. */
  datatype NoiseColor = ColorWhite | ColorPink | ColorRed | ColorBlue | ColorViolet | ColorArbitrary

  /** Unit in which an arbitrary colour slope is expressed. */
  datatype SlopeUnit = NeperPerNeper | DbPerOctave | DbPerDecade

  /** Synthesis algorithm of the library's generator. */
  datatype GeneratorType = GenMls | GenLcg | GenVelvet

  /** How generated noise is combined with the channel's input. */
  datatype ChannelMode = ModeOverwrite | ModeAdd | ModeMult

  // Selector codes of the LCG distribution port.
  const NOISE_LCG_UNIFORM: nat := 0
  const NOISE_LCG_EXPONENTIAL: nat := 1
  const NOISE_LCG_TRIANGULAR: nat := 2
  const NOISE_LCG_GAUSSIAN: nat := 3

  // Selector codes of the velvet type port.
  const NOISE_VELVET_OVN: nat := 0
  const NOISE_VELVET_OVNA: nat := 1
  const NOISE_VELVET_ARN: nat := 2
  const NOISE_VELVET_TRN: nat := 3

  // Selector codes of the colour port; the last three choose an arbitrary
  // slope together with the unit it is given in.
  const NOISE_COLOR_WHITE: nat := 0
  const NOISE_COLOR_PINK: nat := 1
  const NOISE_COLOR_RED: nat := 2
  const NOISE_COLOR_BLUE: nat := 3
  const NOISE_COLOR_VIOLET: nat := 4
  const NOISE_COLOR_ARBITRARY_NPN: nat := 5
  const NOISE_COLOR_ARBITRARY_DBO: nat := 6
  const NOISE_COLOR_ARBITRARY_DBD: nat := 7

  // Selector codes of the noise type port.
  const NOISE_TYPE_OFF: nat := 0
  const NOISE_TYPE_MLS: nat := 1
  const NOISE_TYPE_LCG: nat := 2
  const NOISE_TYPE_VELVET: nat := 3

  // Selector codes of the channel mode port.
  const NOISE_MODE_OVERWRITE: nat := 0
  const NOISE_MODE_ADD: nat := 1
  const NOISE_MODE_MULT: nat := 2

  /** The selector code the port uses for each distribution. */
  function LcgDistCode(d: LcgDist): nat
  {
    match d
    case LcgUniform => NOISE_LCG_UNIFORM
    case LcgExponential => NOISE_LCG_EXPONENTIAL
    case LcgTriangular => NOISE_LCG_TRIANGULAR
    case LcgGaussian => NOISE_LCG_GAUSSIAN
  }

  /** Decodes the distribution selector: every known code yields the
      distribution it encodes, everything else yields Gaussian. */
  function GetLcgDist(v: nat): (d: LcgDist)
    ensures v <= NOISE_LCG_GAUSSIAN ==> LcgDistCode(d) == v
    ensures v > NOISE_LCG_GAUSSIAN ==> d == LcgGaussian
  {
    if v == NOISE_LCG_UNIFORM then LcgUniform
    else if v == NOISE_LCG_EXPONENTIAL then LcgExponential
    else if v == NOISE_LCG_TRIANGULAR then LcgTriangular
    else LcgGaussian
  }

  /** The selector code the port uses for each velvet type. */
  function VelvetTypeCode(t: VelvetType): nat
  {
    match t
    case VelvetOvn => NOISE_VELVET_OVN
    case VelvetOvna => NOISE_VELVET_OVNA
    case VelvetArn => NOISE_VELVET_ARN
    case VelvetTrn => NOISE_VELVET_TRN
  }

  /** Decodes the velvet type selector, falling back to OVN. */
  function GetVelvetType(v: nat): (t: VelvetType)
    ensures v <= NOISE_VELVET_TRN ==> VelvetTypeCode(t) == v
    ensures v > NOISE_VELVET_TRN ==> t == VelvetOvn
  {
    if v == NOISE_VELVET_OVNA then VelvetOvna
    else if v == NOISE_VELVET_ARN then VelvetArn
    else if v == NOISE_VELVET_TRN then VelvetTrn
    else VelvetOvn
  }

  /** True of the three selectors that choose an arbitrary slope. */
  predicate IsArbitraryColor(v: nat)
  {
    v == NOISE_COLOR_ARBITRARY_NPN || v == NOISE_COLOR_ARBITRARY_DBO || v == NOISE_COLOR_ARBITRARY_DBD
  }

  /** Decodes the colour selector: the named colours map one to one, the three
      arbitrary-slope selectors all map to the arbitrary colour, and White is
      both its own code and the fallback. */
  function GetColor(v: nat): (c: NoiseColor)
    ensures c == ColorArbitrary <==> IsArbitraryColor(v)
    ensures c == ColorWhite <==> v == NOISE_COLOR_WHITE || v > NOISE_COLOR_ARBITRARY_DBD
    ensures c == ColorPink <==> v == NOISE_COLOR_PINK
    ensures c == ColorRed <==> v == NOISE_COLOR_RED
    ensures c == ColorBlue <==> v == NOISE_COLOR_BLUE
    ensures c == ColorViolet <==> v == NOISE_COLOR_VIOLET
  {
    if v == NOISE_COLOR_PINK then ColorPink
    else if v == NOISE_COLOR_RED then ColorRed
    else if v == NOISE_COLOR_BLUE then ColorBlue
    else if v == NOISE_COLOR_VIOLET then ColorViolet
    else if IsArbitraryColor(v) then ColorArbitrary
    else ColorWhite
  }

  /** Decodes the slope unit from the colour selector: only the dB-per-octave
      and dB-per-decade selectors name their unit, every other selector
      (including the named colours) reads the slope in neper per neper. */
  function GetColorSlopeUnit(v: nat): (u: SlopeUnit)
    ensures u == DbPerOctave <==> v == NOISE_COLOR_ARBITRARY_DBO
    ensures u == DbPerDecade <==> v == NOISE_COLOR_ARBITRARY_DBD
    ensures u == NeperPerNeper <==> v != NOISE_COLOR_ARBITRARY_DBO && v != NOISE_COLOR_ARBITRARY_DBD
  {
    if v == NOISE_COLOR_ARBITRARY_DBO then DbPerOctave
    else if v == NOISE_COLOR_ARBITRARY_DBD then DbPerDecade
    else NeperPerNeper
  }

  /** The selector code the port uses for each generator algorithm. */
  function GeneratorTypeCode(g: GeneratorType): nat
  {
    match g
    case GenMls => NOISE_TYPE_MLS
    case GenLcg => NOISE_TYPE_LCG
    case GenVelvet => NOISE_TYPE_VELVET
  }

  /** Decodes the noise type selector: MLS and velvet by their codes, LCG for
      its own code and for everything else, the "off" code included. */
  function GetGeneratorType(v: nat): (g: GeneratorType)
    ensures NOISE_TYPE_MLS <= v <= NOISE_TYPE_VELVET ==> GeneratorTypeCode(g) == v
    ensures v == NOISE_TYPE_OFF || v > NOISE_TYPE_VELVET ==> g == GenLcg
  {
    if v == NOISE_TYPE_MLS then GenMls
    else if v == NOISE_TYPE_VELVET then GenVelvet
    else GenLcg
  }

  /** The selector code the port uses for each channel mode. */
  function ChannelModeCode(m: ChannelMode): nat
  {
    match m
    case ModeOverwrite => NOISE_MODE_OVERWRITE
    case ModeAdd => NOISE_MODE_ADD
    case ModeMult => NOISE_MODE_MULT
  }

  /** Decodes the channel mode selector, falling back to overwrite. */
  function GetChannelMode(v: nat): (m: ChannelMode)
    ensures v <= NOISE_MODE_MULT ==> ChannelModeCode(m) == v
    ensures v > NOISE_MODE_MULT ==> m == ModeOverwrite
  {
    if v == NOISE_MODE_ADD then ModeAdd
    else if v == NOISE_MODE_MULT then ModeMult
    else ModeOverwrite
  }

  /** Every value the library can be asked for is reachable: decoding the code
      of a value gives that value back, for each selector that has a code per
      value (colour and slope unit share one selector and are stated above). */
  lemma DecodersInvertCodes(d: LcgDist, t: VelvetType, g: GeneratorType, m: ChannelMode)
    ensures GetLcgDist(LcgDistCode(d)) == d
    ensures GetVelvetType(VelvetTypeCode(t)) == t
    ensures GetGeneratorType(GeneratorTypeCode(g)) == g
    ensures GetChannelMode(ChannelModeCode(m)) == m
  {
  }
}
