/**
 * The code tables of the climate entity: the platform's HVAC, fan, swing and
 * preset modes, their string values, and the device's integer codes for them.
 * Each table is given in the direction the entity reads it (device code to
 * mode, platform string to mode) and in the direction it writes it (mode to
 * device code), and the two directions are proved inverse.
 */
module ModeTables {
  import opened Wrappers

  /** The six HVAC modes the entity offers. */
  datatype HvacMode = Off | FanOnly | Cool | Dry | Heat | Auto

  /** The seven fan speeds the entity offers. */
  datatype FanMode = FanAuto | High | MediumHigh | Medium | LowMedium | Low | Quiet

  /** The vane swing settings: off or vertical. */
  datatype SwingMode = SwingOff | SwingVertical

  /** The presets: none, economy (`econo`) and boost (`powerchill`). */
  datatype PresetMode = PresetNone | PresetEco | PresetBoost

  // ---------------------------------------------------------------- HVAC

  /** The platform's string value of an HVAC mode. */
  function HvacName(m: HvacMode): string {
    match m
    case Off => "off"
    case FanOnly => "fan_only"
    case Cool => "cool"
    case Dry => "dry"
    case Heat => "heat"
    case Auto => "auto"
  }

  /** A key of the HVAC mode table of `async_set_hvac_mode`: the string names a supported mode. */
  function HvacModeOfName(s: string): (r: Option<HvacMode>)
    ensures r.Some? ==> HvacName(r.value) == s
    ensures r.None? ==> forall m: HvacMode :: HvacName(m) != s
  {
    if s == "off" then Some(Off)
    else if s == "fan_only" then Some(FanOnly)
    else if s == "cool" then Some(Cool)
    else if s == "dry" then Some(Dry)
    else if s == "heat" then Some(Heat)
    else if s == "auto" then Some(Auto)
    else None
  }

  /** The device codes of the HVAC modes. */
  predicate IsHvacCode(c: int) {
    c in {0, 1, 2, 3, 4, 6}
  }

  /** Device mode code of an HVAC mode (the table of `async_set_hvac_mode`). */
  function HvacCode(m: HvacMode): (c: int)
    ensures IsHvacCode(c)
    ensures c == 0 <==> m == Off
  {
    match m
    case Off => 0
    case FanOnly => 6
    case Cool => 3
    case Dry => 2
    case Heat => 4
    case Auto => 1
  }

  /**
   * `map_hvac_mode`: the HVAC mode of a device mode code. It is total: a code
   * outside the table, or no code at all, reads as OFF.
   */
  function HvacModeOfCode(code: Option<int>): (m: HvacMode)
    ensures code == Some(HvacCode(m)) || (m == Off && !(code.Some? && IsHvacCode(code.value)))
  {
    if code == Some(0) then Off
    else if code == Some(6) then FanOnly
    else if code == Some(3) then Cool
    else if code == Some(2) then Dry
    else if code == Some(4) then Heat
    else if code == Some(1) then Auto
    else Off
  }

  /** Writing a mode as its code and reading the code back gives the mode. */
  lemma HvacCodeRoundTrip(m: HvacMode)
    ensures HvacModeOfCode(Some(HvacCode(m))) == m
  {
  }

  /** Reading a known code as a mode and writing the mode gives the code back. */
  lemma HvacCodeOfModeRoundTrip(c: int)
    requires IsHvacCode(c)
    ensures HvacCode(HvacModeOfCode(Some(c))) == c
  {
  }

  // ---------------------------------------------------------------- fan

  /** The platform's string value of a fan speed. */
  function FanName(f: FanMode): string {
    match f
    case FanAuto => "auto"
    case High => "high"
    case MediumHigh => "medium_high"
    case Medium => "medium"
    case LowMedium => "low_medium"
    case Low => "low"
    case Quiet => "quiet"
  }

  /** A key of `fan_mode_mapping` in `async_set_fan_mode`: the string names a supported fan speed. */
  function FanModeOfName(s: string): (r: Option<FanMode>)
    ensures r.Some? ==> FanName(r.value) == s
    ensures r.None? ==> forall f: FanMode :: FanName(f) != s
  {
    if s == "auto" then Some(FanAuto)
    else if s == "high" then Some(High)
    else if s == "medium_high" then Some(MediumHigh)
    else if s == "medium" then Some(Medium)
    else if s == "low_medium" then Some(LowMedium)
    else if s == "low" then Some(Low)
    else if s == "quiet" then Some(Quiet)
    else None
  }

  /** The device codes of the fan speeds. */
  predicate IsFanCode(c: int) {
    c in {3, 4, 5, 6, 7, 17, 18}
  }

  /** Device fan code of a fan speed (`fan_mode_mapping`). */
  function FanCode(f: FanMode): (c: int)
    ensures IsFanCode(c)
    ensures c == 17 <==> f == FanAuto
  {
    match f
    case FanAuto => 17
    case High => 7
    case MediumHigh => 6
    case Medium => 5
    case LowMedium => 4
    case Low => 3
    case Quiet => 18
  }

  /**
   * `map_fan_speed`: the fan speed of a device fan code. It is total: a code
   * outside the table, or no code at all, reads as "auto".
   */
  function FanModeOfCode(code: Option<int>): (f: FanMode)
    ensures code == Some(FanCode(f)) || (f == FanAuto && !(code.Some? && IsFanCode(code.value)))
  {
    if code == Some(17) then FanAuto
    else if code == Some(7) then High
    else if code == Some(6) then MediumHigh
    else if code == Some(5) then Medium
    else if code == Some(4) then LowMedium
    else if code == Some(3) then Low
    else if code == Some(18) then Quiet
    else FanAuto
  }

  /** Writing a fan speed as its code and reading the code back gives the speed. */
  lemma FanCodeRoundTrip(f: FanMode)
    ensures FanModeOfCode(Some(FanCode(f))) == f
  {
  }

  /** Reading a known code as a fan speed and writing the speed gives the code back. */
  lemma FanCodeOfModeRoundTrip(c: int)
    requires IsFanCode(c)
    ensures FanCode(FanModeOfCode(Some(c))) == c
  {
  }

  // ---------------------------------------------------------------- swing

  /** The platform's string value of a swing setting. */
  function SwingName(s: SwingMode): string {
    match s
    case SwingOff => "off"
    case SwingVertical => "vertical"
  }

  /** Membership in the entity's swing mode list, `[SWING_OFF, SWING_VERTICAL]`. */
  function SwingModeOfName(s: string): (r: Option<SwingMode>)
    ensures r.Some? ==> SwingName(r.value) == s
    ensures r.None? ==> forall w: SwingMode :: SwingName(w) != s
  {
    if s == "off" then Some(SwingOff)
    else if s == "vertical" then Some(SwingVertical)
    else None
  }

  /** The `v_swing` value written for a swing setting. */
  function SwingCode(s: SwingMode): (v: int)
    ensures v == 1 <==> s == SwingVertical
    ensures v == 0 || v == 1
  {
    if s == SwingVertical then 1 else 0
  }

  /** Reading `v_swing` (missing reads as 0): vertical exactly when the value is 1. */
  function SwingModeOfCode(v: Option<int>): (s: SwingMode)
    ensures s == SwingVertical <==> v == Some(1)
  {
    if v.GetOr(0) == 1 then SwingVertical else SwingOff
  }

  // ---------------------------------------------------------------- presets

  /** The platform's string value of a preset. */
  function PresetName(p: PresetMode): string {
    match p
    case PresetNone => "none"
    case PresetEco => "eco"
    case PresetBoost => "boost"
  }

  /** The preset named by a string, if it is one of the three. */
  function PresetModeOfName(s: string): (r: Option<PresetMode>)
    ensures r.Some? ==> PresetName(r.value) == s
    ensures r.None? ==> forall p: PresetMode :: PresetName(p) != s
  {
    if s == "eco" then Some(PresetEco)
    else if s == "boost" then Some(PresetBoost)
    else if s == "none" then Some(PresetNone)
    else None
  }

  /**
   * The preset read from a status's `econo` and `powerchill` flags (missing
   * reads as 0): economy wins over boost, and neither flag at 1 reads as none.
   */
  function PresetOfFlags(econo: Option<int>, powerchill: Option<int>): (p: PresetMode)
    ensures p == PresetEco <==> econo == Some(1)
    ensures p == PresetBoost <==> econo != Some(1) && powerchill == Some(1)
  {
    if econo.GetOr(0) == 1 then PresetEco
    else if powerchill.GetOr(0) == 1 then PresetBoost
    else PresetNone
  }
}
