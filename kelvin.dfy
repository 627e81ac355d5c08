/**
 * Colour temperature to RGB scale factors (Tanner Helland's approximation),
 * as computed by kelvin_to_rgb in main.c.
 *
 * The transcendental functions are parameters: `pow` stands for C's pow and
 * `log` for the natural logarithm. Every property proved here therefore holds
 * whatever values those functions return; only the branch structure and the
 * clamps of the source are relied upon. `temp / 100.0` is exact real division.
 */
module Kelvin {

  /** The three channel scale factors written through kelvin_to_rgb's out-pointers. */
  datatype Rgb = Rgb(red: real, green: real, blue: real)

  /** Closed unit interval [0.0, 1.0]. */
  predicate InUnit(x: real) {
    0.0 <= x <= 1.0
  }

  /** A scale triple: every channel in [0.0, 1.0]. */
  predicate IsScaleTriple(c: Rgb) {
    InUnit(c.red) && InUnit(c.green) && InUnit(c.blue)
  }

  /** `v` is what clamping `x` to [0.0, 1.0] must give: `x` itself when it is
      already in range, otherwise the nearer bound. */
  predicate ClampedFrom(x: real, v: real) {
    && (InUnit(x) ==> v == x)
    && (x < 0.0 ==> v == 0.0)
    && (x > 1.0 ==> v == 1.0)
  }

  /** The two guards the source applies after a formula: first raise a
      negative value to 0.0, then lower a value above 1.0 to 1.0. */
  function Clamp(x: real): (v: real)
    ensures InUnit(v)
    ensures ClampedFrom(x, v)
  {
    var low := if x < 0.0 then 0.0 else x;
    if low > 1.0 then 1.0 else low
  }

  /** The temperature in hundreds of Kelvin, `temp / 100.0`. */
  function Hecto(temp: int): (t: real) {
    temp as real / 100.0
  }

  /** Red formula above the 66 breakpoint, before clamping. */
  function RedCurve(t: real, pow: (real, real) -> real): (red: real) {
    329.698727446 * pow(t - 60.0, -0.1332047592) / 255.0
  }

  /** Green formula at or below the 66 breakpoint, before clamping. */
  function GreenLowCurve(t: real, log: real -> real): (green: real) {
    (99.4708025861 * log(t) - 161.1195681661) / 255.0
  }

  /** Green formula above the 66 breakpoint, before clamping. */
  function GreenHighCurve(t: real, pow: (real, real) -> real): (green: real) {
    288.1221695283 * pow(t - 60.0, -0.0755148492) / 255.0
  }

  /** Blue formula strictly between the 19 and 66 breakpoints, before clamping. */
  function BlueCurve(t: real, log: real -> real): (blue: real) {
    (138.5177312231 * log(t - 10.0) - 305.0447927307) / 255.0
  }

  /**
   * kelvin_to_rgb for any integer `temp` (the source does not validate here).
   * Every channel is in [0.0, 1.0]; red is exactly 1.0 up to 6600 K; blue is
   * exactly 1.0 from 6600 K and exactly 0.0 up to 1900 K; in every other
   * region the channel is its formula's value clamped to [0.0, 1.0].
   */
  function KelvinToRgb(temp: int, pow: (real, real) -> real, log: real -> real): (c: Rgb)
    ensures IsScaleTriple(c)
    ensures temp <= 6600 ==> c.red == 1.0
    ensures temp > 6600 ==> ClampedFrom(RedCurve(Hecto(temp), pow), c.red)
    ensures temp <= 6600 ==> ClampedFrom(GreenLowCurve(Hecto(temp), log), c.green)
    ensures temp > 6600 ==> ClampedFrom(GreenHighCurve(Hecto(temp), pow), c.green)
    ensures temp >= 6600 ==> c.blue == 1.0
    ensures temp <= 1900 ==> c.blue == 0.0
    ensures 1900 < temp < 6600 ==> ClampedFrom(BlueCurve(Hecto(temp), log), c.blue)
  {
    var t := Hecto(temp);
    var r := if t <= 66.0 then 1.0 else Clamp(RedCurve(t, pow));
    var g := Clamp(if t <= 66.0 then GreenLowCurve(t, log) else GreenHighCurve(t, pow));
    var b := if t >= 66.0 then 1.0
             else if t <= 19.0 then 0.0
             else Clamp(BlueCurve(t, log));
    Rgb(r, g, b)
  }

  /**
   * Which abstract function feeds which channel: red never uses `log`, blue
   * never uses `pow`; up to 6600 K green uses only `log` and red neither; from
   * 6600 K up, or up to 1900 K, blue uses neither; above 6600 K green uses
   * only `pow`.
   */
  lemma ChannelDependencies(temp: int, pow1: (real, real) -> real, log1: real -> real,
                            pow2: (real, real) -> real, log2: real -> real)
    ensures KelvinToRgb(temp, pow1, log1).red == KelvinToRgb(temp, pow1, log2).red
    ensures KelvinToRgb(temp, pow1, log1).blue == KelvinToRgb(temp, pow2, log1).blue
    ensures temp <= 6600 ==>
      && KelvinToRgb(temp, pow1, log1).red == KelvinToRgb(temp, pow2, log2).red
      && KelvinToRgb(temp, pow1, log1).green == KelvinToRgb(temp, pow2, log1).green
    ensures temp > 6600 ==>
      KelvinToRgb(temp, pow1, log1).green == KelvinToRgb(temp, pow1, log2).green
    ensures temp >= 6600 || temp <= 1900 ==>
      KelvinToRgb(temp, pow1, log1).blue == KelvinToRgb(temp, pow2, log2).blue
  {
  }
}
