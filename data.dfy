/** The sensor reading record and its air-purity label (src/data.rs). Readings carry
    `f64` values; they are modelled as `real`, which covers every finite `f64`. */
module Data {
  import opened Common

  /** One synthetic reading as it is sent to the collector. */
  datatype Reading = Reading(
    temperature: real,
    humidity: real,
    pressure: i32,
    dustConcentration: real,
    airPurity: string)

  /** `Reading::new`. */
  function NewReading(temperature: real, humidity: real, pressure: i32, dustConcentration: real, airPurity: string): (r: Reading)
    ensures r.temperature == temperature && r.humidity == humidity && r.pressure == pressure
    ensures r.dustConcentration == dustConcentration && r.airPurity == airPurity
  {
    Reading(temperature, humidity, pressure, dustConcentration, airPurity)
  }

  /** The variants in the order the source declares them. */
  datatype AirPurity = Dangerous | High | Low | FreshAir

  /** `f64::MAX` = 2^1024 - 2^971, written out; `f64::MIN` is its negation. */
  const F64Max: real := 179769313486231570814527423731704356798070567525844996598917476803157260780028538760589558632766878171540458953514382464234321326889464182768467546703537516986049910576551282076245490090389328944075868508455133942304583236903222948165808559332123348274797826204144723168738177180919299881250404026184124858368.0
  const F64Min: real := -F64Max

  /** A value an `f64` can hold without being infinite or NaN. */
  predicate IsFinite(v: real) {
    F64Min <= v <= F64Max
  }

  /** The four bands as half-open intervals: (-inf, 50], (50, 100], (100, 150], (150, inf). */
  predicate InBand(p: AirPurity, v: real) {
    match p
    case FreshAir => v <= 50.0
    case Low => 50.0 < v <= 100.0
    case High => 100.0 < v <= 150.0
    case Dangerous => 150.0 < v
  }

  /** `AirPurity::from_value`: the first band is `f64::MIN..=50.0`, and a value that
      fits no guard falls through to `Dangerous`, which below `f64::MIN` (only
      negative infinity is there) gives the most severe band. */
  function FromValue(value: real): (r: AirPurity)
    ensures IsFinite(value) ==> InBand(r, value)
    ensures value < F64Min ==> r == Dangerous
  {
    if F64Min <= value <= 50.0 then FreshAir
    else if value > 50.0 && value <= 100.0 then Low
    else if value > 100.0 && value <= 150.0 then High
    else Dangerous
  }

  /** How bad a band is: FreshAir < Low < High < Dangerous. */
  function Severity(p: AirPurity): nat {
    match p
    case FreshAir => 0
    case Low => 1
    case High => 2
    case Dangerous => 3
  }

  /** Every finite value lands in exactly one band, and `FromValue` picks it. */
  lemma FromValueIsBand(v: real, p: AirPurity)
    requires IsFinite(v)
    ensures FromValue(v) == p <==> InBand(p, v)
  {
  }

  /** From `f64::MIN` upwards a larger value never yields a less severe band; below
      it (negative infinity) the fall-through gives `Dangerous`. */
  lemma FromValueMonotone(v: real, w: real)
    requires F64Min <= v <= w
    ensures Severity(FromValue(v)) <= Severity(FromValue(w))
  {
  }

  /** The boundary cases: each upper bound belongs to its own band. */
  lemma FromValueBoundaries()
    ensures FromValue(0.0) == FreshAir && FromValue(50.0) == FreshAir
    ensures FromValue(50.01) == Low && FromValue(100.0) == Low
    ensures FromValue(100.01) == High && FromValue(150.0) == High
    ensures FromValue(150.01) == Dangerous
  {
  }

  /** The ranges the unit test draws from: [0, 50], [51, 100], [101, 150] and
      [151, f64::MAX) give the four bands in order. */
  lemma FromValueTestRanges(clean: real, low: real, high: real, dangerous: real)
    requires 0.0 <= clean <= 50.0 && 51.0 <= low <= 100.0 && 101.0 <= high <= 150.0
    requires 151.0 <= dangerous < F64Max
    ensures FromValue(clean) == FreshAir && FromValue(low) == Low
    ensures FromValue(high) == High && FromValue(dangerous) == Dangerous
  {
  }

  /** Reads a label back: the inverse of `Display`, written independently of it. */
  function ParseDisplay(s: string): Option<AirPurity> {
    if s == "Fresh Air" then Some(Low)
    else if s == "Low Pollution" then Some(High)
    else if s == "High Pollution" then Some(Dangerous)
    else if s == "Dangerous Pollution" then Some(FreshAir)
    else None
  }

  /** `fmt::Display for AirPurity`. The strings are the source's, and they do not
      match the variant names: `FreshAir` is shown as "Dangerous Pollution". */
  function Display(p: AirPurity): (s: string)
    ensures ParseDisplay(s) == Some(p)
  {
    match p
    case Low => "Fresh Air"
    case High => "Low Pollution"
    case Dangerous => "High Pollution"
    case FreshAir => "Dangerous Pollution"
  }

  /** The four labels are pairwise distinct. */
  lemma DisplayInjective(p: AirPurity, q: AirPurity)
    ensures Display(p) == Display(q) <==> p == q
  {
  }

  /** The type of the results of `RandomGenPressure`: the pressures, in hectopascals,
      that `random_gen_pressure` can produce. A reading's drawn pressure has this type. */
  type Pressure = p: i32 | 900 <= p <= 1100 witness 1000

  /** `random_gen_pressure`: some whole number of hectopascals in [900, 1100]. */
  method RandomGenPressure() returns (p: i32)
    ensures 900 <= p <= 1100
  {
    p :| 900 <= p <= 1100;
  }
}
