/** The per-element conversion and rounding that the assembly loop of `main` applies
    to each reported value before writing it into the record. */
module Precision {
  import opened Station
  import opened Convert
  import opened Layout
  import opened ProviderTables

  /** Python's `round(x)` on an exact real: the nearest integer, ties to the even one. */
  function RoundHalfEven(x: real): (n: int)
    ensures x - 0.5 <= n as real <= x + 0.5
    ensures (n as real - x == 0.5 || x - n as real == 0.5) ==> n % 2 == 0
  {
    var f := x.Floor;
    var d := x - f as real;
    if d < 0.5 then f
    else if d > 0.5 then f + 1
    else if f % 2 == 0 then f
    else f + 1
  }

  /** Python's `round(x, 1)` on an exact real: a whole number of tenths within 0.05 of `x`,
      and on a tie the even number of tenths. */
  function RoundTenths(x: real): (r: real)
    ensures -0.05 <= r - x <= 0.05
    ensures (r * 10.0).Floor as real == r * 10.0
    ensures x * 10.0 - (x * 10.0).Floor as real == 0.5 ==> (r * 10.0).Floor % 2 == 0
  {
    RoundHalfEven(x * 10.0) as real / 10.0
  }

  /** Python's `round(x, 2)` on an exact real: a whole number of hundredths within 0.005
      of `x`, and on a tie the even number of hundredths. */
  function RoundHundredths(x: real): (r: real)
    ensures -0.005 <= r - x <= 0.005
    ensures (r * 100.0).Floor as real == r * 100.0
    ensures x * 100.0 - (x * 100.0).Floor as real == 0.5 ==> (r * 100.0).Floor % 2 == 0
  {
    RoundHalfEven(x * 100.0) as real / 100.0
  }

  /** The precision InfoEx expects of an element. */
  datatype Precision = Whole | Tenths | Hundredths | Unrounded

  /** The three code lists of the assembly loop; only membership in them is asked. */
  const WholeCodes: set<string> := {
    "wind_speed", "WSPD", "wind_direction", "RHUM", "relative_humidity", "WDIR",
    "wind_gust", "SNWD", "snow_depth", "hn24"}
  const TenthsCodes: set<string> := {"TOBS", "air_temp", "PRES", "pressure"}
  const HundredthsCodes: set<string> := {"PREC", "precip_accum"}

  /** The `if`/`elif` dispatch on the code lists; a code in none of them is written as is. */
  function PrecisionOf(code: string): Precision {
    if code in WholeCodes then Whole
    else if code in TenthsCodes then Tenths
    else if code in HundredthsCodes then Hundredths
    else Unrounded
  }

  /** Python's `convert_nrcs_units_to_metric`. */
  function ConvertNrcsUnitsToMetric(code: string, value: real): (r: real)
    ensures code !in {"TOBS", "SNWD", "PREC"} ==> r == value
  {
    if code == "TOBS" then FToC(value)
    else if code == "SNWD" then InToCm(value)
    else if code == "PREC" then InToMm(value)
    else value
  }

  /** The cell a present value of `code` becomes: converted first (NRCS in metric
      only), then rounded to the precision of its code. */
  function FinalValue(provider: Provider, units: UnitSystem, code: string, value: real): Cell {
    var v := if provider == Nrcs && units == Metric then ConvertNrcsUnitsToMetric(code, value) else value;
    match PrecisionOf(code)
    case Whole => Int(RoundHalfEven(v))
    case Tenths => Num(RoundTenths(v))
    case Hundredths => Num(RoundHundredths(v))
    case Unrounded => Num(v)
  }

  // The precision of each table code, a few codes at a time.

  lemma NrcsWholeCodes()
    ensures PrecisionOf("WSPD") == Whole && PrecisionOf("RHUM") == Whole
    ensures PrecisionOf("WDIR") == Whole && PrecisionOf("SNWD") == Whole
  {
  }

  lemma NrcsTenthsCodes()
    ensures PrecisionOf("TOBS") == Tenths && PrecisionOf("PRES") == Tenths
    ensures PrecisionOf("PREC") == Hundredths
  {
  }

  lemma NrcsUnroundedCodes()
    ensures PrecisionOf("TMAX") == Unrounded && PrecisionOf("TMIN") == Unrounded
  {
  }

  lemma MesoWestWholeCodes()
    ensures PrecisionOf("wind_speed") == Whole && PrecisionOf("wind_direction") == Whole
    ensures PrecisionOf("relative_humidity") == Whole
  {
  }

  lemma MesoWestSnowCodes()
    ensures PrecisionOf("wind_gust") == Whole && PrecisionOf("snow_depth") == Whole
    ensures PrecisionOf("hn24") == Whole
  {
  }

  lemma MesoWestTenthsCodes()
    ensures PrecisionOf("air_temp") == Tenths && PrecisionOf("pressure") == Tenths
    ensures PrecisionOf("precip_accum") == Hundredths
  {
  }

  lemma MesoWestUnroundedCodes()
    ensures PrecisionOf("air_temp_high_24_hour") == Unrounded
    ensures PrecisionOf("air_temp_low_24_hour") == Unrounded
  {
  }

  lemma PythonTemperatureUnrounded()
    ensures PrecisionOf("tempPres") == Unrounded && PrecisionOf("tempMaxHour") == Unrounded
    ensures PrecisionOf("tempMinHour") == Unrounded
  {
  }

  lemma PythonSnowUnrounded()
    ensures PrecisionOf("precipitationGauge") == Unrounded && PrecisionOf("hS") == Unrounded
    ensures PrecisionOf("baro") == Unrounded && PrecisionOf("rH") == Unrounded
  {
  }

  lemma PythonWindUnrounded()
    ensures PrecisionOf("windSpeedNum") == Unrounded && PrecisionOf("windDirectionNum") == Unrounded
    ensures PrecisionOf("windGustSpeedNum") == Unrounded
  {
  }

  /** The NRCS codes by precision: `TMAX` and `TMIN` are the unrounded ones. */
  lemma NrcsPrecisions()
    ensures forall code | code in Counterparts(Nrcs) ::
      PrecisionOf(code) == (if code in {"WSPD", "RHUM", "WDIR", "SNWD"} then Whole
                            else if code in {"TOBS", "PRES"} then Tenths
                            else if code == "PREC" then Hundredths
                            else Unrounded)
  {
    NrcsWholeCodes();
    NrcsTenthsCodes();
    NrcsUnroundedCodes();
  }

  /** The MesoWest codes by precision: the 24-hour high and low are the unrounded ones. */
  lemma MesoWestPrecisions()
    ensures forall code | code in Counterparts(MesoWest) ::
      PrecisionOf(code) == (if code in {"wind_speed", "wind_direction", "relative_humidity",
                                        "wind_gust", "snow_depth", "hn24"} then Whole
                            else if code in {"air_temp", "pressure"} then Tenths
                            else if code == "precip_accum" then Hundredths
                            else Unrounded)
  {
    MesoWestWholeCodes();
    MesoWestSnowCodes();
    MesoWestTenthsCodes();
    MesoWestUnroundedCodes();
  }

  /** The custom provider's canonical names are never rounded. */
  lemma PythonPrecisions()
    ensures forall code | code in Counterparts(Python) :: PrecisionOf(code) == Unrounded
  {
    CustomTableKeys();
    CustomKeysUnrounded();
  }

  lemma CustomKeysUnrounded()
    ensures forall code | code in CustomExampleKeys :: PrecisionOf(code) == Unrounded
  {
    PythonTemperatureUnrounded();
    PythonSnowUnrounded();
    PythonWindUnrounded();
  }

  /** What a present NRCS value becomes under metric units: temperature, snow depth and
      precipitation are converted and then rounded, and the maximum and minimum
      temperatures are converted neither way nor rounded. */
  lemma NrcsMetricValues(value: real)
    ensures FinalValue(Nrcs, Metric, "TOBS", value) == Num(RoundTenths(FToC(value)))
    ensures FinalValue(Nrcs, Metric, "SNWD", value) == Int(RoundHalfEven(InToCm(value)))
    ensures FinalValue(Nrcs, Metric, "PREC", value) == Num(RoundHundredths(InToMm(value)))
    ensures FinalValue(Nrcs, Metric, "TMAX", value) == Num(value)
    ensures FinalValue(Nrcs, Metric, "TMIN", value) == Num(value)
    ensures FinalValue(Nrcs, English, "TOBS", value) == Num(RoundTenths(value))
  {
    NrcsWholeCodes();
    NrcsTenthsCodes();
    NrcsUnroundedCodes();
  }

  /** A value is never converted for the other providers, whatever the units. */
  lemma OnlyNrcsConverts(provider: Provider, units: UnitSystem, code: string, value: real)
    requires provider != Nrcs || units == English
    ensures FinalValue(provider, units, code, value) ==
      match PrecisionOf(code)
      case Whole => Int(RoundHalfEven(value))
      case Tenths => Num(RoundTenths(value))
      case Hundredths => Num(RoundHundredths(value))
      case Unrounded => Num(value)
  {
  }

  /** Worked cases of `RoundTenths`, `RoundHalfEven` and `RoundHundredths`, ties included. */
  lemma RoundingExamples()
    ensures RoundTenths(2.3456) == 2.3
    ensures RoundHalfEven(55.7) == 56
    ensures RoundHundredths(1.2345) == 1.23
    ensures RoundHalfEven(2.5) == 2 && RoundHalfEven(3.5) == 4 && RoundHalfEven(-2.5) == -2
    ensures RoundTenths(0.25) == 0.2 && RoundTenths(0.75) == 0.8
    ensures RoundHundredths(0.125) == 0.12 && RoundHundredths(0.375) == 0.38
  {
  }
}
