/** The per-provider element tables of `setup_infoex_counterparts_mapping`. */
module ProviderTables {
  import opened Wrappers
  import opened Station
  import opened Layout

  /** `iemap`: provider element code to the InfoEx field it feeds. */
  function Counterparts(provider: Provider): map<string, Field> {
    match provider
    case Nrcs => map[
      "PREC" := PrecipitationGauge, "TOBS" := TempPres, "TMAX" := TempMaxHour,
      "TMIN" := TempMinHour, "SNWD" := HS, "PRES" := Baro, "RHUM" := RH,
      "WSPD" := WindSpeedNum, "WDIR" := WindDirectionNum]
    case MesoWest => map[
      "precip_accum" := PrecipitationGauge, "air_temp" := TempPres,
      "air_temp_high_24_hour" := TempMaxHour, "air_temp_low_24_hour" := TempMinHour,
      "snow_depth" := HS, "pressure" := Baro, "relative_humidity" := RH,
      "wind_speed" := WindSpeedNum, "wind_direction" := WindDirectionNum,
      "wind_gust" := WindGustSpeedNum, "hn24" := Hn24Auto]
    case Python => map[
      "precipitationGauge" := PrecipitationGauge, "tempPres" := TempPres,
      "tempMaxHour" := TempMaxHour, "tempMinHour" := TempMinHour, "hS" := HS,
      "baro" := Baro, "rH" := RH, "windSpeedNum" := WindSpeedNum,
      "windDirectionNum" := WindDirectionNum, "windGustSpeedNum" := WindGustSpeedNum]
  }

  /** The same tables read backwards through `fmap`: the provider code whose value lands
      in record column `column`, if any. */
  function ColumnSource(provider: Provider, column: int): Option<string> {
    match provider
    case Nrcs => (
      match column
      case 4 => Some("TMAX")
      case 6 => Some("TMIN")
      case 8 => Some("TOBS")
      case 10 => Some("PREC")
      case 12 => Some("WSPD")
      case 14 => Some("WDIR")
      case 15 => Some("SNWD")
      case 17 => Some("PRES")
      case 19 => Some("RHUM")
      case _ => None)
    case MesoWest => (
      match column
      case 4 => Some("air_temp_high_24_hour")
      case 6 => Some("air_temp_low_24_hour")
      case 8 => Some("air_temp")
      case 10 => Some("precip_accum")
      case 12 => Some("wind_speed")
      case 14 => Some("wind_direction")
      case 15 => Some("snow_depth")
      case 17 => Some("pressure")
      case 19 => Some("relative_humidity")
      case 20 => Some("wind_gust")
      case 25 => Some("hn24")
      case _ => None)
    case Python => (
      match column
      case 4 => Some("tempMaxHour")
      case 6 => Some("tempMinHour")
      case 8 => Some("tempPres")
      case 10 => Some("precipitationGauge")
      case 12 => Some("windSpeedNum")
      case 14 => Some("windDirectionNum")
      case 15 => Some("hS")
      case 17 => Some("baro")
      case 19 => Some("rH")
      case 20 => Some("windGustSpeedNum")
      case _ => None)
  }

  /** Reading a table forwards through `fmap` and then backwards returns the code. */
  lemma SourceOfTarget(provider: Provider)
    ensures forall code | code in Counterparts(provider) ::
      ColumnSource(provider, Column(Counterparts(provider)[code])) == Some(code)
  {
    match provider
    case Nrcs => NrcsSourceOfTarget();
    case MesoWest => MesoWestSourceOfTarget();
    case Python => PythonSourceOfTarget();
  }

  /** Reading a table backwards and then forwards through `fmap` returns the column. */
  lemma TargetOfSource(provider: Provider)
    ensures forall column | ColumnSource(provider, column).Some? ::
      ColumnSource(provider, column).value in Counterparts(provider) &&
      Column(Counterparts(provider)[ColumnSource(provider, column).value]) == column
  {
    match provider
    case Nrcs => NrcsTargetOfSource();
    case MesoWest => MesoWestTargetOfSource();
    case Python => PythonTargetOfSource();
  }

  /** `code` is in the table and the column it is written to reads back as `code`. */
  ghost predicate Feeds(provider: Provider, code: string) {
    code in Counterparts(provider) && ColumnSource(provider, Column(Counterparts(provider)[code])) == Some(code)
  }

  lemma NrcsTemperatureCodes()
    ensures Feeds(Nrcs, "TOBS") && Feeds(Nrcs, "TMAX") && Feeds(Nrcs, "TMIN")
  {
  }

  lemma NrcsPrecipitationCodes()
    ensures Feeds(Nrcs, "PREC") && Feeds(Nrcs, "SNWD") && Feeds(Nrcs, "PRES")
  {
  }

  lemma NrcsWindCodes()
    ensures Feeds(Nrcs, "RHUM") && Feeds(Nrcs, "WSPD") && Feeds(Nrcs, "WDIR")
  {
  }

  lemma NrcsSourceOfTarget()
    ensures forall code | code in Counterparts(Nrcs) :: Feeds(Nrcs, code)
  {
    NrcsTemperatureCodes();
    NrcsPrecipitationCodes();
    NrcsWindCodes();
  }

  lemma NrcsTargetOfSource()
    ensures forall column | ColumnSource(Nrcs, column).Some? ::
      ColumnSource(Nrcs, column).value in Counterparts(Nrcs) &&
      Column(Counterparts(Nrcs)[ColumnSource(Nrcs, column).value]) == column
  {
  }

  lemma MesoWestTemperatureCodes()
    ensures Feeds(MesoWest, "air_temp") && Feeds(MesoWest, "air_temp_high_24_hour") && Feeds(MesoWest, "air_temp_low_24_hour")
  {
  }

  lemma MesoWestPrecipitationCodes()
    ensures Feeds(MesoWest, "precip_accum") && Feeds(MesoWest, "snow_depth")
  {
  }

  lemma MesoWestNewSnowCodes()
    ensures Feeds(MesoWest, "hn24")
  {
  }

  lemma MesoWestAirCodes()
    ensures Feeds(MesoWest, "pressure") && Feeds(MesoWest, "relative_humidity")
  {
  }

  lemma MesoWestWindCodes()
    ensures Feeds(MesoWest, "wind_speed") && Feeds(MesoWest, "wind_direction") && Feeds(MesoWest, "wind_gust")
  {
  }

  lemma MesoWestSourceOfTarget()
    ensures forall code | code in Counterparts(MesoWest) :: Feeds(MesoWest, code)
  {
    MesoWestTemperatureCodes();
    MesoWestPrecipitationCodes();
    MesoWestNewSnowCodes();
    MesoWestAirCodes();
    MesoWestWindCodes();
  }

  lemma MesoWestTargetOfSource()
    ensures forall column | ColumnSource(MesoWest, column).Some? ::
      ColumnSource(MesoWest, column).value in Counterparts(MesoWest) &&
      Column(Counterparts(MesoWest)[ColumnSource(MesoWest, column).value]) == column
  {
  }

  lemma PythonTemperatureCodes()
    ensures Feeds(Python, "tempPres") && Feeds(Python, "tempMaxHour") && Feeds(Python, "tempMinHour")
  {
  }

  lemma PythonPrecipitationCodes()
    ensures Feeds(Python, "precipitationGauge") && Feeds(Python, "hS") && Feeds(Python, "baro")
  {
  }

  lemma PythonAirCodes()
    ensures Feeds(Python, "rH")
  {
  }

  lemma PythonWindCodes()
    ensures Feeds(Python, "windSpeedNum") && Feeds(Python, "windDirectionNum") && Feeds(Python, "windGustSpeedNum")
  {
  }

  lemma PythonSourceOfTarget()
    ensures forall code | code in Counterparts(Python) :: Feeds(Python, code)
  {
    PythonTemperatureCodes();
    PythonPrecipitationCodes();
    PythonAirCodes();
    PythonWindCodes();
  }

  lemma PythonTargetOfSource()
    ensures forall column | ColumnSource(Python, column).Some? ::
      ColumnSource(Python, column).value in Counterparts(Python) &&
      Column(Counterparts(Python)[ColumnSource(Python, column).value]) == column
  {
  }

  /** No two codes of one table land in the same column, so the order in which the
      assembly visits the codes cannot change the record. */
  lemma CounterpartsInjective(provider: Provider)
    ensures forall c1, c2 | c1 in Counterparts(provider) && c2 in Counterparts(provider) && c1 != c2 ::
      Column(Counterparts(provider)[c1]) != Column(Counterparts(provider)[c2])
  {
    SourceOfTarget(provider);
  }

  /** Every fed column is a measurement column: past the four identity columns, inside
      the record and not a unit-label column. */
  lemma SourceColumns(provider: Provider)
    ensures forall column | ColumnSource(provider, column).Some? ::
      4 <= column < FieldCount && ImperialLabel(column).None?
  {
  }

  /** The ten keys of the custom-provider example program, all set to `None`. */
  const CustomExampleKeys: set<string> := {
    "precipitationGauge", "tempPres", "tempMaxHour", "tempMinHour", "hS", "baro", "rH",
    "windSpeedNum", "windDirectionNum", "windGustSpeedNum"}

  /** The custom-provider table has exactly the example program's keys. */
  lemma CustomTableKeys()
    ensures Counterparts(Python).Keys == CustomExampleKeys
  {
  }

  /** The custom-provider table sends each key to the field of that name. */
  lemma CustomTableIdentity()
    ensures forall code | code in Counterparts(Python) :: Name(Counterparts(Python)[code]) == code
  {
  }

  /** NRCS has no gust code, and only MesoWest feeds `hn24Auto`. */
  lemma ProviderTableShapes()
    ensures ColumnSource(Nrcs, Column(WindGustSpeedNum)).None?
    ensures ColumnSource(MesoWest, Column(Hn24Auto)) == Some("hn24")
    ensures ColumnSource(Nrcs, Column(Hn24Auto)).None? && ColumnSource(Python, Column(Hn24Auto)).None?
  {
  }
}
