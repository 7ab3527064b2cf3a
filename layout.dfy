/** The fixed 29-cell InfoEx observation record (`setup_infoex_fields_mapping`)
    and the metric relabelling of its unit cells (`switch_units_to_metric`). */
module Layout {
  import opened Wrappers

  /** One CSV cell: a string, an integer (Python `round(x)`), a float, or `None`. */
  datatype Cell = Str(s: string) | Int(i: int) | Num(r: real) | Empty

  const FieldCount: nat := 29

  /** The InfoEx fields, the keys of `fmap`; `Name` gives the key as the program spells it. */
  datatype Field =
    | LocationUuid | ObDate | ObTime | TimeZone
    | TempMaxHour | TempMaxHourUnit | TempMinHour | TempMinHourUnit | TempPres | TempPresUnit
    | PrecipitationGauge | PrecipitationGaugeUnit | WindSpeedNum | WindSpeedUnit | WindDirectionNum
    | HS | HsUnit | Baro | BaroUnit | RH | WindGustSpeedNum | WindGustSpeedNumUnit | WindGustDirNum
    | DewPoint | DewPointUnit | Hn24Auto | Hn24AutoUnit | HstAuto | HstAutoUnit

  /** The key of `fmap` for field `f`. */
  function Name(f: Field): string {
    match f
    case LocationUuid => "Location UUID"
    case ObDate => "obDate"
    case ObTime => "obTime"
    case TimeZone => "timeZone"
    case TempMaxHour => "tempMaxHour"
    case TempMaxHourUnit => "tempMaxHourUnit"
    case TempMinHour => "tempMinHour"
    case TempMinHourUnit => "tempMinHourUnit"
    case TempPres => "tempPres"
    case TempPresUnit => "tempPresUnit"
    case PrecipitationGauge => "precipitationGauge"
    case PrecipitationGaugeUnit => "precipitationGaugeUnit"
    case WindSpeedNum => "windSpeedNum"
    case WindSpeedUnit => "windSpeedUnit"
    case WindDirectionNum => "windDirectionNum"
    case HS => "hS"
    case HsUnit => "hsUnit"
    case Baro => "baro"
    case BaroUnit => "baroUnit"
    case RH => "rH"
    case WindGustSpeedNum => "windGustSpeedNum"
    case WindGustSpeedNumUnit => "windGustSpeedNumUnit"
    case WindGustDirNum => "windGustDirNum"
    case DewPoint => "dewPoint"
    case DewPointUnit => "dewPointUnit"
    case Hn24Auto => "hn24Auto"
    case Hn24AutoUnit => "hn24AutoUnit"
    case HstAuto => "hstAuto"
    case HstAutoUnit => "hstAutoUnit"
  }

  /** The column `setup_infoex_fields_mapping` assigns to field `f`, counting from 0. */
  function Column(f: Field): nat {
    match f
    case LocationUuid => 0
    case ObDate => 1
    case ObTime => 2
    case TimeZone => 3
    case TempMaxHour => 4
    case TempMaxHourUnit => 5
    case TempMinHour => 6
    case TempMinHourUnit => 7
    case TempPres => 8
    case TempPresUnit => 9
    case PrecipitationGauge => 10
    case PrecipitationGaugeUnit => 11
    case WindSpeedNum => 12
    case WindSpeedUnit => 13
    case WindDirectionNum => 14
    case HS => 15
    case HsUnit => 16
    case Baro => 17
    case BaroUnit => 18
    case RH => 19
    case WindGustSpeedNum => 20
    case WindGustSpeedNumUnit => 21
    case WindGustDirNum => 22
    case DewPoint => 23
    case DewPointUnit => 24
    case Hn24Auto => 25
    case Hn24AutoUnit => 26
    case HstAuto => 27
    case HstAutoUnit => 28
  }

  /** The 29 fields occupy 29 distinct columns of the record, so each cell belongs to
      exactly one field. */
  lemma ColumnsOfFields()
    ensures forall f :: Column(f) < FieldCount
    ensures forall f, g | f != g :: Column(f) != Column(g)
  {
  }

  /** `fmap`, the table `setup_infoex_fields_mapping` returns: field to column. */
  const FieldMap: map<Field, nat> := map[
    LocationUuid := 0, ObDate := 1, ObTime := 2, TimeZone := 3, TempMaxHour := 4,
    TempMaxHourUnit := 5, TempMinHour := 6, TempMinHourUnit := 7, TempPres := 8, TempPresUnit := 9,
    PrecipitationGauge := 10, PrecipitationGaugeUnit := 11, WindSpeedNum := 12, WindSpeedUnit := 13,
    WindDirectionNum := 14, HS := 15, HsUnit := 16, Baro := 17, BaroUnit := 18, RH := 19,
    WindGustSpeedNum := 20, WindGustSpeedNumUnit := 21, WindGustDirNum := 22, DewPoint := 23,
    DewPointUnit := 24, Hn24Auto := 25, Hn24AutoUnit := 26, HstAuto := 27, HstAutoUnit := 28]

  /** `fmap` holds every field, at its column. */
  lemma FieldMapColumns()
    ensures forall f :: f in FieldMap && FieldMap[f] == Column(f)
  {
    FieldMapAt0();
    FieldMapAt2();
    FieldMapAt4();
    FieldMapAt6();
    FieldMapAt8();
    FieldMapAt10();
    FieldMapAt12();
    FieldMapAt14();
    FieldMapAt16();
    FieldMapAt18();
    FieldMapAt20();
    FieldMapAt22();
    FieldMapAt24();
    FieldMapAt26();
    FieldMapAt28();
    forall f
      ensures f in FieldMap && FieldMap[f] == Column(f)
    {
      match f
      case LocationUuid =>
      case ObDate =>
      case ObTime =>
      case TimeZone =>
      case TempMaxHour =>
      case TempMaxHourUnit =>
      case TempMinHour =>
      case TempMinHourUnit =>
      case TempPres =>
      case TempPresUnit =>
      case PrecipitationGauge =>
      case PrecipitationGaugeUnit =>
      case WindSpeedNum =>
      case WindSpeedUnit =>
      case WindDirectionNum =>
      case HS =>
      case HsUnit =>
      case Baro =>
      case BaroUnit =>
      case RH =>
      case WindGustSpeedNum =>
      case WindGustSpeedNumUnit =>
      case WindGustDirNum =>
      case DewPoint =>
      case DewPointUnit =>
      case Hn24Auto =>
      case Hn24AutoUnit =>
      case HstAuto =>
      case HstAutoUnit =>
    }
  }

  // The entries of `fmap`, two at a time: looking all 29 up in one proof is far costlier.
  lemma FieldMapAt0()
    ensures LocationUuid in FieldMap && FieldMap[LocationUuid] == 0 && ObDate in FieldMap && FieldMap[ObDate] == 1
  {
  }

  lemma FieldMapAt2()
    ensures ObTime in FieldMap && FieldMap[ObTime] == 2 && TimeZone in FieldMap && FieldMap[TimeZone] == 3
  {
  }

  lemma FieldMapAt4()
    ensures TempMaxHour in FieldMap && FieldMap[TempMaxHour] == 4 && TempMaxHourUnit in FieldMap && FieldMap[TempMaxHourUnit] == 5
  {
  }

  lemma FieldMapAt6()
    ensures TempMinHour in FieldMap && FieldMap[TempMinHour] == 6 && TempMinHourUnit in FieldMap && FieldMap[TempMinHourUnit] == 7
  {
  }

  lemma FieldMapAt8()
    ensures TempPres in FieldMap && FieldMap[TempPres] == 8 && TempPresUnit in FieldMap && FieldMap[TempPresUnit] == 9
  {
  }

  lemma FieldMapAt10()
    ensures PrecipitationGauge in FieldMap && FieldMap[PrecipitationGauge] == 10 && PrecipitationGaugeUnit in FieldMap && FieldMap[PrecipitationGaugeUnit] == 11
  {
  }

  lemma FieldMapAt12()
    ensures WindSpeedNum in FieldMap && FieldMap[WindSpeedNum] == 12 && WindSpeedUnit in FieldMap && FieldMap[WindSpeedUnit] == 13
  {
  }

  lemma FieldMapAt14()
    ensures WindDirectionNum in FieldMap && FieldMap[WindDirectionNum] == 14 && HS in FieldMap && FieldMap[HS] == 15
  {
  }

  lemma FieldMapAt16()
    ensures HsUnit in FieldMap && FieldMap[HsUnit] == 16 && Baro in FieldMap && FieldMap[Baro] == 17
  {
  }

  lemma FieldMapAt18()
    ensures BaroUnit in FieldMap && FieldMap[BaroUnit] == 18 && RH in FieldMap && FieldMap[RH] == 19
  {
  }

  lemma FieldMapAt20()
    ensures WindGustSpeedNum in FieldMap && FieldMap[WindGustSpeedNum] == 20 && WindGustSpeedNumUnit in FieldMap && FieldMap[WindGustSpeedNumUnit] == 21
  {
  }

  lemma FieldMapAt22()
    ensures WindGustDirNum in FieldMap && FieldMap[WindGustDirNum] == 22 && DewPoint in FieldMap && FieldMap[DewPoint] == 23
  {
  }

  lemma FieldMapAt24()
    ensures DewPointUnit in FieldMap && FieldMap[DewPointUnit] == 24 && Hn24Auto in FieldMap && FieldMap[Hn24Auto] == 25
  {
  }

  lemma FieldMapAt26()
    ensures Hn24AutoUnit in FieldMap && FieldMap[Hn24AutoUnit] == 26 && HstAuto in FieldMap && FieldMap[HstAuto] == 27
  {
  }

  lemma FieldMapAt28()
    ensures HstAutoUnit in FieldMap && FieldMap[HstAutoUnit] == 28
  {
  }

  /** The imperial unit label the record starts with in column `i`, if it is a unit column. */
  function ImperialLabel(i: int): Option<string> {
    match i
    case 5 => Some("F")
    case 7 => Some("F")
    case 9 => Some("F")
    case 11 => Some("in")
    case 13 => Some("mph")
    case 16 => Some("in")
    case 18 => Some("inHg")
    case 21 => Some("mph")
    case 24 => Some("F")
    case 26 => Some("in")
    case 28 => Some("in")
    case _ => None
  }

  /** The label the metric relabelling writes to column `i`, if any; `baroUnit` (18) has none. */
  function MetricLabel(i: int): Option<string> {
    match i
    case 5 => Some("C")
    case 7 => Some("C")
    case 9 => Some("C")
    case 11 => Some("mm")
    case 13 => Some("m/s")
    case 16 => Some("cm")
    case 21 => Some("m/s")
    case 24 => Some("C")
    case 26 => Some("cm")
    case 28 => Some("cm")
    case _ => None
  }

  /** The labelled columns are exactly those of the eleven `...Unit` fields. */
  lemma UnitColumns()
    ensures forall f :: ImperialLabel(Column(f)).Some? <==>
      f in {TempMaxHourUnit, TempMinHourUnit, TempPresUnit, PrecipitationGaugeUnit, WindSpeedUnit,
            HsUnit, BaroUnit, WindGustSpeedNumUnit, DewPointUnit, Hn24AutoUnit, HstAutoUnit}
  {
  }

  /** The record as `setup_infoex_fields_mapping` leaves it: the location in column 0,
      `Pacific` in column 3, the imperial label in every unit column and `None` in
      every other column. */
  function DefaultRecord(locationUuid: string): (r: seq<Cell>)
    ensures |r| == FieldCount
  {
    seq(FieldCount, i =>
      if i == 0 then Str(locationUuid)
      else if i == 3 then Str("Pacific")
      else if ImperialLabel(i).Some? then Str(ImperialLabel(i).value)
      else Empty)
  }

  /** The `fmap` half of `setup_infoex_fields_mapping`: one assignment per field. */
  method SetupFieldMap() returns (fmap: map<Field, nat>)
    ensures fmap == FieldMap
  {
    fmap := map[];
    fmap := fmap[LocationUuid := 0];
    fmap := fmap[ObDate := 1];
    fmap := fmap[ObTime := 2];
    fmap := fmap[TimeZone := 3];
    fmap := fmap[TempMaxHour := 4];
    fmap := fmap[TempMaxHourUnit := 5];
    fmap := fmap[TempMinHour := 6];
    fmap := fmap[TempMinHourUnit := 7];
    fmap := fmap[TempPres := 8];
    fmap := fmap[TempPresUnit := 9];
    fmap := fmap[PrecipitationGauge := 10];
    fmap := fmap[PrecipitationGaugeUnit := 11];
    fmap := fmap[WindSpeedNum := 12];
    fmap := fmap[WindSpeedUnit := 13];
    fmap := fmap[WindDirectionNum := 14];
    fmap := fmap[HS := 15];
    fmap := fmap[HsUnit := 16];
    fmap := fmap[Baro := 17];
    fmap := fmap[BaroUnit := 18];
    fmap := fmap[RH := 19];
    fmap := fmap[WindGustSpeedNum := 20];
    fmap := fmap[WindGustSpeedNumUnit := 21];
    fmap := fmap[WindGustDirNum := 22];
    fmap := fmap[DewPoint := 23];
    fmap := fmap[DewPointUnit := 24];
    fmap := fmap[Hn24Auto := 25];
    fmap := fmap[Hn24AutoUnit := 26];
    fmap := fmap[HstAuto := 27];
    fmap := fmap[HstAutoUnit := 28];
  }

  /** The `final_data` half of `setup_infoex_fields_mapping`: `[None] * 29`, then one
      assignment per column. */
  method SetupFinalData(locationUuid: string) returns (finalData: seq<Cell>)
    ensures finalData == DefaultRecord(locationUuid)
  {
    finalData := seq(29, _ => Empty);
    finalData := finalData[0 := Str(locationUuid)];
    finalData := finalData[1 := Empty];
    finalData := finalData[2 := Empty];
    finalData := finalData[3 := Str("Pacific")];
    finalData := finalData[4 := Empty];
    finalData := finalData[5 := Str("F")];
    finalData := finalData[6 := Empty];
    finalData := finalData[7 := Str("F")];
    finalData := finalData[8 := Empty];
    finalData := finalData[9 := Str("F")];
    finalData := finalData[10 := Empty];
    finalData := finalData[11 := Str("in")];
    finalData := finalData[12 := Empty];
    finalData := finalData[13 := Str("mph")];
    finalData := finalData[14 := Empty];
    finalData := finalData[15 := Empty];
    finalData := finalData[16 := Str("in")];
    finalData := finalData[17 := Empty];
    finalData := finalData[18 := Str("inHg")];
    finalData := finalData[19 := Empty];
    finalData := finalData[20 := Empty];
    finalData := finalData[21 := Str("mph")];
    finalData := finalData[22 := Empty];
    finalData := finalData[23 := Empty];
    finalData := finalData[24 := Str("F")];
    finalData := finalData[25 := Empty];
    finalData := finalData[26 := Str("in")];
    finalData := finalData[27 := Empty];
    finalData := finalData[28 := Str("in")];
  }

  /** Python's `setup_infoex_fields_mapping`, whose two columns of assignments build the
      table and the default record independently of each other. */
  method SetupFieldsMapping(locationUuid: string) returns (fmap: map<Field, nat>, finalData: seq<Cell>)
    ensures fmap == FieldMap
    ensures finalData == DefaultRecord(locationUuid)
  {
    fmap := SetupFieldMap();
    finalData := SetupFinalData(locationUuid);
  }

  /** The record after the ten metric assignments of `switch_units_to_metric`. */
  function MetricRelabel(data: seq<Cell>): (r: seq<Cell>)
    requires |data| == FieldCount
    ensures |r| == FieldCount
    ensures forall i | 0 <= i < FieldCount :: r[i] == if MetricLabel(i).Some? then Str(MetricLabel(i).value) else data[i]
  {
    data[5 := Str("C")][7 := Str("C")][9 := Str("C")][11 := Str("mm")][16 := Str("cm")]
        [13 := Str("m/s")][21 := Str("m/s")][24 := Str("C")][26 := Str("cm")][28 := Str("cm")]
  }

  /** Python's `switch_units_to_metric`: overwrites the metric unit cells, looked up
      through `fmap`, and returns the record. */
  method SwitchUnitsToMetric(dataMap: seq<Cell>, mapping: map<Field, nat>) returns (r: seq<Cell>)
    requires |dataMap| == FieldCount && mapping == FieldMap
    ensures r == MetricRelabel(dataMap)
  {
    FieldMapColumns();
    r := dataMap;
    r := r[mapping[TempMaxHourUnit] := Str("C")];
    r := r[mapping[TempMinHourUnit] := Str("C")];
    r := r[mapping[TempPresUnit] := Str("C")];
    r := r[mapping[PrecipitationGaugeUnit] := Str("mm")];
    r := r[mapping[HsUnit] := Str("cm")];
    r := r[mapping[WindSpeedUnit] := Str("m/s")];
    r := r[mapping[WindGustSpeedNumUnit] := Str("m/s")];
    r := r[mapping[DewPointUnit] := Str("C")];
    r := r[mapping[Hn24AutoUnit] := Str("cm")];
    r := r[mapping[HstAutoUnit] := Str("cm")];
  }

  /** The relabelling changes unit columns only, all of them but the one of `baroUnit`,
      which keeps `inHg`. */
  lemma MetricRelabelColumns()
    ensures forall i :: MetricLabel(i).Some? <==> ImperialLabel(i).Some? && i != Column(BaroUnit)
    ensures ImperialLabel(Column(BaroUnit)) == Some("inHg")
  {
  }

  /** Relabelling twice is relabelling once, and on a default record it leaves
      `inHg` in the barometer unit column and every non-unit column as it was. */
  lemma MetricRelabelIdempotent(data: seq<Cell>, locationUuid: string)
    requires |data| == FieldCount
    ensures MetricRelabel(MetricRelabel(data)) == MetricRelabel(data)
    ensures MetricRelabel(DefaultRecord(locationUuid))[Column(BaroUnit)] == Str("inHg")
    ensures forall i | 0 <= i < FieldCount && ImperialLabel(i).None? ::
      MetricRelabel(DefaultRecord(locationUuid))[i] == DefaultRecord(locationUuid)[i]
  {
    assert MetricRelabel(MetricRelabel(data)) == MetricRelabel(data);
  }
}
