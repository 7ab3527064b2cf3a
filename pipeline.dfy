/** One run of `main` between reading the configuration and writing the CSV file:
    the record layout, the metric relabelling, the request window, the provider's
    reduction of its response, and the assembly. The provider's response, the clock
    and the date and time formatting are parameters. */
module Pipeline {
  import opened Wrappers
  import opened Station
  import opened Config
  import opened Window
  import opened Layout
  import opened ProviderTables
  import opened Nrcs
  import opened Mesowest
  import opened Assembly

  /** What the provider's request brought back for the run's window. */
  datatype Fetched =
    | NrcsResponses(responses: seq<seq<NrcsSample>>)
    | MesoWestResponse(observations: Observations)
    | CustomData(data: Option<map<string, Option<real>>>)
    | TransportFailed

  /** The response has the shape its provider's request yields: the NRCS service answers
      once per requested element, and every MesoWest series spans the whole `date_time`. */
  ghost predicate Answers(provider: Provider, desired: seq<string>, fetched: Fetched) {
    match provider
    case Nrcs => fetched.NrcsResponses? && |fetched.responses| == |desired|
    case MesoWest => (fetched.MesoWestResponse? && WellFormed(fetched.observations)) || fetched.TransportFailed?
    case Python => fetched.CustomData? || fetched.TransportFailed?
  }

  /** Why a run ends without a record: a configuration error, the uncaught MesoWest
      `IndexError`, or a failed request or unusable response. */
  datatype RunError = ConfigFailed(error: ConfigError) | MesoWestFailed(fault: Fault) | FetchFailed

  /** The record handed to the CSV writer, and whether it is written and uploaded at all,
      which `main` does only when `wx_data` is non-empty. */
  datatype Outcome = Outcome(record: seq<Cell>, upload: bool)

  /** `infoex['wx_data']` as the provider reduction leaves it; a custom program returning
      `None` reports nothing. */
  function Reported(desired: seq<string>, fetched: Fetched, units: UnitSystem, windMode: WindMode)
    : (r: Result<map<string, Option<real>>, RunError>)
    requires fetched.NrcsResponses? ==> |fetched.responses| == |desired|
    ensures r.Failure? <==> fetched.TransportFailed? || (fetched.MesoWestResponse? && Crashes(desired, fetched.observations))
    ensures r.Failure? ==> r.error.FetchFailed? || r.error == MesoWestFailed(IndexError)
  {
    match fetched
    case NrcsResponses(responses) => Success(Stored(desired, responses))
    case MesoWestResponse(obs) =>
      if Crashes(desired, obs) then Failure(MesoWestFailed(IndexError))
      else Success(Reduced(desired, obs, units, windMode))
    case CustomData(data) => Success(data.GetOr(map[]))
    case TransportFailed => Failure(FetchFailed)
  }

  /** The record before the assembly: the default one, with metric unit labels when a
      weather-station provider reports in metric. */
  function BaseRecord(provider: Provider, units: UnitSystem, locationUuid: string): (r: seq<Cell>)
    ensures |r| == FieldCount
  {
    if provider != Python && units == Metric then MetricRelabel(DefaultRecord(locationUuid))
    else DefaultRecord(locationUuid)
  }

  /** The layout of `main`: the field table, the default record and, for a
      weather-station provider reporting in metric, its metric unit labels. */
  method PrepareRecord(locationUuid: string, provider: Provider, units: UnitSystem)
    returns (fmap: map<Field, nat>, finalData: seq<Cell>)
    ensures fmap == FieldMap
    ensures finalData == BaseRecord(provider, units, locationUuid)
  {
    fmap, finalData := SetupFieldsMapping(locationUuid);
    // override units if the user selected metric
    if provider != Python && units == Metric {
      finalData := SwitchUnitsToMetric(finalData, fmap);
    }
  }

  /** The provider dispatch of `main` that fills `infoex['wx_data']`. */
  method GetWxData(desired: seq<string>, fetched: Fetched, units: UnitSystem, windMode: WindMode)
    returns (r: Result<map<string, Option<real>>, RunError>)
    requires fetched.NrcsResponses? ==> |fetched.responses| == |desired|
    requires fetched.MesoWestResponse? ==> WellFormed(fetched.observations)
    ensures r == Reported(desired, fetched, units, windMode)
  {
    match fetched {
      case NrcsResponses(responses) =>
        var wxData := GetNrcsData(desired, responses);
        r := Success(wxData);
      case MesoWestResponse(observations) =>
        var reduced := GetMesowestData(desired, observations, units, windMode);
        if reduced.Failure? {
          assert reduced.error == IndexError;
          r := Failure(MesoWestFailed(reduced.error));
        } else {
          r := Success(reduced.value);
        }
      case CustomData(data) =>
        // a program returning None reports nothing
        var wxData := if data.Some? then data.value else map[];
        r := Success(wxData);
      case TransportFailed =>
        // the request failed or its response could not be used
        r := Failure(FetchFailed);
    }
  }

  /** The layout and assembly of `main` and its upload decision: the record is built
      from the default one and written and sent only when `wx_data`, after the assembly
      has massaged it, is non-empty. */
  method FinishRecord(wxData: map<string, Option<real>>, provider: Provider, units: UnitSystem,
                      locationUuid: string, obDate: string, obTime: string, zone: string)
    returns (outcome: Outcome)
    ensures outcome == Outcome(AssembledRecord(BaseRecord(provider, units, locationUuid), provider, units,
                                               locationUuid, obDate, obTime, zone, wxData),
                               |wxData| > 0)
  {
    var fmap, finalData := PrepareRecord(locationUuid, provider, units);
    var iemap := Counterparts(provider);
    TablesOfProvider(provider);
    var record, massaged := AssembleRecord(finalData, fmap, iemap, wxData, provider, units,
                                           locationUuid, obDate, obTime, zone);
    outcome := Outcome(record, |massaged| > 0);
  }

  /** The steps of `main` after the configuration is read, for a valid configuration. */
  method RunStation(locationUuid: string, provider: Provider, units: UnitSystem, config: TimeConfig,
                    desired: seq<string>, now: int, stationOffset: int, zone: string,
                    formatDate: int -> string, formatTime: int -> string, fetched: Fetched)
    returns (result: Result<Outcome, RunError>, window: TimeWindow)
    requires Answers(provider, desired, fetched)
    ensures window == SetupTimeValues(now, RequestOffset(provider, stationOffset), config.hoursToFetch)
    ensures var reported := Reported(desired, fetched, units, config.windMode);
      (reported.Failure? ==> result == Failure(reported.error)) &&
      (reported.Success? ==>
        var local := window.end + stationOffset;
        result == Success(Outcome(
          AssembledRecord(BaseRecord(provider, units, locationUuid), provider, units, locationUuid,
                          formatDate(local), formatTime(local), zone, reported.value),
          |reported.value| > 0)))
  {
    window := SetupTimeValues(now, RequestOffset(provider, stationOffset), config.hoursToFetch);

    var reported := GetWxData(desired, fetched, units, config.windMode);
    if reported.Failure? {
      return Failure(reported.error), window;
    }
    var wxData := reported.value;

    // the end of the window on the station's clock
    var local := window.end + stationOffset;
    var outcome := FinishRecord(wxData, provider, units, locationUuid, formatDate(local), formatTime(local), zone);
    return Success(outcome), window;
  }

  /** `main` for one station. `now` is the clock reading, `stationOffset` the UTC offset
      of the station's zone and `zone` its name; `formatDate` and `formatTime` stand for
      `strftime('%m/%d/%Y')` and `strftime('%H:%M')` on the station's local clock. */
  method Run(locationUuid: string, providerName: string, unitsName: string,
             hn24Option: Option<string>, windModeOption: Option<string>, desired: seq<string>,
             now: int, stationOffset: int, zone: string,
             formatDate: int -> string, formatTime: int -> string, fetched: Fetched)
    returns (result: Result<Outcome, RunError>, window: TimeWindow)
    requires ParseProvider(providerName).Some? ==> Answers(ParseProvider(providerName).value, desired, fetched)
    ensures ParseProvider(providerName).None? ==> result == Failure(ConfigFailed(UnknownProvider))
    ensures ParseProvider(providerName).Some? && SetupTimeConfig(hn24Option, windModeOption).Failure? ==>
      result == Failure(ConfigFailed(SetupTimeConfig(hn24Option, windModeOption).error))
    ensures ParseProvider(providerName).Some? && SetupTimeConfig(hn24Option, windModeOption).Success? ==>
      var provider := ParseProvider(providerName).value;
      var units := ParseUnits(unitsName);
      var config := SetupTimeConfig(hn24Option, windModeOption).value;
      var reported := Reported(desired, fetched, units, config.windMode);
      window == SetupTimeValues(now, RequestOffset(provider, stationOffset), config.hoursToFetch) &&
      (reported.Failure? ==> result == Failure(reported.error)) &&
      (reported.Success? ==>
        var local := window.end + stationOffset;
        result == Success(Outcome(
          AssembledRecord(BaseRecord(provider, units, locationUuid), provider, units, locationUuid,
                          formatDate(local), formatTime(local), zone, reported.value),
          |reported.value| > 0)))
  {
    window := TimeWindow(0, 0);
    var parsed := ParseProvider(providerName);
    if parsed.None? {
      return Failure(ConfigFailed(UnknownProvider)), window;
    }
    var units := ParseUnits(unitsName);
    var timeConfig := SetupTimeConfig(hn24Option, windModeOption);
    if timeConfig.Failure? {
      return Failure(ConfigFailed(timeConfig.error)), window;
    }
    result, window := RunStation(locationUuid, parsed.value, units, timeConfig.value, desired,
                                 now, stationOffset, zone, formatDate, formatTime, fetched);
  }

  /** The unit labels of the final record: metric ones for a weather-station provider
      reporting in metric, except for barometric pressure, which stays `inHg`; imperial
      ones otherwise, and always for a custom program. */
  lemma RecordUnitLabels(provider: Provider, units: UnitSystem, locationUuid: string,
                         obDate: string, obTime: string, zone: string, wxData: map<string, Option<real>>)
    ensures var r := AssembledRecord(BaseRecord(provider, units, locationUuid), provider, units, locationUuid,
                                     obDate, obTime, zone, wxData);
      forall i | 0 <= i < FieldCount && ImperialLabel(i).Some? ::
        r[i] == Str(if provider != Python && units == Metric && MetricLabel(i).Some?
                    then MetricLabel(i).value else ImperialLabel(i).value)
  {
    var base := BaseRecord(provider, units, locationUuid);
    var r := AssembledRecord(base, provider, units, locationUuid, obDate, obTime, zone, wxData);
    AssemblyFrame(base, provider, units, locationUuid, obDate, obTime, zone, wxData);
    forall i | 0 <= i < FieldCount && ImperialLabel(i).Some?
      ensures r[i] == Str(if provider != Python && units == Metric && MetricLabel(i).Some?
                          then MetricLabel(i).value else ImperialLabel(i).value)
    {
      assert r[i] == base[i];
    }
  }

  /** A custom program that returns `None` leaves nothing to upload, and one that reports
      the example program's ten fields as `None` uploads the default record with only
      its date, time and zone filled in. */
  lemma CustomRuns(locationUuid: string, obDate: string, obTime: string, zone: string, units: UnitSystem)
    ensures Reported([], CustomData(None), units, Normal) == Success(map[])
    ensures var wx := map k | k in CustomExampleKeys :: None;
      var r := AssembledRecord(BaseRecord(Python, units, locationUuid), Python, units, locationUuid,
                               obDate, obTime, zone, wx);
      |wx| > 0 && r == DefaultRecord(locationUuid)[1 := Str(obDate)][2 := Str(obTime)][3 := Str(zone)]
  {
    var wx: map<string, Option<real>> := map k | k in CustomExampleKeys :: None;
    assert "hS" in wx;
    CustomExampleRecord(locationUuid, obDate, obTime, zone);
    var base := DefaultRecord(locationUuid);
    var r1 := AssembledRecord(base, Python, units, locationUuid, obDate, obTime, zone, wx);
    var r2 := AssembledRecord(base, Python, English, locationUuid, obDate, obTime, zone, wx);
    forall i | 4 <= i < FieldCount
      ensures r1[i] == r2[i]
    {
    }
  }
}
