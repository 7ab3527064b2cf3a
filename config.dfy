/** The station options of `setup_config` that shape the run: the provider type, the
    unit system, the HN24 switch and the wind mode, and from the last two the number
    of hours of data to request. */
module Config {
  import opened Wrappers
  import opened Station

  /** The configuration errors that end the run. */
  datatype ConfigError = UnknownProvider | InvalidHn24 | InvalidWindMode

  /** The `type` value naming each provider. */
  function ProviderName(provider: Provider): string {
    match provider
    case Nrcs => "nrcs"
    case MesoWest => "mesowest"
    case Python => "python"
  }

  /** The provider check of `setup_config`: only the three known type names pass. */
  function ParseProvider(name: string): (r: Option<Provider>)
    ensures r.Some? <==> name in {"nrcs", "mesowest", "python"}
    ensures r.Some? ==> ProviderName(r.value) == name
  {
    if name == "nrcs" then Some(Nrcs)
    else if name == "mesowest" then Some(MesoWest)
    else if name == "python" then Some(Python)
    else None
  }

  /** Only the exact string `metric` selects metric units; any other value is English. */
  function ParseUnits(units: string): (r: UnitSystem)
    ensures r == Metric <==> units == "metric"
  {
    if units == "metric" then Metric else English
  }

  datatype TimeConfig = TimeConfig(hn24: bool, windMode: WindMode, hoursToFetch: nat)

  predicate ValidHn24(value: string) {
    value == "true" || value == "false"
  }

  predicate ValidWindMode(value: string) {
    value == "normal" || value == "average"
  }

  /** The HN24 and wind-mode block of `setup_config`; an absent option takes its default
      (`false`, `normal`), and three hours are fetched unless either derived value needs
      a whole day. */
  function SetupTimeConfig(hn24: Option<string>, windMode: Option<string>): (r: Result<TimeConfig, ConfigError>)
    ensures r.Failure? <==> (hn24.Some? && !ValidHn24(hn24.value)) || (windMode.Some? && !ValidWindMode(windMode.value))
    ensures r.Failure? ==> (r.error == InvalidHn24 <==> hn24.Some? && !ValidHn24(hn24.value))
    ensures r.Failure? ==> r.error != UnknownProvider
    ensures r.Success? ==> (r.value.hn24 <==> hn24 == Some("true"))
    ensures r.Success? ==> (r.value.windMode == Average <==> windMode == Some("average"))
    ensures r.Success? ==> r.value.hoursToFetch in {3, 24}
    ensures r.Success? ==> (r.value.hoursToFetch == 24 <==> r.value.hn24 || r.value.windMode == Average)
  {
    if hn24.Some? && !ValidHn24(hn24.value) then Failure(InvalidHn24)
    else if windMode.Some? && !ValidWindMode(windMode.value) then Failure(InvalidWindMode)
    else
      var hours := 3;
      var hours := if hn24 == Some("true") then 24 else hours;
      var mode := if windMode == Some("average") then Average else Normal;
      var hours := if mode == Average then 24 else hours;
      Success(TimeConfig(hn24 == Some("true"), mode, hours))
  }

  function Hn24Name(hn24: bool): string {
    if hn24 then "true" else "false"
  }

  function WindModeName(windMode: WindMode): string {
    match windMode
    case Normal => "normal"
    case Average => "average"
  }

  /** Each provider's type name is parsed back to that provider. */
  lemma ParseProviderName(provider: Provider)
    ensures ParseProvider(ProviderName(provider)) == Some(provider)
  {
  }

  /** Writing a setting out and reading it back gives the same setting, and leaving both
      options out gives the defaults. */
  lemma TimeConfigRoundTrip(hn24: bool, windMode: WindMode)
    ensures var r := SetupTimeConfig(Some(Hn24Name(hn24)), Some(WindModeName(windMode)));
      r.Success? && r.value.hn24 == hn24 && r.value.windMode == windMode
    ensures SetupTimeConfig(None, None) == Success(TimeConfig(false, Normal, 3))
  {
  }

  /** The HN24 check comes first: with both options invalid the error is about HN24. */
  lemma Hn24CheckedFirst(hn24: string, windMode: string)
    requires !ValidHn24(hn24) && !ValidWindMode(windMode)
    ensures SetupTimeConfig(Some(hn24), Some(windMode)) == Failure(InvalidHn24)
  {
  }
}
