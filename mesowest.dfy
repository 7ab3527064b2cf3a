/** The MesoWest (REST, sub-hourly) reduction of `get_mesowest_data`: per requested
    element the last sample of the window, plus the derived 24-hour snow height change
    (HN24) and, in `average` wind mode, the windowed wind means. */
module Mesowest {
  import opened Wrappers
  import opened Station
  import opened Convert

  /** `json['STATION'][0]['OBSERVATIONS']`: the length of `date_time` and every
      `<element>_set_1` series, keyed by its full key name. */
  datatype Observations = Observations(dateTimeCount: nat, series: map<string, seq<Option<real>>>)

  /** What the model assumes of a response: every series is as long as `date_time`. */
  ghost predicate WellFormed(obs: Observations) {
    forall key | key in obs.series :: |obs.series[key]| == obs.dateTimeCount
  }

  /** The failure the source does not catch: indexing an empty series at `pos = -1`. */
  datatype Fault = IndexError

  function KeyName(elementCd: string): string {
    elementCd + "_set_1"
  }

  /** The per-sample conversion: wind speeds from knots to mph, and snow depth from
      millimetres to centimetres under metric units. */
  function ConvertSample(elementCd: string, units: UnitSystem, raw: real): (v: real)
    ensures (raw == 0.0) <==> (v == 0.0)
  {
    var v := if elementCd == "wind_speed" || elementCd == "wind_gust" then KnToMph(raw) else raw;
    if elementCd == "snow_depth" && units == Metric then MmToCm(v) else v
  }

  /** The non-null samples of a series, in order, after conversion. */
  function Converted(elementCd: string, units: UnitSystem, s: seq<Option<real>>): (r: seq<real>)
    ensures |r| <= |s|
    ensures (|r| == 0) <==> (forall k | 0 <= k < |s| :: s[k].None?)
  {
    if s == [] then []
    else
      var n := |s| - 1;
      Converted(elementCd, units, s[..n]) +
        (if s[n].Some? then [ConvertSample(elementCd, units, s[n].value)] else [])
  }

  /** Python's truth test on a sample: neither `None` nor zero. */
  predicate Truthy(x: Option<real>) {
    x.Some? && x.value != 0.0
  }

  /** The value an element keeps from its own series: the converted sample at the last
      position when that raw sample is truthy, `None` otherwise. */
  function PointValue(elementCd: string, obs: Observations, units: UnitSystem): (r: Option<real>)
    ensures KeyName(elementCd) !in obs.series ==> r == None
    ensures r.Some? ==> r.value != 0.0
  {
    if KeyName(elementCd) in obs.series then
      var s := obs.series[KeyName(elementCd)];
      if |s| > 0 && Truthy(s[|s| - 1]) then Some(ConvertSample(elementCd, units, s[|s| - 1].value))
      else None
    else None
  }

  /** `remote_data` after the loop over the requested elements, before the derived values. */
  function PointValues(desired: seq<string>, obs: Observations, units: UnitSystem): map<string, Option<real>> {
    if desired == [] then map[]
    else
      var n := |desired| - 1;
      PointValues(desired[..n], obs, units)[desired[n] := PointValue(desired[n], obs, units)]
  }

  /** What one request of `elementCd` adds to the list kept for `target`. */
  function Contribution(elementCd: string, target: string, obs: Observations, units: UnitSystem): seq<real> {
    if elementCd == target && KeyName(target) in obs.series
    then Converted(target, units, obs.series[KeyName(target)]) else []
  }

  /** The list the loop accumulates for `target`: the converted non-null samples of its
      series, once for every time `target` is requested. */
  function Collected(desired: seq<string>, target: string, obs: Observations, units: UnitSystem): seq<real> {
    if desired == [] then []
    else
      var n := |desired| - 1;
      Collected(desired[..n], target, obs, units) + Contribution(desired[n], target, obs, units)
  }

  /** The wind lists are only filled in `average` mode. */
  function Averaged(windMode: WindMode, desired: seq<string>, target: string, obs: Observations, units: UnitSystem): seq<real> {
    if windMode == Average then Collected(desired, target, obs, units) else []
  }

  /** HN24 as lines 630 to 644 compute it from the snow-depth samples, oldest first:
      the first sample minus the last, a negative result clamped to zero. */
  function Hn24AsWritten(values: seq<real>): (r: Option<real>)
    ensures r.Some? <==> |values| > 0
    ensures r.Some? ==> r.value >= 0.0 && r.value >= values[0] - values[|values| - 1]
    ensures r.Some? ==> r.value == 0.0 || r.value == values[0] - values[|values| - 1]
  {
    if |values| == 0 then None
    else
      var hn24 := values[0] - values[|values| - 1];
      Some(if hn24 < 0.0 then 0.0 else hn24)
  }

  /** The snow fallen over the window, as the comments at lines 631-635 describe it: how
      much the newest depth exceeds the oldest, and zero when the snow settled. This is
      the corrected reading of `Hn24AsWritten`; the pipeline keeps the code's own. */
  function Hn24(values: seq<real>): (r: Option<real>)
    ensures r.Some? <==> |values| > 0
    ensures r.Some? ==> r.value >= 0.0 && r.value >= values[|values| - 1] - values[0]
    ensures r.Some? ==> r.value == 0.0 || r.value == values[|values| - 1] - values[0]
  {
    if |values| == 0 then None
    else
      var hn24 := values[|values| - 1] - values[0];
      Some(if hn24 < 0.0 then 0.0 else hn24)
  }

  /** Depths that rise over the window are reported as new snow, by exactly the rise;
      the code as written reports no new snow for them. */
  lemma Hn24ReportsAccumulation(values: seq<real>)
    requires |values| > 0 && values[|values| - 1] > values[0]
    ensures Hn24(values) == Some(values[|values| - 1] - values[0])
    ensures Hn24AsWritten(values) == Some(0.0)
  {
  }

  /** Depths that fall over the window (settlement) are reported as no new snow; the
      code as written reports the drop as new snow. */
  lemma Hn24IgnoresSettlement(values: seq<real>)
    requires |values| > 0 && values[|values| - 1] < values[0]
    ensures Hn24(values) == Some(0.0)
    ensures Hn24AsWritten(values) == Some(values[0] - values[|values| - 1])
  {
  }

  /** Two centimetres of new snow, and two of settlement. */
  lemma Hn24AsWrittenCounterexample()
    ensures Hn24AsWritten([10.0, 12.0]) == Some(0.0) && Hn24([10.0, 12.0]) == Some(2.0)
    ensures Hn24AsWritten([12.0, 10.0]) == Some(2.0) && Hn24([12.0, 10.0]) == Some(0.0)
  {
  }

  /** Python's `sum`, adding from the left. */
  function Sum(values: seq<real>): real {
    if values == [] then 0.0 else Sum(values[..|values| - 1]) + values[|values| - 1]
  }

  /** The arithmetic mean, absent for an empty list. */
  function Mean(values: seq<real>): (r: Option<real>)
    ensures r.Some? <==> |values| > 0
  {
    if |values| == 0 then None else Some(Sum(values) / |values| as real)
  }

  function Override(m: map<string, Option<real>>, key: string, v: Option<real>): map<string, Option<real>> {
    if v.Some? then m[key := v] else m
  }

  /** The dictionary `get_mesowest_data` returns, with HN24 as the code computes it. */
  function Reduced(desired: seq<string>, obs: Observations, units: UnitSystem, windMode: WindMode): map<string, Option<real>> {
    var hn24 := Hn24AsWritten(Collected(desired, "snow_depth", obs, units));
    var speed := Mean(Averaged(windMode, desired, "wind_speed", obs, units));
    var gust := Mean(Averaged(windMode, desired, "wind_gust", obs, units));
    var direction := Mean(Averaged(windMode, desired, "wind_direction", obs, units));
    Override(Override(Override(Override(PointValues(desired, obs, units),
      "hn24", hn24), "wind_speed", speed), "wind_gust", gust), "wind_direction", direction)
  }

  /** The run dies when `date_time` is empty and some requested series is present. */
  predicate Crashes(desired: seq<string>, obs: Observations) {
    obs.dateTimeCount == 0 && exists e | e in desired :: KeyName(e) in obs.series
  }

  lemma ConvertedStep(elementCd: string, units: UnitSystem, s: seq<Option<real>>, idx: nat)
    requires idx < |s|
    ensures s[idx].None? ==> Converted(elementCd, units, s[..idx + 1]) == Converted(elementCd, units, s[..idx])
    ensures s[idx].Some? ==>
              Converted(elementCd, units, s[..idx + 1]) ==
              Converted(elementCd, units, s[..idx]) + [ConvertSample(elementCd, units, s[idx].value)]
  {
    assert s[..idx + 1][..idx] == s[..idx];
  }

  lemma PrefixStep(desired: seq<string>, obs: Observations, units: UnitSystem, i: nat)
    requires i < |desired|
    ensures PointValues(desired[..i + 1], obs, units) ==
      PointValues(desired[..i], obs, units)[desired[i] := PointValue(desired[i], obs, units)]
  {
    assert desired[..i + 1][..i] == desired[..i];
  }

  lemma CollectedStep(windMode: WindMode, desired: seq<string>, target: string, obs: Observations, units: UnitSystem, i: nat)
    requires i < |desired|
    ensures Collected(desired[..i + 1], target, obs, units) ==
      Collected(desired[..i], target, obs, units) + Contribution(desired[i], target, obs, units)
    ensures Averaged(windMode, desired[..i + 1], target, obs, units) ==
      Averaged(windMode, desired[..i], target, obs, units) +
        (if windMode == Average then Contribution(desired[i], target, obs, units) else [])
  {
    assert desired[..i + 1][..i] == desired[..i];
  }

  /** The four lists the loops of `get_mesowest_data` accumulate. */
  datatype Lists = Lists(speed: seq<real>, gust: seq<real>, direction: seq<real>, hn24: seq<real>)

  function Join(a: Lists, b: Lists): Lists {
    Lists(a.speed + b.speed, a.gust + b.gust, a.direction + b.direction, a.hn24 + b.hn24)
  }

  /** Where converted samples `xs` of `elementCd` go: the wind list of that element in
      `average` mode, and the HN24 list when it is the snow depth. */
  function Routed(elementCd: string, windMode: WindMode, xs: seq<real>): Lists {
    Lists(if windMode == Average && elementCd == "wind_speed" then xs else [],
          if windMode == Average && elementCd == "wind_gust" then xs else [],
          if windMode == Average && elementCd == "wind_direction" then xs else [],
          if elementCd == "snow_depth" then xs else [])
  }

  /** Routing one more sample extends what was routed before. */
  lemma RoutedStep(elementCd: string, windMode: WindMode, start: Lists, xs: seq<real>, v: real)
    ensures Join(Join(start, Routed(elementCd, windMode, xs)), Routed(elementCd, windMode, [v])) ==
            Join(start, Routed(elementCd, windMode, xs + [v]))
  {
    assert start.speed + xs + [v] == start.speed + (xs + [v]);
    assert start.gust + xs + [v] == start.gust + (xs + [v]);
    assert start.direction + xs + [v] == start.direction + (xs + [v]);
    assert start.hn24 + xs + [v] == start.hn24 + (xs + [v]);
  }

  /** The converted non-null samples of `elementCd`'s series, if the response has one. */
  function SeriesValues(elementCd: string, obs: Observations, units: UnitSystem): seq<real> {
    if KeyName(elementCd) in obs.series then Converted(elementCd, units, obs.series[KeyName(elementCd)]) else []
  }

  /** The four lists after the requests `desired`. */
  function Gathered(windMode: WindMode, desired: seq<string>, obs: Observations, units: UnitSystem): Lists {
    Lists(Averaged(windMode, desired, "wind_speed", obs, units),
          Averaged(windMode, desired, "wind_gust", obs, units),
          Averaged(windMode, desired, "wind_direction", obs, units),
          Collected(desired, "snow_depth", obs, units))
  }

  /** One more request routes its element's samples. */
  lemma GatheredStep(windMode: WindMode, desired: seq<string>, obs: Observations, units: UnitSystem, i: nat)
    requires i < |desired|
    ensures Gathered(windMode, desired[..i + 1], obs, units) ==
      Join(Gathered(windMode, desired[..i], obs, units), Routed(desired[i], windMode, SeriesValues(desired[i], obs, units)))
  {
    CollectedStep(windMode, desired, "snow_depth", obs, units, i);
    CollectedStep(windMode, desired, "wind_speed", obs, units, i);
    CollectedStep(windMode, desired, "wind_gust", obs, units, i);
    CollectedStep(windMode, desired, "wind_direction", obs, units, i);
  }

  /** The conversions of the inner loop of `get_mesowest_data` on one raw sample. */
  method ConvertValue(elementCd: string, units: UnitSystem, raw: real) returns (v: real)
    ensures v == ConvertSample(elementCd, units, raw)
  {
    v := raw;
    // wind speeds are wanted in mph
    if elementCd == "wind_speed" || elementCd == "wind_gust" {
      v := KnToMph(v);
    }
    // snow depth comes in mm; metric records want cm
    if elementCd == "snow_depth" && units == Metric {
      v := MmToCm(v);
    }
  }

  /** The appends of the inner loop of `get_mesowest_data`: a converted sample joins the
      wind list of its element in `average` mode and the HN24 list if it is a snow depth. */
  method CollectSample(elementCd: string, windMode: WindMode, v: real,
                       windSpeedValues: seq<real>, windGustSpeedValues: seq<real>,
                       windDirectionValues: seq<real>, hn24Values: seq<real>)
    returns (windSpeedValues': seq<real>, windGustSpeedValues': seq<real>,
             windDirectionValues': seq<real>, hn24Values': seq<real>)
    ensures Lists(windSpeedValues', windGustSpeedValues', windDirectionValues', hn24Values') ==
      Join(Lists(windSpeedValues, windGustSpeedValues, windDirectionValues, hn24Values),
           Routed(elementCd, windMode, [v]))
  {
    windSpeedValues', windGustSpeedValues', windDirectionValues', hn24Values' :=
      windSpeedValues, windGustSpeedValues, windDirectionValues, hn24Values;
    if windMode == Average {
      if elementCd == "wind_speed" {
        windSpeedValues' := windSpeedValues' + [v];
      } else if elementCd == "wind_gust" {
        windGustSpeedValues' := windGustSpeedValues' + [v];
      } else if elementCd == "wind_direction" {
        windDirectionValues' := windDirectionValues' + [v];
      }
    }
    if elementCd == "snow_depth" {
      hn24Values' := hn24Values' + [v];
    }
  }

  /** The inner loop of `get_mesowest_data` over one series `s`: converts every non-null
      sample, appends it to the wind and HN24 lists it belongs to, and stores it when it
      sits at the last position `pos`. */
  method ScanSeries(elementCd: string, s: seq<Option<real>>, pos: int, units: UnitSystem, windMode: WindMode,
                    remoteData: map<string, Option<real>>, windSpeedValues: seq<real>, windGustSpeedValues: seq<real>,
                    windDirectionValues: seq<real>, hn24Values: seq<real>)
    returns (remoteData': map<string, Option<real>>, windSpeedValues': seq<real>, windGustSpeedValues': seq<real>,
             windDirectionValues': seq<real>, hn24Values': seq<real>)
    requires pos == |s| - 1
    ensures Lists(windSpeedValues', windGustSpeedValues', windDirectionValues', hn24Values') ==
      Join(Lists(windSpeedValues, windGustSpeedValues, windDirectionValues, hn24Values),
           Routed(elementCd, windMode, Converted(elementCd, units, s)))
    ensures remoteData' ==
      if pos >= 0 && s[pos].Some? then remoteData[elementCd := Some(ConvertSample(elementCd, units, s[pos].value))]
      else remoteData
  {
    remoteData', windSpeedValues', windGustSpeedValues', windDirectionValues', hn24Values' :=
      remoteData, windSpeedValues, windGustSpeedValues, windDirectionValues, hn24Values;
    var idx := 0;
    ghost var start := Lists(windSpeedValues, windGustSpeedValues, windDirectionValues, hn24Values);
    while idx < |s|
      invariant 0 <= idx <= |s|
      invariant Lists(windSpeedValues', windGustSpeedValues', windDirectionValues', hn24Values') ==
        Join(start, Routed(elementCd, windMode, Converted(elementCd, units, s[..idx])))
      invariant remoteData' ==
        if idx > pos && pos >= 0 && s[pos].Some?
        then remoteData[elementCd := Some(ConvertSample(elementCd, units, s[pos].value))]
        else remoteData
    {
      ConvertedStep(elementCd, units, s, idx);
      var val := s[idx];
      if val.Some? {
        var v := ConvertValue(elementCd, units, val.value);
        RoutedStep(elementCd, windMode, start, Converted(elementCd, units, s[..idx]), v);
        windSpeedValues', windGustSpeedValues', windDirectionValues', hn24Values' :=
          CollectSample(elementCd, windMode, v, windSpeedValues', windGustSpeedValues', windDirectionValues', hn24Values');
        if idx == pos {
          remoteData' := remoteData'[elementCd := Some(v)];
        }
      }
      idx := idx + 1;
    }
    assert s[..idx] == s;
  }

  /** One pass of the outer loop of `get_mesowest_data`: scans the element's series when
      the response has one, and reports whether indexing its last position fails. */
  method ReduceElement(elementCd: string, observations: Observations, pos: int, units: UnitSystem, windMode: WindMode,
                       remoteData: map<string, Option<real>>, windSpeedValues: seq<real>, windGustSpeedValues: seq<real>,
                       windDirectionValues: seq<real>, hn24Values: seq<real>)
    returns (crashed: bool, remoteData': map<string, Option<real>>, windSpeedValues': seq<real>,
             windGustSpeedValues': seq<real>, windDirectionValues': seq<real>, hn24Values': seq<real>)
    requires WellFormed(observations)
    requires pos == observations.dateTimeCount - 1
    ensures crashed <==> pos < 0 && KeyName(elementCd) in observations.series
    ensures !crashed ==> remoteData' == remoteData[elementCd := PointValue(elementCd, observations, units)]
    ensures !crashed ==>
      Lists(windSpeedValues', windGustSpeedValues', windDirectionValues', hn24Values') ==
      Join(Lists(windSpeedValues, windGustSpeedValues, windDirectionValues, hn24Values),
           Routed(elementCd, windMode, SeriesValues(elementCd, observations, units)))
  {
    crashed := false;
    var keyName := elementCd + "_set_1";
    remoteData', windSpeedValues', windGustSpeedValues', windDirectionValues', hn24Values' :=
      remoteData, windSpeedValues, windGustSpeedValues, windDirectionValues, hn24Values;
    if keyName in observations.series {
      var s := observations.series[keyName];
      assert |s| == pos + 1;
      remoteData', windSpeedValues', windGustSpeedValues', windDirectionValues', hn24Values' :=
        ScanSeries(elementCd, s, pos, units, windMode,
                   remoteData, windSpeedValues, windGustSpeedValues, windDirectionValues, hn24Values);
      if pos < 0 {
        crashed := true;
        return;
      }
      // a None or zero last sample is not reported
      if !Truthy(s[pos]) {
        remoteData' := remoteData'[elementCd := None];
      }
    } else {
      remoteData' := remoteData'[elementCd := None];
    }
  }

  /** A request whose series is present with an empty `date_time` crashes the run. */
  lemma CrashAt(desired: seq<string>, obs: Observations, i: nat)
    requires i < |desired| && obs.dateTimeCount == 0 && KeyName(desired[i]) in obs.series
    ensures Crashes(desired, obs)
  {
    assert desired[i] in desired;
  }

  /** Without such a request the run does not crash. */
  lemma NoCrash(desired: seq<string>, obs: Observations)
    requires obs.dateTimeCount == 0 ==> forall k | 0 <= k < |desired| :: KeyName(desired[k]) !in obs.series
    ensures !Crashes(desired, obs)
  {
  }

  /** `Reduced` in terms of the lists the loop gathers. */
  lemma ReducedOfGathered(desired: seq<string>, obs: Observations, units: UnitSystem, windMode: WindMode)
    ensures var g := Gathered(windMode, desired, obs, units);
      Reduced(desired, obs, units, windMode) ==
      Override(Override(Override(Override(PointValues(desired, obs, units),
        "hn24", Hn24AsWritten(g.hn24)), "wind_speed", Mean(g.speed)),
        "wind_gust", Mean(g.gust)), "wind_direction", Mean(g.direction))
  {
  }

  /** Python's `get_mesowest_data` after the HTTP request: the observation arrays are the
      input, and the loops, conversions and derived values are those of the source. */
  method GetMesowestData(desiredData: seq<string>, observations: Observations, units: UnitSystem, windMode: WindMode)
    returns (r: Result<map<string, Option<real>>, Fault>)
    requires WellFormed(observations)
    ensures r.Failure? <==> Crashes(desiredData, observations)
    ensures r.Success? ==> r.value == Reduced(desiredData, observations, units, windMode)
  {
    // pos is the last position of every series, the most recent sample
    var pos: int := observations.dateTimeCount - 1;
    var windSpeedValues: seq<real> := [];
    var windGustSpeedValues: seq<real> := [];
    var windDirectionValues: seq<real> := [];
    var hn24Values: seq<real> := [];
    var remoteData: map<string, Option<real>> := map[];

    var i := 0;
    while i < |desiredData|
      invariant 0 <= i <= |desiredData|
      invariant remoteData == PointValues(desiredData[..i], observations, units)
      invariant Lists(windSpeedValues, windGustSpeedValues, windDirectionValues, hn24Values) ==
        Gathered(windMode, desiredData[..i], observations, units)
      invariant pos < 0 ==> forall k | 0 <= k < i :: KeyName(desiredData[k]) !in observations.series
    {
      var crashed;
      PrefixStep(desiredData, observations, units, i);
      GatheredStep(windMode, desiredData, observations, units, i);
      crashed, remoteData, windSpeedValues, windGustSpeedValues, windDirectionValues, hn24Values :=
        ReduceElement(desiredData[i], observations, pos, units, windMode,
                      remoteData, windSpeedValues, windGustSpeedValues, windDirectionValues, hn24Values);
      if crashed {
        CrashAt(desiredData, observations, i);
        return Failure(IndexError);
      }
      i := i + 1;
    }
    NoCrash(desiredData, observations);
    assert desiredData[..i] == desiredData;
    ReducedOfGathered(desiredData, observations, units, windMode);
    remoteData := MergeDerived(remoteData, hn24Values, windSpeedValues, windGustSpeedValues, windDirectionValues);
    return Success(remoteData);
  }

  /** The tail of `get_mesowest_data`: HN24 and the wind means computed from the collected
      lists, each overriding the point value when it exists. */
  method MergeDerived(remoteData: map<string, Option<real>>, hn24Values: seq<real>, windSpeedValues: seq<real>,
                      windGustSpeedValues: seq<real>, windDirectionValues: seq<real>)
    returns (merged: map<string, Option<real>>)
    ensures merged == Override(Override(Override(Override(remoteData,
      "hn24", Hn24AsWritten(hn24Values)), "wind_speed", Mean(windSpeedValues)),
      "wind_gust", Mean(windGustSpeedValues)), "wind_direction", Mean(windDirectionValues))
  {
    merged := remoteData;

    var hn24: Option<real> := None;
    if |hn24Values| > 0 {
      // first (oldest) minus last (newest); a negative change is clamped to zero
      var change := hn24Values[0] - hn24Values[|hn24Values| - 1];
      if change < 0.0 {
        change := 0.0;
      }
      hn24 := Some(change);
    }
    var windSpeedAvg: Option<real> := None;
    if |windSpeedValues| > 0 {
      windSpeedAvg := Some(Sum(windSpeedValues) / |windSpeedValues| as real);
    }
    var windGustSpeedAvg: Option<real> := None;
    if |windGustSpeedValues| > 0 {
      windGustSpeedAvg := Some(Sum(windGustSpeedValues) / |windGustSpeedValues| as real);
    }
    var windDirectionAvg: Option<real> := None;
    if |windDirectionValues| > 0 {
      windDirectionAvg := Some(Sum(windDirectionValues) / |windDirectionValues| as real);
    }

    if hn24.Some? {
      merged := merged["hn24" := hn24];
    }
    if windSpeedAvg.Some? {
      merged := merged["wind_speed" := windSpeedAvg];
    }
    if windGustSpeedAvg.Some? {
      merged := merged["wind_gust" := windGustSpeedAvg];
    }
    if windDirectionAvg.Some? {
      merged := merged["wind_direction" := windDirectionAvg];
    }
  }
}
