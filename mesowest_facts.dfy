/** What `get_mesowest_data` returns, element by element: the last truthy sample of every
    requested series, HN24 from the snow-depth samples, and the wind means in `average`
    mode, whatever the order and repetition of the requested elements. */
module MesowestFacts {
  import opened Wrappers
  import opened Station
  import opened Mesowest

  /** How often `target` occurs in the requested list. */
  function Count(desired: seq<string>, target: string): (n: nat)
    ensures n <= |desired|
  {
    if desired == [] then 0
    else
      var last := |desired| - 1;
      Count(desired[..last], target) + (if desired[last] == target then 1 else 0)
  }

  /** `k` copies of `xs`, one after the other. */
  function Repeat(xs: seq<real>, k: nat): (r: seq<real>)
    ensures |r| == k * |xs|
  {
    if k == 0 then [] else Repeat(xs, k - 1) + xs
  }

  /** The converted samples of `target`'s series when it is requested at all. */
  function Requested(desired: seq<string>, target: string, obs: Observations, units: UnitSystem): seq<real> {
    if target in desired && KeyName(target) in obs.series
    then Converted(target, units, obs.series[KeyName(target)]) else []
  }

  lemma {:induction false} CountPositive(desired: seq<string>, target: string)
    ensures Count(desired, target) > 0 <==> target in desired
  {
    if desired != [] {
      var last := |desired| - 1;
      CountPositive(desired[..last], target);
      assert desired == desired[..last] + [desired[last]];
    }
  }

  /** Requesting `target` k times makes the loop collect its samples k times. */
  lemma {:induction false} CollectedIsRepeat(desired: seq<string>, target: string, obs: Observations, units: UnitSystem)
    ensures Collected(desired, target, obs, units) ==
      if KeyName(target) in obs.series
      then Repeat(Converted(target, units, obs.series[KeyName(target)]), Count(desired, target))
      else []
  {
    if desired != [] {
      var n := |desired| - 1;
      CollectedIsRepeat(desired[..n], target, obs, units);
      if desired[n] == target && KeyName(target) in obs.series {
        var xs := Converted(target, units, obs.series[KeyName(target)]);
        assert Repeat(xs, Count(desired, target)) == Repeat(xs, Count(desired[..n], target)) + xs;
      }
    }
  }

  lemma {:induction false} SumAppend(a: seq<real>, b: seq<real>)
    ensures Sum(a + b) == Sum(a) + Sum(b)
  {
    if b != [] {
      var last := |b| - 1;
      assert (a + b)[..|a + b| - 1] == a + b[..last];
      assert (a + b)[|a + b| - 1] == b[last];
      SumAppend(a, b[..last]);
      calc {
        Sum(a + b);
        Sum(a + b[..last]) + b[last];
        Sum(a) + Sum(b[..last]) + b[last];
        Sum(a) + Sum(b);
      }
    } else {
      assert a + b == a;
    }
  }

  /** Joining a list to one with the same mean keeps that mean. */
  lemma MeanCombine(sa: real, na: real, sb: real, nb: real)
    requires na > 0.0 && nb > 0.0 && sa / na == sb / nb
    ensures (sa + sb) / (na + nb) == sb / nb
  {
    var q := sb / nb;
    assert q * nb == sb;
    assert q * na == sa;
    assert q * (na + nb) == sa + sb;
  }

  /** Averaging k copies of a list gives that list's mean. */
  lemma {:induction false} MeanRepeat(xs: seq<real>, k: nat)
    requires k > 0
    ensures Mean(Repeat(xs, k)) == Mean(xs)
  {
    if |xs| == 0 {
      assert Repeat(xs, k) == [];
    } else if k == 1 {
      assert Repeat(xs, 1) == [] + xs;
      assert [] + xs == xs;
    } else {
      var a := Repeat(xs, k - 1);
      MeanRepeat(xs, k - 1);
      assert Repeat(xs, k) == a + xs;
      SumAppend(a, xs);
      assert |a| > 0 by {
        assert a == Repeat(xs, k - 2) + xs;
      }
      MeanCombine(Sum(a), |a| as real, Sum(xs), |xs| as real);
    }
  }

  lemma {:induction false} RepeatEnds(xs: seq<real>, k: nat)
    requires k > 0 && |xs| > 0
    ensures Repeat(xs, k)[0] == xs[0]
    ensures Repeat(xs, k)[|Repeat(xs, k)| - 1] == xs[|xs| - 1]
  {
    if k > 1 {
      RepeatEnds(xs, k - 1);
    }
  }

  /** HN24 of k copies of a list is HN24 of that list: the first and last samples agree. */
  lemma Hn24Repeat(xs: seq<real>, k: nat)
    requires k > 0
    ensures Hn24AsWritten(Repeat(xs, k)) == Hn24AsWritten(xs)
    ensures Hn24(Repeat(xs, k)) == Hn24(xs)
  {
    if |xs| > 0 {
      RepeatEnds(xs, k);
    }
  }

  /** The derived values only see which elements are requested, not how often. */
  lemma DerivedFromRequested(desired: seq<string>, target: string, obs: Observations, units: UnitSystem)
    ensures Hn24AsWritten(Collected(desired, target, obs, units)) == Hn24AsWritten(Requested(desired, target, obs, units))
    ensures Mean(Collected(desired, target, obs, units)) == Mean(Requested(desired, target, obs, units))
  {
    CollectedIsRepeat(desired, target, obs, units);
    CountPositive(desired, target);
    if target in desired && KeyName(target) in obs.series {
      var xs := Converted(target, units, obs.series[KeyName(target)]);
      Hn24Repeat(xs, Count(desired, target));
      MeanRepeat(xs, Count(desired, target));
    }
  }

  /** The point values: exactly the requested elements, each with its own last value. */
  lemma {:induction false} PointValuesLookup(desired: seq<string>, obs: Observations, units: UnitSystem)
    ensures forall code :: code in PointValues(desired, obs, units) <==> code in desired
    ensures forall code | code in desired :: PointValues(desired, obs, units)[code] == PointValue(code, obs, units)
  {
    if desired != [] {
      var last := |desired| - 1;
      PointValuesLookup(desired[..last], obs, units);
      assert desired == desired[..last] + [desired[last]];
    }
  }

  lemma OverrideOther(m: map<string, Option<real>>, key: string, v: Option<real>, code: string)
    requires code != key
    ensures code in Override(m, key, v) <==> code in m
    ensures code in m ==> Override(m, key, v)[code] == m[code]
  {
  }

  /** The elements whose reported value may be a derived one. */
  predicate Derived(code: string) {
    code == "hn24" || code == "wind_speed" || code == "wind_gust" || code == "wind_direction"
  }

  /** HN24 is stored whenever snow depth is requested and has a non-null sample: the
      first (oldest) converted sample minus the last (newest), clamped at zero, so that a
      rising depth reports zero. Otherwise `hn24` is an
      ordinary element, present only when requested. */
  lemma ReducedHn24(desired: seq<string>, obs: Observations, units: UnitSystem, windMode: WindMode)
    ensures var snow := Requested(desired, "snow_depth", obs, units);
      var r := Reduced(desired, obs, units, windMode);
      if |snow| > 0 then
        "hn24" in r && r["hn24"].Some? && r["hn24"].value >= 0.0 &&
        (r["hn24"].value == 0.0 || r["hn24"].value == snow[0] - snow[|snow| - 1]) &&
        r["hn24"].value >= snow[0] - snow[|snow| - 1]
      else
        ("hn24" in r <==> "hn24" in desired) &&
        ("hn24" in desired ==> r["hn24"] == PointValue("hn24", obs, units))
  {
    DerivedFromRequested(desired, "snow_depth", obs, units);
    PointValuesLookup(desired, obs, units);
    var m1 := Override(PointValues(desired, obs, units), "hn24", Hn24AsWritten(Collected(desired, "snow_depth", obs, units)));
    var m2 := Override(m1, "wind_speed", Mean(Averaged(windMode, desired, "wind_speed", obs, units)));
    var m3 := Override(m2, "wind_gust", Mean(Averaged(windMode, desired, "wind_gust", obs, units)));
    OverrideOther(m1, "wind_speed", Mean(Averaged(windMode, desired, "wind_speed", obs, units)), "hn24");
    OverrideOther(m2, "wind_gust", Mean(Averaged(windMode, desired, "wind_gust", obs, units)), "hn24");
    OverrideOther(m3, "wind_direction", Mean(Averaged(windMode, desired, "wind_direction", obs, units)), "hn24");
  }

  /** In `average` mode a requested wind element with non-null samples reports the mean of
      its converted samples; otherwise it keeps its last value. */
  lemma ReducedWind(desired: seq<string>, obs: Observations, units: UnitSystem, windMode: WindMode, target: string)
    requires target == "wind_speed" || target == "wind_gust" || target == "wind_direction"
    ensures var avg := if windMode == Average then Mean(Requested(desired, target, obs, units)) else None;
      var r := Reduced(desired, obs, units, windMode);
      if avg.Some? then target in r && r[target] == avg
      else (target in r <==> target in desired) &&
           (target in desired ==> r[target] == PointValue(target, obs, units))
  {
    DerivedFromRequested(desired, target, obs, units);
    PointValuesLookup(desired, obs, units);
    var hn24 := Hn24AsWritten(Collected(desired, "snow_depth", obs, units));
    var speed := Mean(Averaged(windMode, desired, "wind_speed", obs, units));
    var gust := Mean(Averaged(windMode, desired, "wind_gust", obs, units));
    var direction := Mean(Averaged(windMode, desired, "wind_direction", obs, units));
    var m0 := PointValues(desired, obs, units);
    var m1 := Override(m0, "hn24", hn24);
    var m2 := Override(m1, "wind_speed", speed);
    var m3 := Override(m2, "wind_gust", gust);
    OverrideOther(m0, "hn24", hn24, target);
    if target == "wind_speed" {
      OverrideOther(m2, "wind_gust", gust, target);
      OverrideOther(m3, "wind_direction", direction, target);
    } else if target == "wind_gust" {
      OverrideOther(m1, "wind_speed", speed, target);
      OverrideOther(m3, "wind_direction", direction, target);
    } else {
      OverrideOther(m1, "wind_speed", speed, target);
      OverrideOther(m2, "wind_gust", gust, target);
    }
  }

  /** Every other element reports the last sample of its own series, or None. */
  lemma ReducedOrdinary(desired: seq<string>, obs: Observations, units: UnitSystem, windMode: WindMode, code: string)
    requires !Derived(code)
    ensures var r := Reduced(desired, obs, units, windMode);
      (code in r <==> code in desired) &&
      (code in desired ==> r[code] == PointValue(code, obs, units))
  {
    PointValuesLookup(desired, obs, units);
  }

  /** The keys of the result: the requested elements, plus `hn24` when it was derived. */
  lemma ReducedKeys(desired: seq<string>, obs: Observations, units: UnitSystem, windMode: WindMode)
    ensures Reduced(desired, obs, units, windMode).Keys ==
      (set code | code in desired) +
      (if |Requested(desired, "snow_depth", obs, units)| > 0 then {"hn24"} else {})
  {
    PointValuesLookup(desired, obs, units);
    DerivedFromRequested(desired, "snow_depth", obs, units);
    var requested := set code | code in desired;
    var m0 := PointValues(desired, obs, units);
    assert m0.Keys == requested;
    var hn24 := Hn24AsWritten(Collected(desired, "snow_depth", obs, units));
    var m1 := Override(m0, "hn24", hn24);
    assert m1.Keys == requested + (if hn24.Some? then {"hn24"} else {});
    var m2 := WindOverride(m1, desired, obs, units, windMode, "wind_speed");
    var m3 := WindOverride(m2, desired, obs, units, windMode, "wind_gust");
    var m4 := WindOverride(m3, desired, obs, units, windMode, "wind_direction");
  }

  /** A wind mean only overrides an element that was requested. */
  lemma WindOverride(m: map<string, Option<real>>, desired: seq<string>, obs: Observations, units: UnitSystem,
                     windMode: WindMode, target: string)
    returns (m': map<string, Option<real>>)
    requires target in desired ==> target in m
    ensures m' == Override(m, target, Mean(Averaged(windMode, desired, target, obs, units)))
    ensures m'.Keys == m.Keys
  {
    DerivedFromRequested(desired, target, obs, units);
    m' := Override(m, target, Mean(Averaged(windMode, desired, target, obs, units)));
  }

  lemma {:induction false} SumBounds(values: seq<real>, lo: real, hi: real)
    requires forall k | 0 <= k < |values| :: lo <= values[k] <= hi
    ensures |values| as real * lo <= Sum(values) <= |values| as real * hi
  {
    if values != [] {
      SumBounds(values[..|values| - 1], lo, hi);
    }
  }

  /** A wind mean lies between the smallest and the largest sample averaged. */
  lemma MeanWithin(values: seq<real>, lo: real, hi: real)
    requires forall k | 0 <= k < |values| :: lo <= values[k] <= hi
    ensures Mean(values).Some? ==> lo <= Mean(values).value <= hi
  {
    if |values| > 0 {
      SumBounds(values, lo, hi);
      var n := |values| as real;
      assert Sum(values) / n >= lo by {
        assert Sum(values) >= n * lo;
      }
      assert Sum(values) / n <= hi by {
        assert Sum(values) <= n * hi;
      }
    }
  }

  /** Worked values: a rising depth, a falling depth, a mean, and nulls skipped. */
  lemma Examples()
    ensures Hn24AsWritten([10.0, 10.5, 11.2]) == Some(0.0)
    ensures Hn24AsWritten([12.0, 11.0, 9.0]) == Some(3.0)
    ensures Mean([4.0, 6.0, 8.0]) == Some(6.0)
    ensures Converted("air_temp", English, [Some(1.5), None, Some(-3.0)]) == [1.5, -3.0]
  {
    assert [4.0, 6.0, 8.0][..2] == [4.0, 6.0];
    assert [4.0, 6.0][..1] == [4.0];
    assert [4.0][..0] == [];
    assert Sum([4.0]) == 4.0;
    assert Sum([4.0, 6.0]) == 10.0;
    assert Sum([4.0, 6.0, 8.0]) == 18.0;
    var s := [Some(1.5), None, Some(-3.0)];
    assert s[..2] == [Some(1.5), None];
    assert s[..2][..1] == [Some(1.5)];
    assert [Some(1.5)][..0] == [];
  }
}
