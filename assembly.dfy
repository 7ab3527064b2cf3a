/** The assembly step of `main`: the four identity cells of the record are filled in,
    then every reported value is converted, rounded and written into the column of
    the InfoEx field its provider code feeds. */
module Assembly {
  import opened Wrappers
  import opened Station
  import opened Layout
  import opened ProviderTables
  import opened Precision

  /** Column `i` once the codes in `done` have been visited: the final value of the code
      feeding it if that code has been visited and has a value, the old cell otherwise. */
  function Written(base: seq<Cell>, provider: Provider, units: UnitSystem, wxData: map<string, Option<real>>,
                   done: set<string>, i: nat): Cell
    requires |base| == FieldCount && i < FieldCount
  {
    var src := ColumnSource(provider, i);
    if src.Some? && src.value in done && src.value in wxData && wxData[src.value].Some?
    then FinalValue(provider, units, src.value, wxData[src.value].value)
    else base[i]
  }

  /** The record once the identity cells are written and the keys in `done` visited. */
  function RecordAfter(base: seq<Cell>, provider: Provider, units: UnitSystem, locationUuid: string,
                       obDate: string, obTime: string, zone: string,
                       wxData: map<string, Option<real>>, done: set<string>): (r: seq<Cell>)
    requires |base| == FieldCount
    ensures |r| == FieldCount
  {
    seq(FieldCount, i requires 0 <= i < FieldCount =>
      if i == 0 then Str(locationUuid)
      else if i == 1 then Str(obDate)
      else if i == 2 then Str(obTime)
      else if i == 3 then Str(zone)
      else Written(base, provider, units, wxData, done, i))
  }

  /** The record `main` hands to the CSV writer: location, date, time and zone in the
      first four columns, each mapped reported value in its field's column, and every
      other cell as it was. */
  function AssembledRecord(base: seq<Cell>, provider: Provider, units: UnitSystem, locationUuid: string,
                           obDate: string, obTime: string, zone: string,
                           wxData: map<string, Option<real>>): (r: seq<Cell>)
    requires |base| == FieldCount
    ensures |r| == FieldCount
  {
    RecordAfter(base, provider, units, locationUuid, obDate, obTime, zone, wxData, wxData.Keys)
  }

  /** A mapped code feeds exactly one column, a measurement column. */
  lemma ColumnOfCode(provider: Provider, code: string)
    requires code in Counterparts(provider)
    ensures 4 <= Column(Counterparts(provider)[code]) < FieldCount
    ensures ColumnSource(provider, Column(Counterparts(provider)[code])) == Some(code)
    ensures forall i | i != Column(Counterparts(provider)[code]) :: ColumnSource(provider, i) != Some(code)
  {
    SourceOfTarget(provider);
    TargetOfSource(provider);
    SourceColumns(provider);
  }

  /** A code missing from the table feeds no column. */
  lemma UnmappedCode(provider: Provider, code: string)
    requires code !in Counterparts(provider)
    ensures forall i :: ColumnSource(provider, i) != Some(code)
  {
    TargetOfSource(provider);
  }

  /** `fmap` sends each field to its column, and `iemap` and `ColumnSource` read the
      same provider table forwards and backwards. */
  ghost predicate Tables(fmap: map<Field, nat>, iemap: map<string, Field>, provider: Provider) {
    && (forall f :: f in fmap && fmap[f] == Column(f))
    && (forall code | code in iemap :: ColumnSource(provider, Column(iemap[code])) == Some(code))
    && (forall column | ColumnSource(provider, column).Some? ::
          ColumnSource(provider, column).value in iemap &&
          Column(iemap[ColumnSource(provider, column).value]) == column)
  }

  /** The tables `main` sets up are consistent. */
  lemma TablesOfProvider(provider: Provider)
    ensures Tables(FieldMap, Counterparts(provider), provider)
  {
    FieldMapColumns();
    SourceOfTarget(provider);
    TargetOfSource(provider);
  }

  /** Before any key is visited only the identity cells differ from the base record. */
  lemma NothingVisited(base: seq<Cell>, provider: Provider, units: UnitSystem, locationUuid: string,
                       obDate: string, obTime: string, zone: string, wxData: map<string, Option<real>>)
    requires |base| == FieldCount
    ensures RecordAfter(base, provider, units, locationUuid, obDate, obTime, zone, wxData, {}) ==
      base[0 := Str(locationUuid)][1 := Str(obDate)][2 := Str(obTime)][3 := Str(zone)]
  {
  }

  /** Visiting one more key changes at most the one column its code feeds. */
  lemma VisitStep(base: seq<Cell>, provider: Provider, units: UnitSystem, locationUuid: string,
                  obDate: string, obTime: string, zone: string, wxData: map<string, Option<real>>,
                  fmap: map<Field, nat>, iemap: map<string, Field>, done: set<string>, code: string)
    requires |base| == FieldCount && Tables(fmap, iemap, provider)
    requires code in wxData && code !in done
    ensures code in iemap ==> 4 <= Column(iemap[code]) < FieldCount
    ensures var before := RecordAfter(base, provider, units, locationUuid, obDate, obTime, zone, wxData, done);
      RecordAfter(base, provider, units, locationUuid, obDate, obTime, zone, wxData, done + {code}) ==
        if code in iemap && wxData[code].Some?
        then before[Column(iemap[code]) := FinalValue(provider, units, code, wxData[code].value)]
        else before
  {
    SourceColumns(provider);
    if code in iemap && wxData[code].Some? {
      VisitWrites(base, provider, units, locationUuid, obDate, obTime, zone, wxData, fmap, iemap, done, code);
    } else {
      VisitSkips(base, provider, units, locationUuid, obDate, obTime, zone, wxData, fmap, iemap, done, code);
    }
  }

  lemma VisitWrites(base: seq<Cell>, provider: Provider, units: UnitSystem, locationUuid: string,
                    obDate: string, obTime: string, zone: string, wxData: map<string, Option<real>>,
                    fmap: map<Field, nat>, iemap: map<string, Field>, done: set<string>, code: string)
    requires |base| == FieldCount && Tables(fmap, iemap, provider)
    requires code in wxData && code !in done && code in iemap && wxData[code].Some?
    requires 4 <= Column(iemap[code]) < FieldCount
    ensures RecordAfter(base, provider, units, locationUuid, obDate, obTime, zone, wxData, done + {code}) ==
      RecordAfter(base, provider, units, locationUuid, obDate, obTime, zone, wxData, done)
        [Column(iemap[code]) := FinalValue(provider, units, code, wxData[code].value)]
  {
    var before := RecordAfter(base, provider, units, locationUuid, obDate, obTime, zone, wxData, done);
    var after := RecordAfter(base, provider, units, locationUuid, obDate, obTime, zone, wxData, done + {code});
    var j := Column(iemap[code]);
    forall i | 0 <= i < FieldCount
      ensures after[i] == before[j := FinalValue(provider, units, code, wxData[code].value)][i]
    {
      if i == j {
        assert ColumnSource(provider, i) == Some(code);
      }
    }
  }

  lemma VisitSkips(base: seq<Cell>, provider: Provider, units: UnitSystem, locationUuid: string,
                   obDate: string, obTime: string, zone: string, wxData: map<string, Option<real>>,
                   fmap: map<Field, nat>, iemap: map<string, Field>, done: set<string>, code: string)
    requires |base| == FieldCount && Tables(fmap, iemap, provider)
    requires code in wxData && code !in done && (code !in iemap || wxData[code].None?)
    ensures RecordAfter(base, provider, units, locationUuid, obDate, obTime, zone, wxData, done + {code}) ==
      RecordAfter(base, provider, units, locationUuid, obDate, obTime, zone, wxData, done)
  {
    var before := RecordAfter(base, provider, units, locationUuid, obDate, obTime, zone, wxData, done);
    var after := RecordAfter(base, provider, units, locationUuid, obDate, obTime, zone, wxData, done + {code});
    forall i | 0 <= i < FieldCount
      ensures after[i] == before[i]
    {
    }
  }

  /** The number a cell holds; Python's `round(x)` yields an int, the others a float. */
  function NumberOf(cell: Cell, otherwise: real): real {
    match cell
    case Int(i) => i as real
    case Num(x) => x
    case _ => otherwise
  }

  /** `wx_data` once the keys in `done` have been visited: the loop stores each converted
      and rounded value of a code in `iemap` back under its key. */
  function WxAfter(iemap: map<string, Field>, provider: Provider, units: UnitSystem,
                   wxData: map<string, Option<real>>, done: set<string>): (m: map<string, Option<real>>)
    ensures m.Keys == wxData.Keys
  {
    map code | code in wxData ::
      if code in done && code in iemap && wxData[code].Some?
      then Some(NumberOf(FinalValue(provider, units, code, wxData[code].value), wxData[code].value))
      else wxData[code]
  }

  /** Before any key is visited `wx_data` is as the provider reported it. */
  lemma NothingStored(iemap: map<string, Field>, provider: Provider, units: UnitSystem,
                      wxData: map<string, Option<real>>)
    ensures WxAfter(iemap, provider, units, wxData, {}) == wxData
  {
  }

  /** Visiting one more key stores at most that key's massaged value. */
  lemma WxStep(iemap: map<string, Field>, provider: Provider, units: UnitSystem,
               wxData: map<string, Option<real>>, done: set<string>, code: string)
    requires code in wxData && code !in done
    ensures WxAfter(iemap, provider, units, wxData, done)[code] == wxData[code]
    ensures WxAfter(iemap, provider, units, wxData, done + {code}) ==
      if code in iemap && wxData[code].Some?
      then WxAfter(iemap, provider, units, wxData, done)[code :=
             Some(NumberOf(FinalValue(provider, units, code, wxData[code].value), wxData[code].value))]
      else WxAfter(iemap, provider, units, wxData, done)
  {
  }

  /** The body of the assembly loop for a present value: the NRCS metric conversion,
      then the rounding its code's list asks for. */
  method MassageValue(provider: Provider, units: UnitSystem, elementCd: string, value: real) returns (cell: Cell)
    ensures cell == FinalValue(provider, units, elementCd, value)
  {
    // the conversion comes before the rounding
    var v := value;
    if provider == Nrcs && units == Metric {
      v := ConvertNrcsUnitsToMetric(elementCd, v);
    }
    if elementCd in WholeCodes {
      cell := Int(RoundHalfEven(v));
    } else if elementCd in TenthsCodes {
      cell := Num(RoundTenths(v));
    } else if elementCd in HundredthsCodes {
      cell := Num(RoundHundredths(v));
    } else {
      cell := Num(v);
    }
  }

  /** The record and `wx_data` once the keys in `done` have been visited. */
  ghost predicate Visited(r: seq<Cell>, wx: map<string, Option<real>>, finalData: seq<Cell>,
                          iemap: map<string, Field>,
                          wxData: map<string, Option<real>>, provider: Provider, units: UnitSystem,
                          locationUuid: string, obDate: string, obTime: string, zone: string,
                          done: set<string>)
    requires |finalData| == FieldCount
  {
    && r == RecordAfter(finalData, provider, units, locationUuid, obDate, obTime, zone, wxData, done)
    && wx == WxAfter(iemap, provider, units, wxData, done)
  }

  /** One pass of the assembly loop: the key's value, when its code is known and it is
      not `None`, is massaged, written to its code's column and stored back in `wx_data`. */
  method VisitKey(r: seq<Cell>, wx: map<string, Option<real>>, finalData: seq<Cell>,
                  fmap: map<Field, nat>, iemap: map<string, Field>,
                  wxData: map<string, Option<real>>, provider: Provider, units: UnitSystem,
                  locationUuid: string, obDate: string, obTime: string, zone: string,
                  ghost done: set<string>, elementCd: string)
    returns (r': seq<Cell>, wx': map<string, Option<real>>)
    requires |finalData| == FieldCount
    requires Tables(fmap, iemap, provider)
    requires elementCd in wxData && elementCd !in done
    requires Visited(r, wx, finalData, iemap, wxData, provider, units, locationUuid, obDate, obTime, zone, done)
    ensures Visited(r', wx', finalData, iemap, wxData, provider, units, locationUuid, obDate, obTime, zone,
                    done + {elementCd})
  {
    VisitStep(finalData, provider, units, locationUuid, obDate, obTime, zone, wxData, fmap, iemap, done, elementCd);
    WxStep(iemap, provider, units, wxData, done, elementCd);
    r', wx' := r, wx;
    if elementCd !in iemap {
      // an unknown key is reported and skipped
      return;
    }
    var value := wx[elementCd];
    if value.None? {
      return;
    }
    var cell := MassageValue(provider, units, elementCd, value.value);
    wx' := wx[elementCd := Some(NumberOf(cell, value.value))];
    r' := r[fmap[iemap[elementCd]] := cell];
  }

  /** Two maps over the same keys have the same size. */
  lemma SameKeysSameSize(a: map<string, Option<real>>, b: map<string, Option<real>>)
    requires a.Keys == b.Keys
    ensures |a| == |b|
  {
    assert |a| == |a.Keys| && |b| == |b.Keys|;
  }

  /** The four identity cells: location, date, time and zone. */
  method WriteIdentity(finalData: seq<Cell>, fmap: map<Field, nat>,
                       locationUuid: string, obDate: string, obTime: string, zone: string)
    returns (r: seq<Cell>)
    requires |finalData| == FieldCount && forall f :: f in fmap && fmap[f] == Column(f)
    ensures r == finalData[0 := Str(locationUuid)][1 := Str(obDate)][2 := Str(obTime)][3 := Str(zone)]
  {
    r := finalData;
    r := r[fmap[LocationUuid] := Str(locationUuid)];
    r := r[fmap[ObDate] := Str(obDate)];
    r := r[fmap[ObTime] := Str(obTime)];
    r := r[fmap[TimeZone] := Str(zone)];
  }

  /** The assembly of `main` from `final_data[fmap['Location UUID']] = ...` to the end
      of the loop over `wx_data`; the keys are visited in an arbitrary order. */
  method AssembleRecord(finalData: seq<Cell>, fmap: map<Field, nat>, iemap: map<string, Field>,
                        wxData: map<string, Option<real>>, provider: Provider, units: UnitSystem,
                        locationUuid: string, obDate: string, obTime: string, zone: string)
    returns (r: seq<Cell>, wxOut: map<string, Option<real>>)
    requires |finalData| == FieldCount
    requires Tables(fmap, iemap, provider)
    ensures r == AssembledRecord(finalData, provider, units, locationUuid, obDate, obTime, zone, wxData)
    ensures wxOut == WxAfter(iemap, provider, units, wxData, wxData.Keys)
    ensures |wxOut| == |wxData|
  {
    r := WriteIdentity(finalData, fmap, locationUuid, obDate, obTime, zone);
    NothingVisited(finalData, provider, units, locationUuid, obDate, obTime, zone, wxData);

    wxOut := wxData;
    NothingStored(iemap, provider, units, wxData);
    var remaining := wxData.Keys;
    ghost var done: set<string> := {};
    while remaining != {}
      invariant remaining + done == wxData.Keys && remaining !! done
      invariant Visited(r, wxOut, finalData, iemap, wxData, provider, units, locationUuid, obDate, obTime, zone, done)
      decreases remaining
    {
      var elementCd :| elementCd in remaining;
      r, wxOut := VisitKey(r, wxOut, finalData, fmap, iemap, wxData, provider, units,
                           locationUuid, obDate, obTime, zone, done, elementCd);
      remaining := remaining - {elementCd};
      done := done + {elementCd};
    }
    assert done == wxData.Keys;
    SameKeysSameSize(wxOut, wxData);
  }

  /** Each reported value lands in the column of the field its code feeds. */
  lemma ValueLandsInItsColumn(base: seq<Cell>, provider: Provider, units: UnitSystem, locationUuid: string,
                              obDate: string, obTime: string, zone: string,
                              wxData: map<string, Option<real>>, code: string)
    requires |base| == FieldCount
    requires code in Counterparts(provider) && code in wxData && wxData[code].Some?
    ensures var j := Column(Counterparts(provider)[code]);
      AssembledRecord(base, provider, units, locationUuid, obDate, obTime, zone, wxData)[j] ==
      FinalValue(provider, units, code, wxData[code].value)
  {
    ColumnOfCode(provider, code);
  }

  /** The assembly writes only the identity columns and the columns of fields its
      provider feeds; the unit labels in particular are never touched. */
  lemma AssemblyFrame(base: seq<Cell>, provider: Provider, units: UnitSystem, locationUuid: string,
                      obDate: string, obTime: string, zone: string, wxData: map<string, Option<real>>)
    requires |base| == FieldCount
    ensures var r := AssembledRecord(base, provider, units, locationUuid, obDate, obTime, zone, wxData);
      forall i | 4 <= i < FieldCount && ColumnSource(provider, i).None? :: r[i] == base[i]
    ensures var r := AssembledRecord(base, provider, units, locationUuid, obDate, obTime, zone, wxData);
      forall i | 0 <= i < FieldCount && ImperialLabel(i).Some? :: r[i] == base[i]
  {
    SourceColumns(provider);
  }

  /** Keys outside the provider's table, and keys reported as `None`, leave the record
      as it would be without them. */
  lemma IgnoredKeys(base: seq<Cell>, provider: Provider, units: UnitSystem, locationUuid: string,
                    obDate: string, obTime: string, zone: string,
                    wxData: map<string, Option<real>>, code: string, v: Option<real>)
    requires |base| == FieldCount
    requires code !in wxData
    requires code !in Counterparts(provider) || v.None?
    ensures AssembledRecord(base, provider, units, locationUuid, obDate, obTime, zone, wxData[code := v]) ==
      AssembledRecord(base, provider, units, locationUuid, obDate, obTime, zone, wxData)
  {
    if code !in Counterparts(provider) {
      UnmappedCode(provider, code);
    }
    UnreadKey(base, provider, units, locationUuid, obDate, obTime, zone, wxData, code, v);
  }

  /** A key whose value no column reads leaves the record as it would be without it. */
  lemma UnreadKey(base: seq<Cell>, provider: Provider, units: UnitSystem, locationUuid: string,
                  obDate: string, obTime: string, zone: string,
                  wxData: map<string, Option<real>>, code: string, v: Option<real>)
    requires |base| == FieldCount
    requires code !in wxData
    requires forall i | ColumnSource(provider, i) == Some(code) :: v.None?
    ensures AssembledRecord(base, provider, units, locationUuid, obDate, obTime, zone, wxData[code := v]) ==
      AssembledRecord(base, provider, units, locationUuid, obDate, obTime, zone, wxData)
  {
    var r1 := AssembledRecord(base, provider, units, locationUuid, obDate, obTime, zone, wxData[code := v]);
    var r2 := AssembledRecord(base, provider, units, locationUuid, obDate, obTime, zone, wxData);
    forall i | 4 <= i < FieldCount
      ensures r1[i] == r2[i]
    {
    }
  }

  /** The custom-provider example program reports all ten fields as `None`: the record
      then differs from the default one only in its date, time and zone. */
  lemma CustomExampleRecord(locationUuid: string, obDate: string, obTime: string, zone: string)
    ensures var wx := map k | k in CustomExampleKeys :: None;
      var r := AssembledRecord(DefaultRecord(locationUuid), Python, English, locationUuid, obDate, obTime, zone, wx);
      r == DefaultRecord(locationUuid)[1 := Str(obDate)][2 := Str(obTime)][3 := Str(zone)]
  {
    var wx: map<string, Option<real>> := map k | k in CustomExampleKeys :: None;
    var base := DefaultRecord(locationUuid);
    var r := AssembledRecord(base, Python, English, locationUuid, obDate, obTime, zone, wx);
    forall i | 4 <= i < FieldCount
      ensures r[i] == base[i]
    {
    }
    assert r == base[1 := Str(obDate)][2 := Str(obTime)][3 := Str(zone)];
  }
}
