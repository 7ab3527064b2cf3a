# InfoEx auto-weather pipeline and CAIC forecast collector, in Dafny

This project models two scripts of the ksp-av repository and proves what they compute.

**`InfoEx/infoex-autowx.py`** fetches weather observations for one station and turns them into the 29-column CSV record that InfoEx accepts as an automatic weather observation. The sources are:
- an NRCS SOAP service;
- the MesoWest/Synoptic REST API;
- a custom Python program that returns a dictionary.

The model covers everything between the validated configuration and the file write:
- the field table `fmap` and the default record `final_data`;
- the metric relabelling of the unit cells;
- the request window;
- the per-provider counterpart table `iemap`;
- the two provider reductions: NRCS keeps the latest sample, while MesoWest keeps the last truthy sample and derives HN24 and optional wind means;
- the assembly loop, which converts NRCS values to metric when asked, rounds each value to the precision InfoEx expects and writes it into the column of its field;
- the decision to upload only when `wx_data` is non-empty.

**`caic_collect/caic_collect.py`** turns every CAIC avalanche forecast into one CSV row. The row holds:
- forecaster, issue time and title;
- a summary or message, with tags stripped and entities decoded;
- the confidence rating;
- three danger values per forecast day.

A forecast whose `confidence.days` list is empty raises `IndexError` and ends the script. The model therefore builds rows only up to that forecast.

## Modules

| module | file | role |
|---|---|---|
| `Wrappers` | `wrappers.dfy` | `Option` (Python's `None` versus a value) and `Result` |
| `Station` | `station.dfy` | the provider, unit system and wind mode a validated configuration selects |
| `Config` | `config.dfy` | provider and unit parsing; the HN24 and wind-mode checks; the hours to fetch |
| `Window` | `window.dfy` | `setup_time_values` on integer instants (microseconds) and a UTC offset |
| `Convert` | `convert.dfy` | the six scalar unit converters |
| `Layout` | `layout.dfy` | the `Field` enumeration, `fmap`, the default record, `switch_units_to_metric` |
| `ProviderTables` | `provider_tables.dfy` | the three `iemap` tables, and the same tables read backwards by column |
| `Precision` | `precision.dfy` | the precision classes, Python's `round`, `convert_nrcs_units_to_metric` |
| `Assembly` | `assembly.dfy` | the assembly loop of `main`, a specification by column, and its frame |
| `Nrcs` | `nrcs.dfy` | the reduction of `get_nrcs_data`: a stable newest-first sort and the head of the list |
| `Mesowest` | `mesowest.dfy` | the loops of `get_mesowest_data`, and the HN24 and wind means |
| `MesowestFacts` | `mesowest_facts.dfy` | what the MesoWest dictionary holds, element by element |
| `Pipeline` | `pipeline.dfy` | one run of `main`: dispatch, layout, assembly and the upload decision |
| `Caic` | `caic.dfy` | `clean_html`, `convert_danger_ratings` and the forecast loop |

**Record and tables**
- The record is a `seq<Cell>` of 29 cells. A cell is:
  - a string;
  - an integer (Python's `round(x)`);
  - a float;
  - `None`.
- The InfoEx field names are the `Field` enumeration:
  - `Name` gives the key as the script spells it;
  - `Column` gives the column `fmap` assigns.
- `ColumnSource(provider, column)` is the provider table read backwards. The assembly is specified through it, column by column. `Tables` states that `fmap`, `iemap` and `ColumnSource` agree. `TablesOfProvider` proves it for the tables `main` builds.

**Loops**
- The loops of `get_nrcs_data`, `get_mesowest_data`, `convert_danger_ratings`, the assembly and the forecast loop are imperative methods.
- Each is proved against a function of its inputs: `Stored`, `Reduced`, `DangerValues`, `AssembledRecord` and `WrittenRows`.
- The lemmas beside those functions state what the source promises.

## Model

| member | source | states |
|---|---|---|
| Config.ParseProvider | InfoEx/infoex-autowx.py:92-96 | a provider is accepted exactly when its type name is one of `nrcs`, `mesowest`, `python`, and it is the provider of that name |
| Config.ParseProviderName | InfoEx/infoex-autowx.py:94-96 | every provider's type name parses back to that provider |
| Config.ParseUnits | InfoEx/infoex-autowx.py:244 | metric behaviour is selected exactly by the string `metric` |
| Config.SetupTimeConfig | InfoEx/infoex-autowx.py:131-162 | fails exactly on an `hn24` outside `true`/`false` or a `wind_mode` outside `normal`/`average`, naming the option at fault; otherwise HN24 is on exactly for `true`, the mode is `average` exactly for `average`, and 24 hours are fetched exactly when either is on, 3 otherwise |
| Config.TimeConfigRoundTrip | InfoEx/infoex-autowx.py:131-162 | every HN24 flag and wind mode, written out as its option string, is read back unchanged; absent options give `false`, `normal` and 3 hours |
| Config.Hn24CheckedFirst | InfoEx/infoex-autowx.py:138-154 | with both options invalid, the error reported is the HN24 one |
| Window.RequestOffset | InfoEx/infoex-autowx.py:726-731 | NRCS requests use the station's UTC offset, and every other provider uses UTC (offset 0) |
| Window.SetupTimeValues | InfoEx/infoex-autowx.py:733-739 | the window ends on a whole hour of the chosen clock, at most an hour before now, and spans exactly the configured number of hours |
| Window.EndIsUnique | InfoEx/infoex-autowx.py:733-737 | that end is the only such instant |
| Window.WindowStableAndMonotone | InfoEx/infoex-autowx.py:733-739 | asking again at the end instant gives the same window, and a later clock never gives an earlier end |
| Convert.FToC | InfoEx/infoex-autowx.py:741-743 | the result is the temperature whose Fahrenheit reading is the input |
| Convert.InToCm | InfoEx/infoex-autowx.py:745-747 | 2.54 cm per inch |
| Convert.InToMm | InfoEx/infoex-autowx.py:749-751 | ten times the centimetres; 25.4 mm per inch |
| Convert.MsToMph | InfoEx/infoex-autowx.py:753-755 | factor 2.236936 |
| Convert.KnToMph | InfoEx/infoex-autowx.py:757-759 | factor 1.150779 |
| Convert.MmToCm | InfoEx/infoex-autowx.py:761-763 | ten millimetres per centimetre |
| Convert.ReferencePoints | InfoEx/infoex-autowx.py:741-763 | freezing and boiling points, −40 in both scales, one inch, one knot, one m/s |
| Convert.MmOfInchesToCm | InfoEx/infoex-autowx.py:745-751 | millimetres of a length brought back to centimetres are its centimetres |
| Convert.ConvertersMonotone | InfoEx/infoex-autowx.py:741-763 | every converter is strictly increasing |
| Layout.ColumnsOfFields | InfoEx/infoex-autowx.py:381-410 | the 29 fields occupy 29 distinct columns below 29 |
| Layout.FieldMapColumns | InfoEx/infoex-autowx.py:381-410 | `fmap` holds every field, at its column |
| Layout.UnitColumns | InfoEx/infoex-autowx.py:386-410 | the columns with a starting unit label are exactly those of the eleven `...Unit` fields |
| Layout.SetupFieldMap | InfoEx/infoex-autowx.py:381-410 | the assignments build exactly `fmap` |
| Layout.SetupFinalData | InfoEx/infoex-autowx.py:381-410 | the assignments build the default record: location in column 0, `Pacific` in column 3, imperial labels in the unit columns, `None` elsewhere |
| Layout.SetupFieldsMapping | InfoEx/infoex-autowx.py:365-412 | both results together |
| Layout.SwitchUnitsToMetric | InfoEx/infoex-autowx.py:671-687 | the record after the ten metric label assignments, looked up through `fmap`, every other cell unchanged |
| Layout.MetricRelabelColumns | InfoEx/infoex-autowx.py:676-685 | the relabelling touches exactly the unit columns except `baroUnit`, which keeps `inHg` |
| Layout.MetricRelabelIdempotent | InfoEx/infoex-autowx.py:671-687 | relabelling twice is relabelling once; on the default record it keeps `inHg` and every non-unit cell |
| ProviderTables.SourceOfTarget | InfoEx/infoex-autowx.py:414-461 | a code's column, read backwards, gives that code |
| ProviderTables.TargetOfSource | InfoEx/infoex-autowx.py:414-461 | a column's code, read forwards, gives that column |
| ProviderTables.CounterpartsInjective | InfoEx/infoex-autowx.py:414-461 | no two codes of one table write the same column, so the visiting order cannot matter |
| ProviderTables.SourceColumns | InfoEx/infoex-autowx.py:414-461 | every fed column is a measurement column: past the identity columns, inside the record, never a unit label |
| ProviderTables.CustomTableKeys | InfoEx/examples/custom-wx.example.py:7-16 | the custom table's keys are exactly the ten keys of the example program |
| ProviderTables.CustomTableIdentity | InfoEx/infoex-autowx.py:450-461 | the custom table sends every key to the field of that name |
| ProviderTables.ProviderTableShapes | InfoEx/infoex-autowx.py:421-448 | NRCS feeds no gust column, and only MesoWest feeds `hn24Auto`, from `hn24` |
| Precision.RoundHalfEven | InfoEx/infoex-autowx.py:332-333 | the nearest integer, within one half, the even one on a tie |
| Precision.RoundTenths | InfoEx/infoex-autowx.py:334-335 | a whole number of tenths within 0.05, the even number of tenths on a tie |
| Precision.RoundHundredths | InfoEx/infoex-autowx.py:336-337 | a whole number of hundredths within 0.005, the even number of hundredths on a tie |
| Precision.ConvertNrcsUnitsToMetric | InfoEx/infoex-autowx.py:689-697 | every code except `TOBS`, `SNWD` and `PREC` keeps its value |
| Precision.NrcsPrecisions | InfoEx/infoex-autowx.py:329-337 | the precision of every NRCS code; `TMAX` and `TMIN` are never rounded |
| Precision.MesoWestPrecisions | InfoEx/infoex-autowx.py:329-337 | the precision of every MesoWest code; the 24-hour high and low are never rounded |
| Precision.PythonPrecisions | InfoEx/infoex-autowx.py:329-337 | no custom-provider value is ever rounded |
| Precision.NrcsMetricValues | InfoEx/infoex-autowx.py:318-337 | for NRCS in metric, temperature, snow depth and precipitation are converted and then rounded; the high and low are neither |
| Precision.OnlyNrcsConverts | InfoEx/infoex-autowx.py:318-320 | other providers, and NRCS in English units, are only rounded |
| Precision.RoundingExamples | InfoEx/infoex-autowx.py:329-337 | worked roundings, ties to even included (`round(0.25, 1)` is 0.2, `round(0.75, 1)` is 0.8) |
| Assembly.TablesOfProvider | InfoEx/infoex-autowx.py:240-241 | the tables `main` builds are consistent |
| Assembly.ColumnOfCode | InfoEx/infoex-autowx.py:348 | a mapped code writes exactly one column, a measurement column |
| Assembly.UnmappedCode | InfoEx/infoex-autowx.py:311-313 | a code outside the table writes no column |
| Assembly.VisitStep | InfoEx/infoex-autowx.py:310-348 | one more visited key changes at most the one column its code feeds |
| Assembly.WxStep | InfoEx/infoex-autowx.py:318-337 | one more visited key stores at most that key's massaged number into `wx_data` |
| Assembly.MassageValue | InfoEx/infoex-autowx.py:318-337 | the loop body computes the final cell of a present value |
| Assembly.VisitKey | InfoEx/infoex-autowx.py:310-348 | one pass keeps the record and `wx_data` equal to the specification with one more key visited |
| Assembly.WriteIdentity | InfoEx/infoex-autowx.py:305-308 | location, date, time and zone go into columns 0 to 3 |
| Assembly.AssembleRecord | InfoEx/infoex-autowx.py:305-348 | the record is the assembled record, it does not depend on the visiting order, and `wx_data` keeps its keys with each mapped present value massaged |
| Assembly.ValueLandsInItsColumn | InfoEx/infoex-autowx.py:310-348 | every mapped present value ends up, converted and rounded, in its field's column |
| Assembly.AssemblyFrame | InfoEx/infoex-autowx.py:305-348 | no unfed column and no unit label is ever written |
| Assembly.IgnoredKeys | InfoEx/infoex-autowx.py:311-316 | an unknown key, or a key reported as `None`, leaves the record as it would be without it |
| Assembly.UnreadKey | InfoEx/infoex-autowx.py:310-348 | a key whose value no column reads leaves the record unchanged |
| Assembly.CustomExampleRecord | InfoEx/examples/custom-wx.example.py:7-16 | the example program's all-`None` data gives the default record with only date, time and zone filled in |
| Nrcs.LatestIndex | InfoEx/infoex-autowx.py:497-499 | the first position, in input order, of a sample with the greatest `dateTime` |
| Nrcs.LatestIndexUnique | InfoEx/infoex-autowx.py:497-499 | those two properties pin the position down |
| Nrcs.InsertDescending | InfoEx/infoex-autowx.py:498 | insertion keeps every sample: a permutation with the new sample added |
| Nrcs.InsertKeepsDescending | InfoEx/infoex-autowx.py:498 | inserting into a newest-first list keeps it newest first |
| Nrcs.SortDescending | InfoEx/infoex-autowx.py:498 | the sort is a permutation, newest first |
| Nrcs.DescendingOrdered | InfoEx/infoex-autowx.py:498 | a sorted list is newest first across any two positions |
| Nrcs.SortedHeadIsLatest | InfoEx/infoex-autowx.py:498-499 | the head of the stable sort is the earliest sample, in input order, with the latest `dateTime`; null samples are not dropped, so its value may be `None` |
| Nrcs.StoredKeys | InfoEx/infoex-autowx.py:476-501 | exactly the requested codes are stored |
| Nrcs.StoredLastRequestWins | InfoEx/infoex-autowx.py:476-501 | each code holds the reduction of the answer to its last request: `None` for an empty answer, else the value of the latest sample |
| Nrcs.GetNrcsData | InfoEx/infoex-autowx.py:465-503 | the loop computes the stored dictionary |
| Mesowest.ConvertSample | InfoEx/infoex-autowx.py:596-604 | a conversion is zero exactly when its raw sample is |
| Mesowest.Converted | InfoEx/infoex-autowx.py:589-604 | the converted non-null samples; empty exactly when every sample is `None` |
| Mesowest.PointValue | InfoEx/infoex-autowx.py:575-628 | an element without a series reports `None`; a reported value is never zero |
| Mesowest.ConvertValue | InfoEx/infoex-autowx.py:596-604 | the inner loop's conversions of one sample |
| Mesowest.CollectSample | InfoEx/infoex-autowx.py:606-617 | the sample joins its wind list in `average` mode, and the HN24 list if it is a snow depth |
| Mesowest.ScanSeries | InfoEx/infoex-autowx.py:589-622 | the inner loop routes every converted non-null sample and stores the last one |
| Mesowest.ReduceElement | InfoEx/infoex-autowx.py:575-628 | one element's pass crashes exactly on a present series with an empty `date_time`, else stores its point value and routes its samples |
| Mesowest.MergeDerived | InfoEx/infoex-autowx.py:630-667 | HN24 as the code computes it (oldest minus newest, clamped at zero), then the three wind means, each overriding only when it exists |
| Mesowest.GetMesowestData | InfoEx/infoex-autowx.py:545-669 | fails exactly when a requested series is present with an empty `date_time`; otherwise returns the reduced dictionary, with HN24 as the code computes it |
| Mesowest.Hn24AsWritten | InfoEx/infoex-autowx.py:630-644 | oldest minus newest, clamped at zero, present exactly for a non-empty list |
| Mesowest.Hn24 | InfoEx/infoex-autowx.py:630-644 | newest minus oldest, clamped at zero, present exactly for a non-empty list |
| Mesowest.Hn24ReportsAccumulation | InfoEx/infoex-autowx.py:630-644 | rising depths are reported as new snow, by exactly the rise, which the code as written reports as zero |
| Mesowest.Hn24IgnoresSettlement | InfoEx/infoex-autowx.py:630-644 | falling depths are reported as no new snow, which the code as written reports as new snow |
| Mesowest.Hn24AsWrittenCounterexample | InfoEx/infoex-autowx.py:637-644 | 2 cm of new snow gives 0 as written; 2 cm of settlement gives 2 |
| Mesowest.Mean | InfoEx/infoex-autowx.py:646-653 | present exactly for a non-empty list |
| MesowestFacts.CollectedIsRepeat | InfoEx/infoex-autowx.py:560-617 | an element requested k times has its samples collected k times |
| MesowestFacts.MeanRepeat | InfoEx/infoex-autowx.py:646-653 | so its mean is the mean of one copy |
| MesowestFacts.Hn24Repeat | InfoEx/infoex-autowx.py:630-644 | and its HN24, as written and as corrected, is the HN24 of one copy |
| MesowestFacts.DerivedFromRequested | InfoEx/infoex-autowx.py:560-653 | HN24 and the means depend only on which elements are requested, not how often |
| MesowestFacts.PointValuesLookup | InfoEx/infoex-autowx.py:560-628 | the point values hold exactly the requested elements, each with its own last truthy value |
| MesowestFacts.ReducedHn24 | InfoEx/infoex-autowx.py:630-658 | `hn24` is stored exactly when snow depth has a non-null sample, whatever the `hn24` option, as the oldest converted depth minus the newest, clamped at zero; otherwise it is an ordinary element |
| MesowestFacts.ReducedWind | InfoEx/infoex-autowx.py:646-667 | in `average` mode a wind element with samples reports their mean; otherwise its last value |
| MesowestFacts.ReducedOrdinary | InfoEx/infoex-autowx.py:560-628 | every other element reports its last truthy sample, or `None` |
| MesowestFacts.ReducedKeys | InfoEx/infoex-autowx.py:560-667 | the keys are the requested elements, plus `hn24` when it was derived |
| MesowestFacts.MeanWithin | InfoEx/infoex-autowx.py:646-653 | a mean lies between the smallest and the largest sample |
| MesowestFacts.Examples | InfoEx/infoex-autowx.py:630-653 | worked HN24 as the code computes it (a rising depth gives 0, a falling one its drop), a mean, and skipped nulls |
| Pipeline.Reported | InfoEx/infoex-autowx.py:258-293 | `wx_data` as each provider leaves it, MesoWest's `hn24` as the code computes it; fails exactly on a failed request or the MesoWest crash |
| Pipeline.GetWxData | InfoEx/infoex-autowx.py:258-293 | the dispatch computes `Reported`; a custom program returning `None` reports nothing |
| Pipeline.PrepareRecord | InfoEx/infoex-autowx.py:239-245 | `fmap`, and the default record relabelled to metric exactly for a weather-station provider in metric |
| Pipeline.FinishRecord | InfoEx/infoex-autowx.py:239-359 | the assembled record, uploaded exactly when `wx_data` is non-empty |
| Pipeline.RunStation | InfoEx/infoex-autowx.py:239-359 | the window, and the failure or the record and upload decision of one run |
| Pipeline.Run | InfoEx/infoex-autowx.py:216-362 | an unknown provider or an invalid option ends the run with that error; otherwise as `RunStation` |
| Pipeline.RecordUnitLabels | InfoEx/infoex-autowx.py:244-245 | the final unit labels: metric for a weather-station provider in metric except `inHg`; imperial otherwise |
| Pipeline.CustomRuns | InfoEx/infoex-autowx.py:272-276 | a custom program returning `None` uploads nothing; the example program uploads the default record with date, time and zone |
| Caic.DangerValueMeaning | caic_collect/caic_collect.py:14-22 | a rating is on 0..5, positive exactly for the five scale labels, and then it is that label's rank; a missing key counts as `noRating` |
| Caic.DangerValuesLayout | caic_collect/caic_collect.py:25-34 | three values per day, `alp`, `tln`, `btl` in turn, each on 0..5 |
| Caic.ConvertDangerRatings | caic_collect/caic_collect.py:25-34 | the loop computes those values |
| Caic.StripTags | caic_collect/caic_collect.py:9-10 | stripping never lengthens the text |
| Caic.StripTagsTagFree | caic_collect/caic_collect.py:9-10 | the stripped text holds no tag |
| Caic.TagFreeUnchanged | caic_collect/caic_collect.py:9-10 | a tag-free text is left unchanged |
| Caic.StripTagsIdempotent | caic_collect/caic_collect.py:8-11 | stripping twice is stripping once |
| Caic.StripTagsExamples | caic_collect/caic_collect.py:9-10 | a paired tag is removed; a `<` whose line ends before any `>` stays |
| Caic.HasSubstringAt | caic_collect/caic_collect.py:69 | the substring test holds exactly when the substring occurs somewhere |
| Caic.RegionalBranch | caic_collect/caic_collect.py:68-78 | a regional forecast reports its cleaned message and no summary; any other reports no message and its first summary day's cleaned content, or `No summary` |
| Caic.RowShape | caic_collect/caic_collect.py:80-93 | the row fails exactly when `confidence.days` is empty; otherwise forecaster, issue time and title with their defaults, the summary and message `SummaryAndMessage` gives, the confidence rating, then the danger values |
| Caic.TakeRowsAt | caic_collect/caic_collect.py:67-96 | every row taken is the row built at its position |
| Caic.TakeRowsStop | caic_collect/caic_collect.py:67-96 | taking stops only at a forecast whose row fails |
| Caic.TakeRowsAll | caic_collect/caic_collect.py:67-96 | rows that agree with the built ones up to a failure, or to the end, are exactly the rows taken |
| Caic.WrittenRowsFaithful | caic_collect/caic_collect.py:67-96 | every written row is its forecast's row; all are written exactly when none fails; otherwise writing stops at the first failure |
| Caic.BuildRow | caic_collect/caic_collect.py:68-93 | the loop body computes the forecast's row |
| Caic.BuildRows | caic_collect/caic_collect.py:66-96 | the loop writes exactly the written rows and reports a crash exactly when it stopped early |

## Findings

| source | as written | input that shows it | evidently intended | confidence | as-written member | corrected member |
|---|---|---|---|---|---|---|
| InfoEx/infoex-autowx.py:637-644 | HN24 is the oldest snow depth minus the newest, clamped at 0. The MesoWest samples run oldest to newest, and line 546 takes the last one as the most recent. So new snow makes the difference negative, and settlement makes it positive. | `snow_depth` samples `[10.0, 12.0]` (2 cm of new snow) give HN24 0; `[12.0, 10.0]` (2 cm of settlement) give HN24 2 | the comment at lines 631-635 says a positive result is new snow and a negative one settlement, so the intended HN24 is newest minus oldest, clamped at 0 | medium; not executed | Mesowest.Hn24AsWritten, Mesowest.Hn24AsWrittenCounterexample | Mesowest.Hn24, Mesowest.Hn24ReportsAccumulation, Mesowest.Hn24IgnoresSettlement |

The pipeline follows the code as written: `Mesowest.Reduced`, `Mesowest.MergeDerived`, `Mesowest.GetMesowestData`, `MesowestFacts.ReducedHn24` and every `Pipeline` member that reports MesoWest data use `Mesowest.Hn24AsWritten`. `Mesowest.Hn24` and its two lemmas state the corrected reading beside it.

## Left out

**Inputs become parameters**
- **Network and I/O.** The SOAP client, the HTTP requests and JSON decoding become parameters: the `Fetched` responses, or `TransportFailed` for a request or response that ends the run. CSV writing and the FTP upload are out of the model. The model only decides whether the upload happens (`Outcome.upload`).
- **Custom program.** `importlib` loading of the custom program is out of the model; its returned dictionary is a parameter.
- **Clock and time zones.** The clock comes in as an integer instant in microseconds, and `pytz` zones as their UTC offset and name. So for one run, a zone is one fixed offset; daylight-saving transitions inside the window are not modelled. `strftime` is replaced by the parameters `formatDate` and `formatTime`.
- **Configuration.** Arguments and `configparser` are not modelled, nor are logging and timing. Of `setup_config`, only the provider, units, HN24 and wind-mode decisions are modelled. The URL building and the empty-value sanity check are not. The comma split of `desired_data` is taken as done.

**Floating point**
- Precision.RoundHalfEven, Precision.RoundTenths and Precision.RoundHundredths work on exact reals, not binary floats. Python's `round(2.675, 2)` gives 2.67 because of the float representation; the model gives 2.68.
- The converters are exact too.
- Assembly.WxAfter stores the rounded number back into `wx_data` as a real. Python stores an `int` for `round(x)`; the record cell keeps that difference (`Int` versus `Num`).

**Preconditions and unmodelled failures**
- Mesowest.GetMesowestData requires every series to be as long as `date_time`, as the API delivers them. A shorter series would make the source raise `IndexError` at `[pos]`; that case is not modelled.
- Mesowest.GetMesowestData does model the crash on a present series with an empty `date_time`.
- Pipeline.RunStation requires the response to have its provider's shape (`Answers`): one NRCS answer per requested element. A failing NRCS SOAP call is not modelled.

**Assembly**
- **Visiting order.** The assembly loop visits the keys of `wx_data` in any order (`:|`), where Python uses insertion order. `Assembly.AssembleRecord` proves that the record does not depend on the order.

**CAIC script**
- **Header and output.** The header row, the request and its status check, the file writing and the final `print` are not modelled. `html.unescape` is the parameter `unescape`.
- **JSON shape.** A JSON object is modelled by the fields the script reads. A field present with JSON `null`, where `.get` returns `None` and the next call raises `TypeError` or `AttributeError`, is not modelled. The danger-rating days are maps from strings to strings.
