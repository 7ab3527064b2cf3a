/** `caic_collect.py`: every avalanche forecast of the CAIC products feed becomes one CSV
    row of forecaster, issue time, title, summary, message, confidence and the danger
    ratings of each forecast day. The JSON objects are modelled by the fields the script
    reads; an absent field is `None`. */
module Caic {
  import opened Wrappers

  /** `danger_rating_map.get(name, 0)`: the five labels of the scale count 1 to 5;
      `noRating`, `noForecast` and any other name count 0. */
  function DangerRatingOf(name: string): int {
    match name
    case "low" => 1
    case "moderate" => 2
    case "considerable" => 3
    case "high" => 4
    case "extreme" => 5
    case _ => 0
  }

  /** The five labels of the danger scale, from the lowest. */
  const DangerScale: seq<string> := ["low", "moderate", "considerable", "high", "extreme"]

  /** `danger_rating_map.get(day.get(key, 'noRating'), 0)`. */
  function DangerValue(day: map<string, string>, key: string): int {
    DangerRatingOf(if key in day then day[key] else "noRating")
  }

  /** A rating is on the 0..5 scale, positive exactly for the five labels of the danger
      scale, and then it is that label's rank; a missing key counts as `noRating`. */
  lemma DangerValueMeaning(day: map<string, string>, key: string)
    ensures var v := DangerValue(day, key);
      && 0 <= v <= 5
      && (v > 0 <==> key in day && day[key] in DangerScale)
      && (key in day && day[key] in DangerScale ==> DangerScale[v - 1] == day[key])
  {
  }

  /** The converted ratings of some days: `alp`, `tln` and `btl` of each day in turn. */
  function DangerValues(days: seq<map<string, string>>): (r: seq<int>)
    ensures |r| == 3 * |days|
  {
    if days == [] then []
    else
      var last := |days| - 1;
      DangerValues(days[..last]) +
        [DangerValue(days[last], "alp"), DangerValue(days[last], "tln"), DangerValue(days[last], "btl")]
  }

  lemma {:induction false} DangerValueAt(days: seq<map<string, string>>, k: nat)
    requires k < |days|
    ensures DangerValues(days)[3 * k] == DangerValue(days[k], "alp")
    ensures DangerValues(days)[3 * k + 1] == DangerValue(days[k], "tln")
    ensures DangerValues(days)[3 * k + 2] == DangerValue(days[k], "btl")
  {
    var last := |days| - 1;
    if k < last {
      DangerValueAt(days[..last], k);
      assert days[..last][k] == days[k];
    }
  }

  lemma {:induction false} DangerValuesBounded(days: seq<map<string, string>>)
    ensures forall j | 0 <= j < |DangerValues(days)| :: 0 <= DangerValues(days)[j] <= 5
  {
    if days != [] {
      var last := |days| - 1;
      DangerValuesBounded(days[..last]);
      DangerValueMeaning(days[last], "alp");
      DangerValueMeaning(days[last], "tln");
      DangerValueMeaning(days[last], "btl");
    }
  }

  /** Three values per day, in the order `alp`, `tln`, `btl`, each on the 0..5 scale. */
  lemma DangerValuesLayout(days: seq<map<string, string>>)
    ensures forall k | 0 <= k < |days| ::
      DangerValues(days)[3 * k] == DangerValue(days[k], "alp") &&
      DangerValues(days)[3 * k + 1] == DangerValue(days[k], "tln") &&
      DangerValues(days)[3 * k + 2] == DangerValue(days[k], "btl")
    ensures forall j | 0 <= j < |DangerValues(days)| :: 0 <= DangerValues(days)[j] <= 5
  {
    forall k | 0 <= k < |days|
      ensures DangerValues(days)[3 * k] == DangerValue(days[k], "alp") &&
        DangerValues(days)[3 * k + 1] == DangerValue(days[k], "tln") &&
        DangerValues(days)[3 * k + 2] == DangerValue(days[k], "btl")
    {
      DangerValueAt(days, k);
    }
    DangerValuesBounded(days);
  }

  /** Python's `convert_danger_ratings`: extends the list by three values per day. */
  method ConvertDangerRatings(dangerRatings: seq<map<string, string>>) returns (convertedRatings: seq<int>)
    ensures convertedRatings == DangerValues(dangerRatings)
  {
    convertedRatings := [];
    var i := 0;
    while i < |dangerRatings|
      invariant 0 <= i <= |dangerRatings|
      invariant convertedRatings == DangerValues(dangerRatings[..i])
    {
      var rating := dangerRatings[i];
      assert dangerRatings[..i + 1][..i] == dangerRatings[..i];
      convertedRatings := convertedRatings + [
        DangerValue(rating, "alp"),
        DangerValue(rating, "tln"),
        DangerValue(rating, "btl")];
      i := i + 1;
    }
    assert dangerRatings[..i] == dangerRatings;
  }

  /** The position of the first `>` or newline in `t`, or `|t|` when there is none. */
  function FirstStop(t: string): (m: nat)
    ensures m <= |t|
    ensures m < |t| ==> t[m] == '>' || t[m] == '\n'
    ensures forall p | 0 <= p < m :: t[p] != '>' && t[p] != '\n'
  {
    if t == [] then 0
    else if t[0] == '>' || t[0] == '\n' then 0
    else 1 + FirstStop(t[1..])
  }

  /** Where the tag opened by `s[0] == '<'` closes: the first `>` after it, unless a
      newline or the end of the text comes first, since `.` does not match a newline. */
  function CloseOffset(s: string): (c: Option<nat>)
    requires |s| > 0
    ensures c.Some? ==> 0 < c.value < |s| && s[c.value] == '>'
    ensures c.Some? ==> forall p | 0 < p < c.value :: s[p] != '>' && s[p] != '\n'
  {
    var j := 1 + FirstStop(s[1..]);
    if j < |s| && s[j] == '>' then Some(j) else None
  }

  /** `re.sub('<.*?>', '', s)`: scanning from the left, every `<` that closes on its line
      starts a tag running to the first `>`, and the tag is removed. */
  function StripTags(s: string): (r: string)
    ensures |r| <= |s|
    decreases |s|
  {
    if s == [] then []
    else if s[0] == '<' && CloseOffset(s).Some? then StripTags(s[CloseOffset(s).value + 1..])
    else [s[0]] + StripTags(s[1..])
  }

  /** No `<` in the text closes a tag. */
  ghost predicate TagFree(s: string) {
    forall i | 0 <= i < |s| && s[i] == '<' :: CloseOffset(s[i..]).None?
  }

  /** A text without `<` comes back unchanged. */
  lemma {:induction false} NoOpenerUnchanged(s: string)
    requires forall i | 0 <= i < |s| :: s[i] != '<'
    ensures StripTags(s) == s
  {
    if s != [] {
      NoOpenerUnchanged(s[1..]);
    }
  }

  /** More generally, a tag-free text comes back unchanged. */
  lemma {:induction false} TagFreeUnchanged(s: string)
    requires TagFree(s)
    ensures StripTags(s) == s
  {
    if s != [] {
      assert s[0..] == s;
      forall i | 0 <= i < |s[1..]| && s[1..][i] == '<'
        ensures CloseOffset(s[1..][i..]).None?
      {
        assert s[1..][i..] == s[i + 1..];
      }
      TagFreeUnchanged(s[1..]);
    }
  }

  /** Up to the first stop, when that stop is not a `>`, nothing is removed. */
  lemma {:induction false} KeptUntilStop(t: string, m: nat)
    requires m == FirstStop(t)
    requires m == |t| || t[m] == '\n'
    ensures StripTags(t) == t[..m] + StripTags(t[m..])
    decreases |t|
  {
    if m > 0 {
      var tail := t[1..];
      assert FirstStop(tail) == m - 1;
      assert t[0] == '<' ==> CloseOffset(t).None?;
      assert StripTags(t) == [t[0]] + StripTags(tail);
      KeptUntilStop(tail, m - 1);
      assert tail[m - 1..] == t[m..];
      assert t[..m] == [t[0]] + tail[..m - 1];
    } else {
      assert t[..0] == [] && t[0..] == t;
    }
  }

  /** Prefixing a character that is not `<` keeps a text tag-free. */
  lemma ConsTagFree(c: char, t: string)
    requires TagFree(t)
    requires c == '<' ==> CloseOffset([c] + t).None?
    ensures TagFree([c] + t)
  {
    var s := [c] + t;
    forall i | 0 <= i < |s| && s[i] == '<'
      ensures CloseOffset(s[i..]).None?
    {
      if i > 0 {
        assert s[i..] == t[i - 1..];
      }
    }
  }

  /** The stripped text holds no tag any more. */
  lemma {:induction false} StripTagsTagFree(s: string)
    ensures TagFree(StripTags(s))
    decreases |s|
  {
    if s == [] {
    } else if s[0] == '<' && CloseOffset(s).Some? {
      StripTagsTagFree(s[CloseOffset(s).value + 1..]);
    } else {
      StripTagsTagFree(s[1..]);
      if s[0] == '<' {
        OpenerStaysOpen(s);
      }
      ConsTagFree(s[0], StripTags(s[1..]));
    }
  }

  /** When the first stop of a text is a newline or its end, stripping keeps that stop
      where it is. */
  lemma StopKept(t: string)
    requires FirstStop(t) == |t| || t[FirstStop(t)] == '\n'
    ensures FirstStop(StripTags(t)) == FirstStop(t)
    ensures FirstStop(t) < |StripTags(t)| ==> StripTags(t)[FirstStop(t)] == '\n'
  {
    var m := FirstStop(t);
    var u := StripTags(t);
    KeptUntilStop(t, m);
    var rest := StripTags(t[m..]);
    assert u == t[..m] + rest;
    if m < |t| {
      assert t[m..] == [t[m]] + t[m + 1..];
      assert rest == [t[m]] + StripTags(t[m + 1..]);
    }
    assert u[..m] == t[..m];
  }

  /** A `<` that does not close in the text does not close once the rest is stripped:
      its line holds no `>` before the newline, and nothing of that stretch is removed. */
  lemma OpenerStaysOpen(s: string)
    requires |s| > 0 && s[0] == '<' && CloseOffset(s).None?
    ensures CloseOffset([s[0]] + StripTags(s[1..])).None?
  {
    var u := StripTags(s[1..]);
    StopKept(s[1..]);
    assert ([s[0]] + u)[1..] == u;
  }

  /** Stripping twice is stripping once. */
  lemma StripTagsIdempotent(s: string)
    ensures StripTags(StripTags(s)) == StripTags(s)
  {
    StripTagsTagFree(s);
    TagFreeUnchanged(StripTags(s));
  }

  /** A paired tag is removed, and a `<` whose line ends before any `>` is kept. */
  lemma StripTagsExamples()
    ensures StripTags("<b>x") == "x"
    ensures StripTags("<\n>") == "<\n>"
  {
    assert FirstStop("b>x") == 1;
    assert CloseOffset("<b>x") == Some(2);
    assert "<b>x"[3..] == "x";
    assert StripTags("x") == "x";
    assert FirstStop("\n>") == 0;
    assert CloseOffset("<\n>") == None;
    assert "<\n>"[1..] == "\n>";
    assert "\n>"[1..] == ">";
    assert StripTags(">") == ">";
    assert StripTags("\n>") == "\n>";
  }

  /** Python's `clean_html`: tags stripped, then HTML entities decoded by `unescape`. */
  function CleanHtml(rawHtml: string, unescape: string -> string): string {
    unescape(StripTags(rawHtml))
  }

  /** Python's `sub in s`. */
  function HasSubstring(s: string, sub: string): (b: bool)
    decreases |s|
  {
    if |s| < |sub| then false
    else s[..|sub|] == sub || HasSubstring(s[1..], sub)
  }

  /** `sub` occurs in `s` at position `i`. */
  predicate OccursAt(s: string, sub: string, i: int) {
    0 <= i <= |s| - |sub| && s[i..i + |sub|] == sub
  }

  /** The scan finds `sub` exactly when it occurs somewhere. */
  lemma {:induction false} HasSubstringAt(s: string, sub: string)
    ensures HasSubstring(s, sub) <==> exists i :: OccursAt(s, sub, i)
    decreases |s|
  {
    if |s| >= |sub| {
      if s[..|sub|] == sub {
        assert OccursAt(s, sub, 0);
      } else {
        HasSubstringAt(s[1..], sub);
        if HasSubstring(s[1..], sub) {
          var i :| OccursAt(s[1..], sub, i);
          assert s[1..][i..i + |sub|] == s[i + 1..i + 1 + |sub|];
          assert OccursAt(s, sub, i + 1);
        }
        if i :| OccursAt(s, sub, i) {
          assert i != 0;
          assert s[1..][i - 1..i - 1 + |sub|] == s[i..i + |sub|];
          assert OccursAt(s[1..], sub, i - 1);
        }
      }
    }
  }

  /** A section with a `days` list: `avalancheSummary`, `confidence` or `dangerRatings`. */
  datatype Section = Section(days: Option<seq<map<string, string>>>)

  datatype Forecast = Forecast(
    title: Option<string>, message: Option<string>, forecaster: Option<string>,
    issueDateTime: Option<string>, avalancheSummary: Option<Section>,
    confidence: Option<Section>, dangerRatings: Option<Section>)

  /** A CSV cell: text, or one of the converted danger values. */
  datatype Field = Text(text: string) | Rank(rank: int)

  /** `section.get('days', default)` on a section that may itself be absent. */
  function DaysOr(section: Option<Section>, default: seq<map<string, string>>): seq<map<string, string>> {
    if section.Some? && section.value.days.Some? then section.value.days.value else default
  }

  /** The summary and message columns of lines 69 to 78. */
  function SummaryAndMessage(f: Forecast, unescape: string -> string): (string, string) {
    if HasSubstring(f.title.GetOr(""), "Regional") then
      ("", CleanHtml(f.message.GetOr("No message"), unescape))
    else
      var days := DaysOr(f.avalancheSummary, []);
      var summary := if |days| > 0 then
        CleanHtml(if "content" in days[0] then days[0]["content"] else "No summary", unescape)
      else "No summary";
      (summary, "")
  }

  /** The confidence column; `None` when `confidence.days` is an empty list, where the
      script's `[0]` raises `IndexError`. */
  function ConfidenceRating(f: Forecast): Option<string> {
    var days := DaysOr(f.confidence, [map[]]);
    if |days| == 0 then None
    else Some(if "rating" in days[0] then days[0]["rating"] else "No rating")
  }

  function Ranks(values: seq<int>): (r: seq<Field>)
    ensures |r| == |values|
    ensures forall j | 0 <= j < |values| :: r[j] == Rank(values[j])
  {
    if values == [] then [] else [Rank(values[0])] + Ranks(values[1..])
  }

  /** The cells of lines 81 to 93, once the summary, message and confidence are known. */
  function RowCells(f: Forecast, summary: string, message: string, confidence: string): seq<Field> {
    [Text(f.forecaster.GetOr("No forecaster")), Text(f.issueDateTime.GetOr("No issue date time")),
     Text(f.title.GetOr("No title")), Text(summary), Text(message), Text(confidence)]
    + Ranks(DangerValues(DaysOr(f.dangerRatings, [])))
  }

  /** The CSV row of one forecast, or `None` when building it raises. */
  function ForecastRow(f: Forecast, unescape: string -> string): Option<seq<Field>> {
    var (summary, message) := SummaryAndMessage(f, unescape);
    var confidence := ConfidenceRating(f);
    if confidence.None? then None else Some(RowCells(f, summary, message, confidence.value))
  }

  lemma CellsLayout(f: Forecast, summary: string, message: string, confidence: string)
    ensures var cells := RowCells(f, summary, message, confidence);
      var ratingDays := DaysOr(f.dangerRatings, []);
      |cells| == 6 + 3 * |ratingDays| &&
      cells[0] == Text(if f.forecaster.Some? then f.forecaster.value else "No forecaster") &&
      cells[1] == Text(if f.issueDateTime.Some? then f.issueDateTime.value else "No issue date time") &&
      cells[2] == Text(if f.title.Some? then f.title.value else "No title") &&
      cells[3] == Text(summary) && cells[4] == Text(message) &&
      cells[5] == Text(confidence) &&
      forall j | 0 <= j < 3 * |ratingDays| :: cells[6 + j] == Rank(DangerValues(ratingDays)[j])
  {
  }

  /** The row of lines 81 to 93: six text columns with their defaults, then three danger
      values per danger day. It exists unless `confidence.days` is an empty list. */
  lemma RowShape(f: Forecast, unescape: string -> string)
    ensures ForecastRow(f, unescape).None? <==>
      f.confidence.Some? && f.confidence.value.days == Some([])
    ensures var row := ForecastRow(f, unescape);
      var ratingDays := DaysOr(f.dangerRatings, []);
      row.Some? ==>
        |row.value| == 6 + 3 * |ratingDays| &&
        row.value[0] == Text(if f.forecaster.Some? then f.forecaster.value else "No forecaster") &&
        row.value[1] == Text(if f.issueDateTime.Some? then f.issueDateTime.value else "No issue date time") &&
        row.value[2] == Text(if f.title.Some? then f.title.value else "No title") &&
        row.value[3] == Text(SummaryAndMessage(f, unescape).0) &&
        row.value[4] == Text(SummaryAndMessage(f, unescape).1) &&
        row.value[5] == Text(ConfidenceRating(f).value) &&
        forall j | 0 <= j < 3 * |ratingDays| :: row.value[6 + j] == Rank(DangerValues(ratingDays)[j])
    ensures f.confidence.None? ==> ConfidenceRating(f) == Some("No rating")
  {
    var (summary, message) := SummaryAndMessage(f, unescape);
    if ConfidenceRating(f).Some? {
      CellsLayout(f, summary, message, ConfidenceRating(f).value);
    }
  }

  /** The message and summary columns: a regional forecast reports its cleaned message
      and no summary; any other forecast reports no message and the cleaned content of
      its first summary day, with `No summary` when there is none. */
  lemma RegionalBranch(f: Forecast, unescape: string -> string)
    ensures var regional := exists i :: OccursAt(f.title.GetOr(""), "Regional", i);
      var (summary, message) := SummaryAndMessage(f, unescape);
      var days := DaysOr(f.avalancheSummary, []);
      if regional then
        summary == "" && message == unescape(StripTags(if f.message.Some? then f.message.value else "No message"))
      else
        message == "" &&
        summary == (if days == [] then "No summary"
                    else unescape(StripTags(if "content" in days[0] then days[0]["content"] else "No summary")))
  {
    HasSubstringAt(f.title.GetOr(""), "Regional");
  }

  /** The rows built before the first one that raises. */
  function TakeRows(built: seq<Option<seq<Field>>>): (rows: seq<seq<Field>>)
    ensures |rows| <= |built|
  {
    if built == [] || built[0].None? then [] else [built[0].value] + TakeRows(built[1..])
  }

  /** The row, or the failure, of every forecast. */
  function RowsOf(data: seq<Forecast>, unescape: string -> string): (built: seq<Option<seq<Field>>>)
    ensures |built| == |data|
    ensures forall k | 0 <= k < |data| :: built[k] == ForecastRow(data[k], unescape)
  {
    seq(|data|, k requires 0 <= k < |data| => ForecastRow(data[k], unescape))
  }

  /** The rows the script writes: one per forecast, up to the first that raises. */
  function WrittenRows(data: seq<Forecast>, unescape: string -> string): (rows: seq<seq<Field>>)
    ensures |rows| <= |data|
  {
    TakeRows(RowsOf(data, unescape))
  }

  lemma {:induction false} TakeRowsAt(built: seq<Option<seq<Field>>>, k: nat)
    requires k < |TakeRows(built)|
    ensures built[k] == Some(TakeRows(built)[k])
  {
    if k > 0 {
      TakeRowsAt(built[1..], k - 1);
    }
  }

  lemma {:induction false} TakeRowsStop(built: seq<Option<seq<Field>>>)
    requires |TakeRows(built)| < |built|
    ensures built[|TakeRows(built)|].None?
  {
    if built[0].Some? {
      TakeRowsStop(built[1..]);
    }
  }

  /** `rows` are the first `|rows|` built rows. */
  ghost predicate Agrees(built: seq<Option<seq<Field>>>, rows: seq<seq<Field>>) {
    |rows| <= |built| && forall k | 0 <= k < |rows| :: built[k] == Some(rows[k])
  }

  lemma AgreesStep(built: seq<Option<seq<Field>>>, rows: seq<seq<Field>>, row: seq<Field>)
    requires Agrees(built, rows) && |rows| < |built| && built[|rows|] == Some(row)
    ensures Agrees(built, rows + [row])
  {
    forall k | 0 <= k < |rows| + 1
      ensures built[k] == Some((rows + [row])[k])
    {
      if k < |rows| {
        assert (rows + [row])[k] == rows[k];
      }
    }
  }

  /** Rows that agree with the first `|rows|` built ones, followed by a failure or the
      end, are what is taken. */
  lemma {:induction false} TakeRowsAll(built: seq<Option<seq<Field>>>, rows: seq<seq<Field>>)
    requires Agrees(built, rows)
    requires |rows| == |built| || built[|rows|].None?
    ensures TakeRows(built) == rows
  {
    if rows != [] {
      TakeRowsAll(built[1..], rows[1..]);
      assert rows == [rows[0]] + rows[1..];
    }
  }

  /** Each written row is the row of the forecast at its position, and all forecasts are
      written exactly when none of them raises; otherwise writing stops at the first
      forecast that raises. */
  lemma WrittenRowsFaithful(data: seq<Forecast>, unescape: string -> string)
    ensures var rows := WrittenRows(data, unescape);
      forall k | 0 <= k < |rows| :: ForecastRow(data[k], unescape) == Some(rows[k])
    ensures |WrittenRows(data, unescape)| == |data| <==>
      forall k | 0 <= k < |data| :: ForecastRow(data[k], unescape).Some?
    ensures |WrittenRows(data, unescape)| < |data| ==>
      ForecastRow(data[|WrittenRows(data, unescape)|], unescape).None?
  {
    var built := RowsOf(data, unescape);
    var rows := WrittenRows(data, unescape);
    forall k | 0 <= k < |rows|
      ensures ForecastRow(data[k], unescape) == Some(rows[k])
    {
      TakeRowsAt(built, k);
    }
    if |rows| < |data| {
      TakeRowsStop(built);
    }
  }

  /** The body of the loop over the forecasts, lines 69 to 93: the message and summary
      branch, the defaults and the danger values; `None` when `confidence.days` is an
      empty list, where `[0]` raises. */
  method BuildRow(forecast: Forecast, unescape: string -> string) returns (row: Option<seq<Field>>)
    ensures row == ForecastRow(forecast, unescape)
  {
    var message: string;
    var avalancheSummary: string;
    if HasSubstring(forecast.title.GetOr(""), "Regional") {
      message := CleanHtml(forecast.message.GetOr("No message"), unescape);
      avalancheSummary := "";
    } else {
      message := "";
      var days := DaysOr(forecast.avalancheSummary, []);
      if |days| > 0 {
        avalancheSummary := CleanHtml(if "content" in days[0] then days[0]["content"] else "No summary", unescape);
      } else {
        avalancheSummary := "No summary";
      }
    }
    var forecaster := forecast.forecaster.GetOr("No forecaster");
    var issueDatetime := forecast.issueDateTime.GetOr("No issue date time");
    var title := forecast.title.GetOr("No title");
    var confidenceDays := DaysOr(forecast.confidence, [map[]]);
    if |confidenceDays| == 0 {
      return None;
    }
    var confidenceRating := if "rating" in confidenceDays[0] then confidenceDays[0]["rating"] else "No rating";
    var dangerRatings := ConvertDangerRatings(DaysOr(forecast.dangerRatings, []));
    row := Some([Text(forecaster), Text(issueDatetime), Text(title), Text(avalancheSummary),
                 Text(message), Text(confidenceRating)] + Ranks(dangerRatings));
  }

  /** The loop over the forecasts of lines 67 to 96: builds each row and stops at the
      first forecast whose row cannot be built, reporting that it stopped. */
  method BuildRows(data: seq<Forecast>, unescape: string -> string)
    returns (rows: seq<seq<Field>>, crashed: bool)
    ensures rows == WrittenRows(data, unescape)
    ensures crashed <==> |rows| < |data|
  {
    rows := [];
    crashed := false;
    var i := 0;
    ghost var built := RowsOf(data, unescape);
    while i < |data|
      invariant 0 <= i <= |data| && |rows| == i
      invariant Agrees(built, rows)
    {
      var row := BuildRow(data[i], unescape);
      assert built[i] == row;
      if row.None? {
        // `[0]` on an empty list raises and ends the script
        TakeRowsAll(built, rows);
        crashed := true;
        return;
      }
      AgreesStep(built, rows, row.value);
      rows := rows + [row.value];
      i := i + 1;
    }
    TakeRowsAll(built, rows);
  }
}
