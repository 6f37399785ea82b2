/**
 * The older forecast view model: a single pass over the 3-hour samples that
 * converts each Kelvin temperature to the display unit, folds every run of
 * consecutive same-day samples into one record (keeping the first sample to
 * reach the run's maximum), and stops after five records.
 *
 * The calendar is a parameter: `dayKey` is `Calendar.startOfDay` on a
 * timestamp, `today` is the start of the current day, `weekday` is
 * `Calendar.component(.weekday, …)` and `weekdaySymbols` the formatter's
 * `shortWeekdaySymbols`.
 */
module LegacyForecast {
  import opened Wrappers
  import opened Numerics
  import opened OpenWeather

  /** The record this view model builds for each run of samples. */
  datatype DayForecast = DayForecast(temperature: int, condition: string, day: string, icon: string)

  // ---------------------------------------------------------------- units

  function KelvinToCelsius(k: real): real {
    k - 273.15
  }

  function KelvinToFahrenheit(k: real): real {
    k * 9.0 / 5.0 - 459.67
  }

  /** The per-sample temperature in the selected unit. */
  function Converted(s: Sample, isFahrenheit: bool): real {
    if isFahrenheit then KelvinToFahrenheit(s.temp) else KelvinToCelsius(s.temp)
  }

  /** In exact arithmetic the two conversions agree: F = C * 9/5 + 32. */
  lemma FahrenheitFromCelsius(k: real)
    ensures KelvinToFahrenheit(k) == KelvinToCelsius(k) * 9.0 / 5.0 + 32.0
    ensures KelvinToCelsius(273.15) == 0.0 && KelvinToFahrenheit(273.15) == 32.0
  {
  }

  // ---------------------------------------------------------------- icons

  /** The eighteen OpenWeatherMap icon tokens that `mapIcon(from:)` knows, with their symbols. */
  const IconTable: map<string, string> := map[
    "01d" := "sun.max.fill", "01n" := "moon.fill",
    "02d" := "cloud.sun.fill", "02n" := "cloud.moon.fill",
    "03d" := "cloud.fill", "03n" := "cloud.fill",
    "04d" := "smoke.fill", "04n" := "smoke.fill",
    "09d" := "cloud.drizzle.fill", "09n" := "cloud.drizzle.fill",
    "10d" := "cloud.rain.fill", "10n" := "cloud.rain.fill",
    "11d" := "cloud.bolt.fill", "11n" := "cloud.bolt.fill",
    "13d" := "snow", "13n" := "snow",
    "50d" := "cloud.fog.fill", "50n" := "cloud.fog.fill"]

  /** `mapIcon(from:)`: an exact table of OpenWeatherMap icon tokens, "questionmark" otherwise. */
  function MapIcon(iconCode: string): (r: string)
    ensures iconCode in IconTable ==> r == IconTable[iconCode]
    ensures iconCode !in IconTable ==> r == "questionmark"
  {
    match iconCode
    case "01d" => "sun.max.fill"
    case "01n" => "moon.fill"
    case "02d" => "cloud.sun.fill"
    case "02n" => "cloud.moon.fill"
    case "03d" => "cloud.fill"
    case "03n" => "cloud.fill"
    case "04d" => "smoke.fill"
    case "04n" => "smoke.fill"
    case "09d" => "cloud.drizzle.fill"
    case "09n" => "cloud.drizzle.fill"
    case "10d" => "cloud.rain.fill"
    case "10n" => "cloud.rain.fill"
    case "11d" => "cloud.bolt.fill"
    case "11n" => "cloud.bolt.fill"
    case "13d" => "snow"
    case "13n" => "snow"
    case "50d" => "cloud.fog.fill"
    case "50n" => "cloud.fog.fill"
    case _ => "questionmark"
  }

  const KnownIconCodes: set<string> := {
    "01d", "01n", "02d", "02n", "03d", "03n", "04d", "04n", "09d", "09n",
    "10d", "10n", "11d", "11n", "13d", "13n", "50d", "50n"
  }

  /** Exactly the tokens outside the table, "" among them, map to "questionmark". */
  lemma MapIconUnknown(iconCode: string)
    ensures MapIcon(iconCode) == "questionmark" <==> iconCode !in KnownIconCodes
    ensures MapIcon("") == "questionmark"
  {
  }

  /** Clear and partly-cloudy skies have distinct day and night icons. */
  lemma MapIconDayNightDistinct()
    ensures MapIcon("01d") != MapIcon("01n") && MapIcon("02d") != MapIcon("02n")
  {
    assert MapIcon("01d") == "sun.max.fill" && MapIcon("01n") == "moon.fill";
    assert MapIcon("02d") == "cloud.sun.fill" && MapIcon("02n") == "cloud.moon.fill";
  }

  /** Scattered and broken clouds, drizzle and rain share one icon by day and by night. */
  lemma MapIconDayNightCloudsRain()
    ensures MapIcon("03d") == MapIcon("03n") && MapIcon("04d") == MapIcon("04n")
    ensures MapIcon("09d") == MapIcon("09n") && MapIcon("10d") == MapIcon("10n")
  {
    assert MapIcon("03d") == "cloud.fill" == MapIcon("03n");
    assert MapIcon("04d") == "smoke.fill" == MapIcon("04n");
    assert MapIcon("09d") == "cloud.drizzle.fill" == MapIcon("09n");
    assert MapIcon("10d") == "cloud.rain.fill" == MapIcon("10n");
  }

  /** Thunderstorm, snow and mist share one icon by day and by night. */
  lemma MapIconDayNightStormSnowMist()
    ensures MapIcon("11d") == MapIcon("11n") && MapIcon("13d") == MapIcon("13n")
    ensures MapIcon("50d") == MapIcon("50n")
  {
    assert MapIcon("11d") == "cloud.bolt.fill" == MapIcon("11n");
    assert MapIcon("13d") == "snow" == MapIcon("13n");
    assert MapIcon("50d") == "cloud.fog.fill" == MapIcon("50n");
  }

  // ---------------------------------------------------------------- runs

  function DayOf(s: Sample, dayKey: int -> int): int {
    dayKey(s.dt)
  }

  /** The runs laid end to end. */
  function Flatten(runs: seq<seq<Sample>>): seq<Sample>
    decreases |runs|
  {
    if |runs| == 0 then [] else Flatten(runs[..|runs| - 1]) + runs[|runs| - 1]
  }

  /** The maximal runs of consecutive samples that fall on the same day, in input order. */
  function Runs(s: seq<Sample>, dayKey: int -> int): (r: seq<seq<Sample>>)
    ensures |r| == 0 <==> |s| == 0
    ensures forall k :: 0 <= k < |r| ==> |r[k]| > 0
    decreases |s|
  {
    if |s| == 0 then []
    else
      var p := Runs(s[..|s| - 1], dayKey);
      var x := s[|s| - 1];
      if |p| > 0 && DayOf(p[|p| - 1][0], dayKey) == DayOf(x, dayKey) then
        p[..|p| - 1] + [p[|p| - 1] + [x]]
      else
        p + [[x]]
  }

  /** Every sample of each run falls on the run's day. */
  ghost predicate OneDayEach(r: seq<seq<Sample>>, dayKey: int -> int)
    requires forall k :: 0 <= k < |r| ==> |r[k]| > 0
  {
    forall k, i :: 0 <= k < |r| && 0 <= i < |r[k]| ==> DayOf(r[k][i], dayKey) == DayOf(r[k][0], dayKey)
  }

  /** Neighbouring runs hold different days. */
  ghost predicate Maximal(r: seq<seq<Sample>>, dayKey: int -> int)
    requires forall k :: 0 <= k < |r| ==> |r[k]| > 0
  {
    forall k :: 0 <= k < |r| - 1 ==> DayOf(r[k][0], dayKey) != DayOf(r[k + 1][0], dayKey)
  }

  lemma FlattenSnoc(runs: seq<seq<Sample>>, last: seq<Sample>)
    ensures Flatten(runs + [last]) == Flatten(runs) + last
  {
    assert (runs + [last])[..|runs|] == runs;
  }

  /** Extending the last run by `x` extends the flattened runs by `x`. */
  lemma FlattenExtend(front: seq<seq<Sample>>, last: seq<Sample>, x: Sample)
    ensures Flatten(front + [last + [x]]) == Flatten(front + [last]) + [x]
  {
    FlattenSnoc(front, last + [x]);
    FlattenSnoc(front, last);
    AppendAssociative(Flatten(front), last, [x]);
  }

  lemma AppendAssociative(a: seq<Sample>, b: seq<Sample>, c: seq<Sample>)
    ensures a + (b + c) == (a + b) + c
  {
  }

  /** Laid end to end, the runs are the input. */
  lemma {:induction false} RunsFlatten(s: seq<Sample>, dayKey: int -> int)
    ensures Flatten(Runs(s, dayKey)) == s
    ensures |Runs(s, dayKey)| <= |s|
    decreases |s|
  {
    if |s| > 0 {
      var init := s[..|s| - 1];
      RunsFlatten(init, dayKey);
      var p := Runs(init, dayKey);
      var x := s[|s| - 1];
      assert init + [x] == s;
      if |p| > 0 && DayOf(p[|p| - 1][0], dayKey) == DayOf(x, dayKey) {
        var n := |p| - 1;
        assert p == p[..n] + [p[n]];
        FlattenExtend(p[..n], p[n], x);
      } else {
        FlattenSnoc(p, [x]);
      }
    }
  }

  /** Extending the last run with a sample of its day keeps every run on one day. */
  lemma OneDayEachExtend(p: seq<seq<Sample>>, x: Sample, dayKey: int -> int)
    requires |p| > 0 && forall k :: 0 <= k < |p| ==> |p[k]| > 0
    requires OneDayEach(p, dayKey)
    requires DayOf(p[|p| - 1][0], dayKey) == DayOf(x, dayKey)
    ensures var r := p[..|p| - 1] + [p[|p| - 1] + [x]];
      (forall k :: 0 <= k < |r| ==> |r[k]| > 0) && OneDayEach(r, dayKey)
  {
    var n := |p| - 1;
    var r := p[..n] + [p[n] + [x]];
    forall k, i | 0 <= k < |r| && 0 <= i < |r[k]|
      ensures DayOf(r[k][i], dayKey) == DayOf(r[k][0], dayKey)
    {
      if k < n {
        assert r[k] == p[k];
      } else if i < |p[n]| {
        assert r[k][i] == p[n][i] && r[k][0] == p[n][0];
      } else {
        assert r[k][i] == x && r[k][0] == p[n][0];
      }
    }
  }

  /** Opening a new run with one sample keeps every run on one day. */
  lemma OneDayEachOpen(p: seq<seq<Sample>>, x: Sample, dayKey: int -> int)
    requires forall k :: 0 <= k < |p| ==> |p[k]| > 0
    requires OneDayEach(p, dayKey)
    ensures var r := p + [[x]];
      (forall k :: 0 <= k < |r| ==> |r[k]| > 0) && OneDayEach(r, dayKey)
  {
    var r := p + [[x]];
    forall k, i | 0 <= k < |r| && 0 <= i < |r[k]|
      ensures DayOf(r[k][i], dayKey) == DayOf(r[k][0], dayKey)
    {
      if k < |p| {
        assert r[k] == p[k];
      }
    }
  }

  /** Every sample of each run falls on the run's day. */
  lemma {:induction false} RunsOneDay(s: seq<Sample>, dayKey: int -> int)
    ensures OneDayEach(Runs(s, dayKey), dayKey)
    decreases |s|
  {
    if |s| > 0 {
      var init := s[..|s| - 1];
      RunsOneDay(init, dayKey);
      var p := Runs(init, dayKey);
      var x := s[|s| - 1];
      if |p| > 0 && DayOf(p[|p| - 1][0], dayKey) == DayOf(x, dayKey) {
        OneDayEachExtend(p, x, dayKey);
      } else {
        OneDayEachOpen(p, x, dayKey);
      }
    }
  }

  /** Extending the last run keeps neighbouring runs on different days. */
  lemma MaximalExtend(p: seq<seq<Sample>>, x: Sample, dayKey: int -> int)
    requires |p| > 0 && forall k :: 0 <= k < |p| ==> |p[k]| > 0
    requires Maximal(p, dayKey)
    ensures var r := p[..|p| - 1] + [p[|p| - 1] + [x]];
      (forall k :: 0 <= k < |r| ==> |r[k]| > 0) && Maximal(r, dayKey)
  {
    var n := |p| - 1;
    var r := p[..n] + [p[n] + [x]];
    forall k | 0 <= k < |r| - 1
      ensures DayOf(r[k][0], dayKey) != DayOf(r[k + 1][0], dayKey)
    {
      assert r[k] == p[k];
      assert r[k + 1][0] == p[k + 1][0];
    }
  }

  /** A new run on a different day from the last keeps neighbouring runs on different days. */
  lemma MaximalOpen(p: seq<seq<Sample>>, x: Sample, dayKey: int -> int)
    requires forall k :: 0 <= k < |p| ==> |p[k]| > 0
    requires Maximal(p, dayKey)
    requires |p| > 0 ==> DayOf(p[|p| - 1][0], dayKey) != DayOf(x, dayKey)
    ensures var r := p + [[x]];
      (forall k :: 0 <= k < |r| ==> |r[k]| > 0) && Maximal(r, dayKey)
  {
    var r := p + [[x]];
    forall k | 0 <= k < |r| - 1
      ensures DayOf(r[k][0], dayKey) != DayOf(r[k + 1][0], dayKey)
    {
      assert r[k] == p[k];
      if k + 1 < |p| {
        assert r[k + 1] == p[k + 1];
      } else {
        assert r[k + 1] == [x];
      }
    }
  }

  /**
   * Neighbouring runs hold different days, so together with `RunsOneDay` no
   * run could be extended: the runs are maximal.
   */
  lemma {:induction false} RunsMaximal(s: seq<Sample>, dayKey: int -> int)
    ensures Maximal(Runs(s, dayKey), dayKey)
    decreases |s|
  {
    if |s| > 0 {
      var init := s[..|s| - 1];
      RunsMaximal(init, dayKey);
      var p := Runs(init, dayKey);
      var x := s[|s| - 1];
      if |p| > 0 && DayOf(p[|p| - 1][0], dayKey) == DayOf(x, dayKey) {
        MaximalExtend(p, x, dayKey);
      } else {
        MaximalOpen(p, x, dayKey);
      }
    }
  }

  // ---------------------------------------------------------------- folding one run

  /** `maxTemp`, `conditionDescription` and `iconCode` while a run is folded. */
  datatype Acc = Acc(maxTemp: real, condition: string, icon: string)

  /** The state set when a run starts (`weather.first?.main ?? ""`, …). */
  function StartRun(x: Sample, isFahrenheit: bool): (r: Acc)
    ensures r.maxTemp == Converted(x, isFahrenheit)
    ensures |x.weather| > 0 ==> r.condition == x.weather[0].main && r.icon == x.weather[0].icon
    ensures |x.weather| == 0 ==> r.condition == "" && r.icon == ""
  {
    var first := FirstCondition(x);
    Acc(Converted(x, isFahrenheit),
        if first.Some? then first.value.main else "",
        if first.Some? then first.value.icon else "")
  }

  /** A later sample of the run replaces the state only when strictly hotter. */
  function Step(a: Acc, x: Sample, isFahrenheit: bool): (r: Acc)
    ensures a.maxTemp <= r.maxTemp && Converted(x, isFahrenheit) <= r.maxTemp
    ensures r.maxTemp == a.maxTemp || r.maxTemp == Converted(x, isFahrenheit)
    ensures r == a <==> Converted(x, isFahrenheit) <= a.maxTemp
    ensures r != a && |x.weather| > 0 ==> r.condition == x.weather[0].main && r.icon == x.weather[0].icon
    ensures r != a && |x.weather| == 0 ==> r.condition == a.condition && r.icon == a.icon
  {
    var t := Converted(x, isFahrenheit);
    if t > a.maxTemp then
      var first := FirstCondition(x);
      Acc(t,
          if first.Some? then first.value.main else a.condition,
          if first.Some? then first.value.icon else a.icon)
    else a
  }

  /** The state after folding a whole run: at least as hot as its first and its last sample. */
  function Fold(run: seq<Sample>, isFahrenheit: bool): (r: Acc)
    requires |run| > 0
    ensures Converted(run[0], isFahrenheit) <= r.maxTemp && Converted(run[|run| - 1], isFahrenheit) <= r.maxTemp
    decreases |run|
  {
    if |run| == 1 then StartRun(run[0], isFahrenheit)
    else Step(Fold(run[..|run| - 1], isFahrenheit), run[|run| - 1], isFahrenheit)
  }

  /**
   * The fold keeps the run's maximum temperature, reached first at some
   * index `k` (every earlier sample is strictly cooler, so ties keep the
   * earlier sample), and the condition and icon of that sample when it has
   * a `weather` element.
   */
  lemma {:induction false} FoldIsFirstMaximum(run: seq<Sample>, isFahrenheit: bool)
    requires |run| > 0
    ensures forall i :: 0 <= i < |run| ==> Converted(run[i], isFahrenheit) <= Fold(run, isFahrenheit).maxTemp
    ensures exists k :: 0 <= k < |run| && FirstMaximumAt(run, isFahrenheit, k)
    decreases |run|
  {
    if |run| > 1 {
      var init := run[..|run| - 1];
      FoldIsFirstMaximum(init, isFahrenheit);
      var k :| 0 <= k < |init| && FirstMaximumAt(init, isFahrenheit, k);
      var x := run[|run| - 1];
      if Converted(x, isFahrenheit) > Fold(init, isFahrenheit).maxTemp {
        assert FirstMaximumAt(run, isFahrenheit, |run| - 1);
      } else {
        assert FirstMaximumAt(run, isFahrenheit, k);
      }
    } else {
      assert FirstMaximumAt(run, isFahrenheit, 0);
    }
  }

  /** Sample `k` is the first to reach the folded maximum and supplied its condition and icon. */
  ghost predicate FirstMaximumAt(run: seq<Sample>, isFahrenheit: bool, k: int)
    requires |run| > 0 && 0 <= k < |run|
  {
    var a := Fold(run, isFahrenheit);
    Converted(run[k], isFahrenheit) == a.maxTemp &&
    (forall j :: 0 <= j < k ==> Converted(run[j], isFahrenheit) < a.maxTemp) &&
    (|run[k].weather| > 0 ==> a.condition == run[k].weather[0].main && a.icon == run[k].weather[0].icon)
  }

  // ---------------------------------------------------------------- records

  /** A day's label can be computed: "Today", or a weekday symbol that exists. */
  predicate Labelable(day: int, today: int, weekday: int -> Weekday, weekdaySymbols: seq<string>) {
    day == today || weekday(day) <= |weekdaySymbols|
  }

  /** "Today" for the current day, otherwise `weekdaySymbols[weekday - 1]`. */
  function Label(day: int, today: int, weekday: int -> Weekday, weekdaySymbols: seq<string>): (r: string)
    requires Labelable(day, today, weekday, weekdaySymbols)
    ensures day == today ==> r == "Today"
    ensures day != today ==> r in weekdaySymbols
  {
    if day == today then "Today" else weekdaySymbols[weekday(day) - 1]
  }

  /** The first `n` runs of `list` all have a computable label. */
  predicate LabelsDefined(list: seq<Sample>, dayKey: int -> int, today: int, weekday: int -> Weekday,
                          weekdaySymbols: seq<string>, n: nat) {
    var runs := Runs(list, dayKey);
    forall k :: 0 <= k < |runs| && k < n ==> Labelable(DayOf(runs[k][0], dayKey), today, weekday, weekdaySymbols)
  }

  /**
   * The record emitted for one run: the run's label, and the rounded
   * temperature of the first sample to reach the run's maximum, with that
   * sample's condition and icon when it has a `weather` element.
   */
  function Summary(run: seq<Sample>, dayKey: int -> int, today: int, weekday: int -> Weekday,
                   weekdaySymbols: seq<string>, isFahrenheit: bool): (r: DayForecast)
    requires |run| > 0
    requires Labelable(DayOf(run[0], dayKey), today, weekday, weekdaySymbols)
    ensures forall i :: 0 <= i < |run| ==> RoundHalfAway(Converted(run[i], isFahrenheit)) <= r.temperature
    ensures DayOf(run[0], dayKey) == today ==> r.day == "Today"
    ensures r.day == Label(DayOf(run[0], dayKey), today, weekday, weekdaySymbols)
    ensures exists k :: (0 <= k < |run| && FirstMaximumAt(run, isFahrenheit, k) &&
      r.temperature == RoundHalfAway(Converted(run[k], isFahrenheit)) &&
      (|run[k].weather| > 0 ==> r.condition == run[k].weather[0].main && r.icon == MapIcon(run[k].weather[0].icon)))
  {
    var a := Fold(run, isFahrenheit);
    FoldIsFirstMaximum(run, isFahrenheit);
    assert forall i :: 0 <= i < |run| ==> RoundHalfAway(Converted(run[i], isFahrenheit)) <= RoundHalfAway(a.maxTemp) by {
      forall i | 0 <= i < |run|
        ensures RoundHalfAway(Converted(run[i], isFahrenheit)) <= RoundHalfAway(a.maxTemp)
      {
        RoundHalfAwayMonotone(Converted(run[i], isFahrenheit), a.maxTemp);
      }
    }
    Record(a, Label(DayOf(run[0], dayKey), today, weekday, weekdaySymbols))
  }

  /** The records of the given runs, in order. */
  function Summaries(runs: seq<seq<Sample>>, dayKey: int -> int, today: int, weekday: int -> Weekday,
                     weekdaySymbols: seq<string>, isFahrenheit: bool): (r: seq<DayForecast>)
    requires forall k :: 0 <= k < |runs| ==>
      |runs[k]| > 0 && Labelable(DayOf(runs[k][0], dayKey), today, weekday, weekdaySymbols)
    ensures |r| == |runs|
    decreases |runs|
  {
    if |runs| == 0 then []
    else
      Summaries(runs[..|runs| - 1], dayKey, today, weekday, weekdaySymbols, isFahrenheit) +
      [Summary(runs[|runs| - 1], dayKey, today, weekday, weekdaySymbols, isFahrenheit)]
  }

  /** Record `k` is the summary of run `k`. */
  lemma {:induction false} SummariesAt(runs: seq<seq<Sample>>, dayKey: int -> int, today: int, weekday: int -> Weekday,
                                       weekdaySymbols: seq<string>, isFahrenheit: bool, k: int)
    requires forall j :: 0 <= j < |runs| ==>
      |runs[j]| > 0 && Labelable(DayOf(runs[j][0], dayKey), today, weekday, weekdaySymbols)
    requires 0 <= k < |runs|
    ensures Summaries(runs, dayKey, today, weekday, weekdaySymbols, isFahrenheit)[k] ==
      Summary(runs[k], dayKey, today, weekday, weekdaySymbols, isFahrenheit)
    decreases |runs|
  {
    if k < |runs| - 1 {
      SummariesAt(runs[..|runs| - 1], dayKey, today, weekday, weekdaySymbols, isFahrenheit, k);
    }
  }

  /** The record built from a folded run and its label. */
  function Record(a: Acc, dayLabel: string): DayForecast {
    DayForecast(RoundHalfAway(a.maxTemp), a.condition, dayLabel, MapIcon(a.icon))
  }

  /**
   * How many records the loop emits.  It stops once five exist, but the
   * check comes after the last sample's record is appended, so when the
   * sixth run is the single last sample both the fifth and the sixth record
   * are appended in that one step.
   */
  function EmittedCount(list: seq<Sample>, dayKey: int -> int): (n: nat)
    ensures n <= |Runs(list, dayKey)| && n <= 6
  {
    var runs := Runs(list, dayKey);
    if |runs| == 6 && |runs[5]| == 1 then 6
    else if |runs| < 5 then |runs| else 5
  }

  /** What `decodeToForecastModels(from:)` returns as written: the records of the first runs. */
  function EmittedForecasts(list: seq<Sample>, dayKey: int -> int, today: int, weekday: int -> Weekday,
                            weekdaySymbols: seq<string>, isFahrenheit: bool): (r: seq<DayForecast>)
    requires LabelsDefined(list, dayKey, today, weekday, weekdaySymbols, 6)
    ensures |r| == EmittedCount(list, dayKey)
  {
    Summaries(Runs(list, dayKey)[..EmittedCount(list, dayKey)], dayKey, today, weekday, weekdaySymbols, isFahrenheit)
  }

  /** The intended result: one record per run, for at most five runs. */
  function Forecasts(list: seq<Sample>, dayKey: int -> int, today: int, weekday: int -> Weekday,
                     weekdaySymbols: seq<string>, isFahrenheit: bool): (r: seq<DayForecast>)
    requires LabelsDefined(list, dayKey, today, weekday, weekdaySymbols, 5)
    ensures |r| <= 5
    ensures |r| == if |Runs(list, dayKey)| < 5 then |Runs(list, dayKey)| else 5
  {
    var runs := Runs(list, dayKey);
    Summaries(if |runs| < 5 then runs else runs[..5], dayKey, today, weekday, weekdaySymbols, isFahrenheit)
  }

  /**
   * Record `k` of the intended result folds run `k`: its temperature is the
   * rounded maximum of that run, reached first by some sample whose
   * condition and icon it carries, and it is labelled with the run's day.
   */
  lemma ForecastEntry(list: seq<Sample>, dayKey: int -> int, today: int, weekday: int -> Weekday,
                      weekdaySymbols: seq<string>, isFahrenheit: bool, k: int)
    requires LabelsDefined(list, dayKey, today, weekday, weekdaySymbols, 5)
    requires 0 <= k < |Forecasts(list, dayKey, today, weekday, weekdaySymbols, isFahrenheit)|
    ensures var run := Runs(list, dayKey)[k];
      var r := Forecasts(list, dayKey, today, weekday, weekdaySymbols, isFahrenheit)[k];
      r.day == Label(DayOf(run[0], dayKey), today, weekday, weekdaySymbols) &&
      (forall i :: 0 <= i < |run| ==> RoundHalfAway(Converted(run[i], isFahrenheit)) <= r.temperature) &&
      (exists i :: 0 <= i < |run| && FirstMaximumAt(run, isFahrenheit, i) &&
         r.temperature == RoundHalfAway(Converted(run[i], isFahrenheit)) &&
         (|run[i].weather| > 0 ==> r.condition == run[i].weather[0].main && r.icon == MapIcon(run[i].weather[0].icon)))
  {
    var runs := Runs(list, dayKey);
    var run := runs[k];
    SummariesAt(if |runs| < 5 then runs else runs[..5], dayKey, today, weekday, weekdaySymbols, isFahrenheit, k);
    FoldIsFirstMaximum(run, isFahrenheit);
    forall i | 0 <= i < |run|
      ensures RoundHalfAway(Converted(run[i], isFahrenheit)) <= RoundHalfAway(Fold(run, isFahrenheit).maxTemp)
    {
      RoundHalfAwayMonotone(Converted(run[i], isFahrenheit), Fold(run, isFahrenheit).maxTemp);
    }
  }

  /**
   * As written, the loop returns the intended records, or those and one
   * more: the sixth, exactly when the sixth and last run is a single sample.
   */
  lemma EmittedVersusIntended(list: seq<Sample>, dayKey: int -> int, today: int, weekday: int -> Weekday,
                              weekdaySymbols: seq<string>, isFahrenheit: bool)
    requires LabelsDefined(list, dayKey, today, weekday, weekdaySymbols, 6)
    ensures var e := EmittedForecasts(list, dayKey, today, weekday, weekdaySymbols, isFahrenheit);
      var f := Forecasts(list, dayKey, today, weekday, weekdaySymbols, isFahrenheit);
      (|e| <= 5 ==> e == f) && (|e| == 6 ==> e[..5] == f) &&
      (|e| == 6 <==> |Runs(list, dayKey)| == 6 && |Runs(list, dayKey)[5]| == 1)
  {
    var runs := Runs(list, dayKey);
    assert runs[..|runs|] == runs;
  }

  /** Six samples on six successive days: the loop as written returns six records. */
  lemma SixDaysGiveSixRecords()
    ensures var list := seq(6, i => Sample(i, 300.0, 300.0, []));
      var days := (t: int) => t;
      var weekday := (t: int) => 1 as Weekday;
      LabelsDefined(list, days, 0, weekday, ["Sun"], 6) &&
      |EmittedForecasts(list, days, 0, weekday, ["Sun"], false)| == 6 &&
      |Forecasts(list, days, 0, weekday, ["Sun"], false)| == 5
  {
    SixDaysSixRuns();
  }

  /** When neighbouring samples fall on different days, every sample is a run of its own. */
  lemma {:induction false} RunsOfChangingDays(s: seq<Sample>, dayKey: int -> int)
    requires forall i :: 0 < i < |s| ==> DayOf(s[i - 1], dayKey) != DayOf(s[i], dayKey)
    ensures |Runs(s, dayKey)| == |s|
    ensures forall k :: 0 <= k < |s| ==> Runs(s, dayKey)[k] == [s[k]]
    decreases |s|
  {
    if |s| > 0 {
      var init := s[..|s| - 1];
      RunsOfChangingDays(init, dayKey);
      var p := Runs(init, dayKey);
      var x := s[|s| - 1];
      if |p| > 0 {
        assert p[|p| - 1] == [s[|s| - 2]];
      }
      var r := Runs(s, dayKey);
      assert r == p + [[x]];
      forall k | 0 <= k < |s|
        ensures r[k] == [s[k]]
      {
        if k < |p| {
          assert r[k] == p[k];
        }
      }
    }
  }

  /** Six samples on six different days make six runs, the last of one sample. */
  lemma SixDaysSixRuns()
    ensures var list := seq(6, i => Sample(i, 300.0, 300.0, []));
      |Runs(list, (t: int) => t)| == 6 && |Runs(list, (t: int) => t)[5]| == 1
  {
    var list := seq(6, i => Sample(i, 300.0, 300.0, []));
    RunsOfChangingDays(list, (t: int) => t);
  }

  /**
   * The folding of `p` is a stage of the folding of `q`: the runs before the
   * last are already final, and the last run so far is a prefix of the run
   * it grows into.
   */
  ghost predicate Extends(p: seq<seq<Sample>>, q: seq<seq<Sample>>) {
    0 < |p| <= |q| && p[..|p| - 1] == q[..|p| - 1] && p[|p| - 1] <= q[|p| - 1]
  }

  lemma RunsStep(s: seq<Sample>, j: int, dayKey: int -> int)
    requires 1 <= j < |s|
    ensures Extends(Runs(s[..j], dayKey), Runs(s[..j + 1], dayKey))
  {
    assert s[..j + 1][..j] == s[..j];
  }

  lemma ExtendsTransitive(p: seq<seq<Sample>>, q: seq<seq<Sample>>, r: seq<seq<Sample>>)
    requires Extends(p, q) && Extends(q, r)
    ensures Extends(p, r)
  {
    if |p| < |q| {
      assert q[|p| - 1] == q[..|q| - 1][|p| - 1] == r[..|q| - 1][|p| - 1] == r[|p| - 1];
      assert p[..|p| - 1] == q[..|q| - 1][..|p| - 1] == r[..|q| - 1][..|p| - 1];
    }
  }

  /** The runs of a non-empty prefix of the input are a stage of the runs of the input. */
  lemma {:induction false} RunsOfPrefix(s: seq<Sample>, i: int, dayKey: int -> int)
    requires 1 <= i <= |s|
    ensures Extends(Runs(s[..i], dayKey), Runs(s, dayKey))
    decreases |s| - i
  {
    if i == |s| {
      assert s[..i] == s;
    } else {
      RunsStep(s, i, dayKey);
      RunsOfPrefix(s, i + 1, dayKey);
      ExtendsTransitive(Runs(s[..i], dayKey), Runs(s[..i + 1], dayKey), Runs(s, dayKey));
    }
  }

  /**
   * A stage with as many runs as the whole input, taken before its last
   * sample, has a last run shorter than the final one.
   */
  lemma StageShorter(list: seq<Sample>, i: int, dayKey: int -> int)
    requires 1 <= i < |list|
    requires |Runs(list[..i], dayKey)| == |Runs(list, dayKey)|
    ensures var p := Runs(list[..i], dayKey); var q := Runs(list, dayKey);
      |p[|p| - 1]| < |q[|q| - 1]|
  {
    var p := Runs(list[..i], dayKey);
    var q := Runs(list, dayKey);
    RunsOfPrefix(list, i, dayKey);
    RunsFlatten(list[..i], dayKey);
    RunsFlatten(list, dayKey);
    assert Flatten(p) == Flatten(p[..|p| - 1]) + p[|p| - 1];
    assert Flatten(q) == Flatten(q[..|q| - 1]) + q[|q| - 1];
  }

  /** Folding one more sample of the same run is one `Step`. */
  lemma FoldSnoc(run: seq<Sample>, x: Sample, isFahrenheit: bool)
    requires |run| > 0
    ensures Fold(run + [x], isFahrenheit) == Step(Fold(run, isFahrenheit), x, isFahrenheit)
  {
    assert (run + [x])[..|run|] == run;
  }

  /** The first sample opens the first run. */
  lemma FirstRun(list: seq<Sample>, dayKey: int -> int)
    requires |list| > 0
    ensures Runs(list[..1], dayKey) == [[list[0]]]
    ensures Extends([[list[0]]], Runs(list, dayKey))
  {
    assert list[..1][..0] == [];
    RunsOfPrefix(list, 1, dayKey);
  }

  /** A sample on a new day closes the last run, which is then final, and opens the next. */
  lemma NextRun(list: seq<Sample>, dayKey: int -> int, index: int, stage: seq<seq<Sample>>)
    requires 0 < index < |list| && stage == Runs(list[..index], dayKey)
    requires DayOf(list[index], dayKey) != DayOf(stage[|stage| - 1][0], dayKey)
    ensures Runs(list[..index + 1], dayKey) == stage + [[list[index]]]
    ensures Extends(stage + [[list[index]]], Runs(list, dayKey))
    ensures stage[|stage| - 1] == Runs(list, dayKey)[|stage| - 1]
  {
    assert list[..index + 1][..index] == list[..index];
    RunsOfPrefix(list, index + 1, dayKey);
    var r := Runs(list, dayKey);
    var p := stage + [[list[index]]];
    assert p[..|p| - 1] == stage;
    assert stage[|stage| - 1] == p[..|p| - 1][|stage| - 1] == r[..|p| - 1][|stage| - 1];
  }

  /** A sample on the same day extends the last run. */
  lemma SameRun(list: seq<Sample>, dayKey: int -> int, index: int, stage: seq<seq<Sample>>)
    requires 0 < index < |list| && stage == Runs(list[..index], dayKey)
    requires DayOf(list[index], dayKey) == DayOf(stage[|stage| - 1][0], dayKey)
    ensures Runs(list[..index + 1], dayKey) == stage[..|stage| - 1] + [stage[|stage| - 1] + [list[index]]]
    ensures Extends(stage[..|stage| - 1] + [stage[|stage| - 1] + [list[index]]], Runs(list, dayKey))
  {
    assert list[..index + 1][..index] == list[..index];
    RunsOfPrefix(list, index + 1, dayKey);
  }

  /** Appending the record of the next run. */
  lemma SummariesSnoc(runs: seq<seq<Sample>>, k: int, dayKey: int -> int, today: int, weekday: int -> Weekday,
                      weekdaySymbols: seq<string>, isFahrenheit: bool)
    requires 0 <= k < |runs|
    requires forall j :: 0 <= j <= k ==>
      |runs[j]| > 0 && Labelable(DayOf(runs[j][0], dayKey), today, weekday, weekdaySymbols)
    ensures Summaries(runs[..k + 1], dayKey, today, weekday, weekdaySymbols, isFahrenheit) ==
      Summaries(runs[..k], dayKey, today, weekday, weekdaySymbols, isFahrenheit) +
      [Summary(runs[k], dayKey, today, weekday, weekdaySymbols, isFahrenheit)]
  {
    assert runs[..k + 1][..k] == runs[..k];
  }

  /**
   * The loop's state after reading the samples before `index`, when it has
   * not stopped: the runs so far are a stage of the final runs, every run
   * but the open one has its record, and `lastDay`, the running maximum,
   * condition, icon and label are those of the open run.
   */
  ghost predicate Open(list: seq<Sample>, dayKey: int -> int, today: int, weekday: int -> Weekday,
                       weekdaySymbols: seq<string>, isFahrenheit: bool, index: int,
                       models: seq<DayForecast>, lastDay: Option<int>, acc: Acc, dayLabel: string)
    requires LabelsDefined(list, dayKey, today, weekday, weekdaySymbols, 6)
  {
    0 < index < |list| &&
    var stage := Runs(list[..index], dayKey);
    var runs := Runs(list, dayKey);
    Extends(stage, runs) && |stage| <= 5 &&
    models == Summaries(runs[..|stage| - 1], dayKey, today, weekday, weekdaySymbols, isFahrenheit) &&
    lastDay == Some(DayOf(runs[|stage| - 1][0], dayKey)) &&
    acc == Fold(stage[|stage| - 1], isFahrenheit) &&
    dayLabel == Label(DayOf(runs[|stage| - 1][0], dayKey), today, weekday, weekdaySymbols)
  }

  /** The first sample's day has a label. */
  lemma FirstLabelable(list: seq<Sample>, dayKey: int -> int, today: int, weekday: int -> Weekday,
                       weekdaySymbols: seq<string>)
    requires |list| > 0
    requires LabelsDefined(list, dayKey, today, weekday, weekdaySymbols, 6)
    ensures Labelable(DayOf(list[0], dayKey), today, weekday, weekdaySymbols)
  {
    FirstRun(list, dayKey);
    assert Runs(list, dayKey)[0][0] == list[0];
  }

  /**
   * After the first sample the first run is open, or, when it is the only
   * sample, its record is the whole result.
   */
  lemma BeginFirst(list: seq<Sample>, dayKey: int -> int, today: int, weekday: int -> Weekday,
                   weekdaySymbols: seq<string>, isFahrenheit: bool,
                   models: seq<DayForecast>, lastDay: Option<int>, acc: Acc, dayLabel: string)
    requires |list| > 0
    requires LabelsDefined(list, dayKey, today, weekday, weekdaySymbols, 6)
    requires Labelable(DayOf(list[0], dayKey), today, weekday, weekdaySymbols)
    requires lastDay == Some(DayOf(list[0], dayKey)) && acc == StartRun(list[0], isFahrenheit)
    requires dayLabel == Label(DayOf(list[0], dayKey), today, weekday, weekdaySymbols)
    requires models == if |list| == 1 then [Record(acc, dayLabel)] else []
    ensures 1 < |list| ==>
      Open(list, dayKey, today, weekday, weekdaySymbols, isFahrenheit, 1, models, lastDay, acc, dayLabel)
    ensures 1 == |list| ==> models == EmittedForecasts(list, dayKey, today, weekday, weekdaySymbols, isFahrenheit)
  {
    FirstRun(list, dayKey);
    var runs := Runs(list, dayKey);
    assert runs[0][0] == list[0];
    if |list| == 1 {
      assert list[..1] == list;
      assert runs[..1] == runs;
    }
  }

  /** The day of a sample that starts a new run has a label. */
  lemma NewDayLabelable(list: seq<Sample>, dayKey: int -> int, today: int, weekday: int -> Weekday,
                        weekdaySymbols: seq<string>, isFahrenheit: bool, index: int,
                        models: seq<DayForecast>, lastDay: Option<int>, acc: Acc, dayLabel: string)
    requires LabelsDefined(list, dayKey, today, weekday, weekdaySymbols, 6)
    requires Open(list, dayKey, today, weekday, weekdaySymbols, isFahrenheit, index, models, lastDay, acc, dayLabel)
    requires Some(DayOf(list[index], dayKey)) != lastDay
    ensures Labelable(DayOf(list[index], dayKey), today, weekday, weekdaySymbols)
  {
    var stage := Runs(list[..index], dayKey);
    var runs := Runs(list, dayKey);
    assert stage[|stage| - 1][0] == runs[|stage| - 1][0];
    NextRun(list, dayKey, index, stage);
    assert runs[|stage|][0] == (stage + [[list[index]]])[|stage|][0] == list[index];
  }

  /**
   * A sample on a new day closes the open run: its record is the next one,
   * and the sample opens a run of its own.
   */
  lemma NewDayCloses(list: seq<Sample>, dayKey: int -> int, today: int, weekday: int -> Weekday,
                     weekdaySymbols: seq<string>, isFahrenheit: bool, index: int,
                     models0: seq<DayForecast>, lastDay0: Option<int>, acc0: Acc, label0: string)
    requires LabelsDefined(list, dayKey, today, weekday, weekdaySymbols, 6)
    requires Open(list, dayKey, today, weekday, weekdaySymbols, isFahrenheit, index, models0, lastDay0, acc0, label0)
    requires Some(DayOf(list[index], dayKey)) != lastDay0
    ensures var stage := Runs(list[..index], dayKey); var runs := Runs(list, dayKey);
      Runs(list[..index + 1], dayKey) == stage + [[list[index]]] &&
      Extends(stage + [[list[index]]], runs) && |stage| <= 5 && runs[|stage|][0] == list[index] &&
      models0 + [Record(acc0, label0)] == Summaries(runs[..|stage|], dayKey, today, weekday, weekdaySymbols, isFahrenheit)
  {
    var stage := Runs(list[..index], dayKey);
    var runs := Runs(list, dayKey);
    var x := list[index];
    assert stage[|stage| - 1][0] == runs[|stage| - 1][0];
    NextRun(list, dayKey, index, stage);
    var next := stage + [[x]];
    assert runs[|stage|][0] == next[|stage|][0] == x;
    SummariesSnoc(runs, |stage| - 1, dayKey, today, weekday, weekdaySymbols, isFahrenheit);
  }

  /** A new day before the last sample, with fewer than five records: the new run is open. */
  lemma NewDayOpens(list: seq<Sample>, dayKey: int -> int, today: int, weekday: int -> Weekday,
                    weekdaySymbols: seq<string>, isFahrenheit: bool, index: int,
                    models0: seq<DayForecast>, lastDay0: Option<int>, acc0: Acc, label0: string)
    requires LabelsDefined(list, dayKey, today, weekday, weekdaySymbols, 6)
    requires Open(list, dayKey, today, weekday, weekdaySymbols, isFahrenheit, index, models0, lastDay0, acc0, label0)
    requires Some(DayOf(list[index], dayKey)) != lastDay0
    requires index + 1 < |list|
    ensures Labelable(DayOf(list[index], dayKey), today, weekday, weekdaySymbols)
    ensures |models0| + 1 <= 5
    ensures |models0| + 1 < 5 ==> Open(list, dayKey, today, weekday, weekdaySymbols, isFahrenheit, index + 1,
                 models0 + [Record(acc0, label0)], Some(DayOf(list[index], dayKey)), StartRun(list[index], isFahrenheit),
                 Label(DayOf(list[index], dayKey), today, weekday, weekdaySymbols))
  {
    NewDayLabelable(list, dayKey, today, weekday, weekdaySymbols, isFahrenheit, index, models0, lastDay0, acc0, label0);
    NewDayCloses(list, dayKey, today, weekday, weekdaySymbols, isFahrenheit, index, models0, lastDay0, acc0, label0);
    var stage := Runs(list[..index], dayKey);
    var next := stage + [[list[index]]];
    assert next[|next| - 1] == [list[index]];
  }

  /** A new day before the last sample that completes five records: they are the result. */
  lemma NewDayStops(list: seq<Sample>, dayKey: int -> int, today: int, weekday: int -> Weekday,
                    weekdaySymbols: seq<string>, isFahrenheit: bool, index: int,
                    models0: seq<DayForecast>, lastDay0: Option<int>, acc0: Acc, label0: string)
    requires LabelsDefined(list, dayKey, today, weekday, weekdaySymbols, 6)
    requires Open(list, dayKey, today, weekday, weekdaySymbols, isFahrenheit, index, models0, lastDay0, acc0, label0)
    requires Some(DayOf(list[index], dayKey)) != lastDay0
    requires index + 1 < |list|
    ensures |models0| + 1 <= 5
    ensures |models0| + 1 == 5 ==>
      models0 + [Record(acc0, label0)] == EmittedForecasts(list, dayKey, today, weekday, weekdaySymbols, isFahrenheit)
  {
    NewDayCloses(list, dayKey, today, weekday, weekdaySymbols, isFahrenheit, index, models0, lastDay0, acc0, label0);
    var runs := Runs(list, dayKey);
    if |models0| + 1 == 5 && |runs| == 6 {
      StageShorter(list, index + 1, dayKey);
    }
  }

  /** A new day at the last sample: the closed run's record and the new run's record end the result. */
  lemma NewDayLast(list: seq<Sample>, dayKey: int -> int, today: int, weekday: int -> Weekday,
                   weekdaySymbols: seq<string>, isFahrenheit: bool, index: int,
                   models0: seq<DayForecast>, lastDay0: Option<int>, acc0: Acc, label0: string)
    requires LabelsDefined(list, dayKey, today, weekday, weekdaySymbols, 6)
    requires Open(list, dayKey, today, weekday, weekdaySymbols, isFahrenheit, index, models0, lastDay0, acc0, label0)
    requires Some(DayOf(list[index], dayKey)) != lastDay0
    requires index + 1 == |list|
    requires Labelable(DayOf(list[index], dayKey), today, weekday, weekdaySymbols)
    ensures models0 + [Record(acc0, label0)] +
      [Record(StartRun(list[index], isFahrenheit), Label(DayOf(list[index], dayKey), today, weekday, weekdaySymbols))] ==
      EmittedForecasts(list, dayKey, today, weekday, weekdaySymbols, isFahrenheit)
  {
    NewDayCloses(list, dayKey, today, weekday, weekdaySymbols, isFahrenheit, index, models0, lastDay0, acc0, label0);
    var stage := Runs(list[..index], dayKey);
    var runs := Runs(list, dayKey);
    assert list[..index + 1] == list;
    assert runs == stage + [[list[index]]];
    assert runs[|stage|] == [list[index]];
    EmittedAll(list, dayKey, today, weekday, weekdaySymbols, isFahrenheit);
  }

  /** A sample on the open run's day extends the open run, whose fold takes one more step. */
  lemma SameDayCloses(list: seq<Sample>, dayKey: int -> int, today: int, weekday: int -> Weekday,
                      weekdaySymbols: seq<string>, isFahrenheit: bool, index: int,
                      models0: seq<DayForecast>, lastDay0: Option<int>, acc0: Acc, label0: string)
    requires LabelsDefined(list, dayKey, today, weekday, weekdaySymbols, 6)
    requires Open(list, dayKey, today, weekday, weekdaySymbols, isFahrenheit, index, models0, lastDay0, acc0, label0)
    requires Some(DayOf(list[index], dayKey)) == lastDay0
    ensures var stage := Runs(list[..index], dayKey);
      var next := stage[..|stage| - 1] + [stage[|stage| - 1] + [list[index]]];
      Runs(list[..index + 1], dayKey) == next && Extends(next, Runs(list, dayKey)) &&
      |next| == |stage| && |next| <= 5 && |models0| == |next| - 1 &&
      Fold(next[|next| - 1], isFahrenheit) == Step(acc0, list[index], isFahrenheit) &&
      next[|next| - 1][0] == Runs(list, dayKey)[|stage| - 1][0]
  {
    var stage := Runs(list[..index], dayKey);
    var runs := Runs(list, dayKey);
    var x := list[index];
    assert stage[|stage| - 1][0] == runs[|stage| - 1][0];
    SameRun(list, dayKey, index, stage);
    FoldSnoc(stage[|stage| - 1], x, isFahrenheit);
    var next := stage[..|stage| - 1] + [stage[|stage| - 1] + [x]];
    assert next[|next| - 1] == stage[|stage| - 1] + [x];
  }

  /** A sample on the open run's day, before the last sample, is folded into the open run. */
  lemma SameDayFolds(list: seq<Sample>, dayKey: int -> int, today: int, weekday: int -> Weekday,
                     weekdaySymbols: seq<string>, isFahrenheit: bool, index: int,
                     models0: seq<DayForecast>, lastDay0: Option<int>, acc0: Acc, label0: string)
    requires LabelsDefined(list, dayKey, today, weekday, weekdaySymbols, 6)
    requires Open(list, dayKey, today, weekday, weekdaySymbols, isFahrenheit, index, models0, lastDay0, acc0, label0)
    requires Some(DayOf(list[index], dayKey)) == lastDay0
    requires index + 1 < |list|
    ensures |models0| < 5
    ensures Open(list, dayKey, today, weekday, weekdaySymbols, isFahrenheit, index + 1,
                 models0, lastDay0, Step(acc0, list[index], isFahrenheit), label0)
  {
    SameDayCloses(list, dayKey, today, weekday, weekdaySymbols, isFahrenheit, index, models0, lastDay0, acc0, label0);
  }

  /** A sample on the open run's day at the last sample: the open run's record ends the result. */
  lemma SameDayLast(list: seq<Sample>, dayKey: int -> int, today: int, weekday: int -> Weekday,
                    weekdaySymbols: seq<string>, isFahrenheit: bool, index: int,
                    models0: seq<DayForecast>, lastDay0: Option<int>, acc0: Acc, label0: string)
    requires LabelsDefined(list, dayKey, today, weekday, weekdaySymbols, 6)
    requires Open(list, dayKey, today, weekday, weekdaySymbols, isFahrenheit, index, models0, lastDay0, acc0, label0)
    requires Some(DayOf(list[index], dayKey)) == lastDay0
    requires index + 1 == |list|
    ensures models0 + [Record(Step(acc0, list[index], isFahrenheit), label0)] ==
      EmittedForecasts(list, dayKey, today, weekday, weekdaySymbols, isFahrenheit)
  {
    SameDayCloses(list, dayKey, today, weekday, weekdaySymbols, isFahrenheit, index, models0, lastDay0, acc0, label0);
    var stage := Runs(list[..index], dayKey);
    var runs := Runs(list, dayKey);
    assert list[..index + 1] == list;
    var k := |stage| - 1;
    assert |runs| == k + 1 <= 5;
    assert runs[k][0] == stage[k][0];
    EmittedAll(list, dayKey, today, weekday, weekdaySymbols, isFahrenheit);
  }

  /** When every run is emitted, the result is the records of the runs before the last, then the last one's. */
  lemma EmittedAll(list: seq<Sample>, dayKey: int -> int, today: int, weekday: int -> Weekday,
                   weekdaySymbols: seq<string>, isFahrenheit: bool)
    requires LabelsDefined(list, dayKey, today, weekday, weekdaySymbols, 6)
    requires |Runs(list, dayKey)| <= 5 || (|Runs(list, dayKey)| == 6 && |Runs(list, dayKey)[5]| == 1)
    requires |list| > 0
    ensures var runs := Runs(list, dayKey); var k := |runs| - 1;
      0 <= k < 6 &&
      EmittedForecasts(list, dayKey, today, weekday, weekdaySymbols, isFahrenheit) ==
      Summaries(runs[..k], dayKey, today, weekday, weekdaySymbols, isFahrenheit) +
      [Summary(runs[k], dayKey, today, weekday, weekdaySymbols, isFahrenheit)]
  {
    var runs := Runs(list, dayKey);
    assert EmittedCount(list, dayKey) == |runs|;
    SummariesSnoc(runs, |runs| - 1, dayKey, today, weekday, weekdaySymbols, isFahrenheit);
    assert runs[..|runs|] == runs;
  }

  // ---------------------------------------------------------------- the loop, one sample at a time

  /** The loop's variables between iterations, and whether it has stopped. */
  datatype Scan = Scan(models: seq<DayForecast>, lastDay: Option<int>, acc: Acc, dayLabel: string, stopped: bool)

  /** The label the loop computes; only ever read when the day is labelable. */
  ghost function ScanLabel(day: int, today: int, weekday: int -> Weekday, weekdaySymbols: seq<string>): string {
    if Labelable(day, today, weekday, weekdaySymbols) then Label(day, today, weekday, weekdaySymbols) else ""
  }

  /** The first sample sets the open run (`if lastDay == nil`). */
  ghost function StartFirst(st: Scan, x: Sample, dayKey: int -> int, today: int,
                            weekday: int -> Weekday, weekdaySymbols: seq<string>, isFahrenheit: bool): Scan
  {
    if st.lastDay.None? then
      var day := DayOf(x, dayKey);
      Scan(st.models, Some(day), StartRun(x, isFahrenheit), ScanLabel(day, today, weekday, weekdaySymbols), false)
    else st
  }

  /** A new day emits the open run's record and opens a run; the same day folds the sample in. */
  ghost function ReadSample(st: Scan, x: Sample, dayKey: int -> int, today: int,
                            weekday: int -> Weekday, weekdaySymbols: seq<string>, isFahrenheit: bool): Scan
  {
    var day := DayOf(x, dayKey);
    if Some(day) != st.lastDay then
      Scan(st.models + [Record(st.acc, st.dayLabel)], Some(day), StartRun(x, isFahrenheit),
           ScanLabel(day, today, weekday, weekdaySymbols), false)
    else Scan(st.models, st.lastDay, Step(st.acc, x, isFahrenheit), st.dayLabel, false)
  }

  /** The last sample emits the open run's record; five records stop the loop. */
  ghost function EmitLast(st: Scan, isLast: bool): Scan {
    var models := if isLast then st.models + [Record(st.acc, st.dayLabel)] else st.models;
    Scan(models, st.lastDay, st.acc, st.dayLabel, |models| == 5)
  }

  /** One iteration of the loop on sample `x`; `isLast` when `x` is the last sample. */
  ghost function ScanStep(st: Scan, x: Sample, isLast: bool, dayKey: int -> int, today: int,
                          weekday: int -> Weekday, weekdaySymbols: seq<string>, isFahrenheit: bool): Scan
  {
    if st.stopped then st
    else
      EmitLast(ReadSample(StartFirst(st, x, dayKey, today, weekday, weekdaySymbols, isFahrenheit),
                          x, dayKey, today, weekday, weekdaySymbols, isFahrenheit), isLast)
  }

  /** The loop's variables after the first `i` samples. */
  ghost function ScanOf(list: seq<Sample>, i: int, dayKey: int -> int, today: int,
                        weekday: int -> Weekday, weekdaySymbols: seq<string>, isFahrenheit: bool): Scan
    requires 0 <= i <= |list|
    decreases i
  {
    if i == 0 then Scan([], None, Acc(-1000.0, "", ""), "", false)
    else ScanStep(ScanOf(list, i - 1, dayKey, today, weekday, weekdaySymbols, isFahrenheit), list[i - 1], i == |list|,
                  dayKey, today, weekday, weekdaySymbols, isFahrenheit)
  }

  /** While the loop runs, its variables are those of an open run (`Open`). */
  lemma {:induction false} ScanOpen(list: seq<Sample>, i: int, dayKey: int -> int, today: int,
                                    weekday: int -> Weekday, weekdaySymbols: seq<string>, isFahrenheit: bool)
    requires LabelsDefined(list, dayKey, today, weekday, weekdaySymbols, 6)
    requires 0 < i < |list|
    requires !ScanOf(list, i, dayKey, today, weekday, weekdaySymbols, isFahrenheit).stopped
    ensures var st := ScanOf(list, i, dayKey, today, weekday, weekdaySymbols, isFahrenheit);
      Open(list, dayKey, today, weekday, weekdaySymbols, isFahrenheit, i, st.models, st.lastDay, st.acc, st.dayLabel)
    decreases i
  {
    var x := list[i - 1];
    var st := ScanOf(list, i, dayKey, today, weekday, weekdaySymbols, isFahrenheit);
    if i == 1 {
      FirstLabelable(list, dayKey, today, weekday, weekdaySymbols);
      assert Step(StartRun(x, isFahrenheit), x, isFahrenheit) == StartRun(x, isFahrenheit);
      BeginFirst(list, dayKey, today, weekday, weekdaySymbols, isFahrenheit, st.models, st.lastDay, st.acc, st.dayLabel);
    } else {
      var prev := ScanOf(list, i - 1, dayKey, today, weekday, weekdaySymbols, isFahrenheit);
      assert st == ScanStep(prev, x, false, dayKey, today, weekday, weekdaySymbols, isFahrenheit);
      assert !prev.stopped;
      ScanOpen(list, i - 1, dayKey, today, weekday, weekdaySymbols, isFahrenheit);
      var read := ReadSample(prev, x, dayKey, today, weekday, weekdaySymbols, isFahrenheit);
      assert st == EmitLast(read, false);
      OpenStep(list, dayKey, today, weekday, weekdaySymbols, isFahrenheit, i - 1, prev, read);
    }
  }

  /** Reading a sample before the last keeps the loop's variables those of an open run, unless it stops. */
  lemma OpenStep(list: seq<Sample>, dayKey: int -> int, today: int, weekday: int -> Weekday,
                 weekdaySymbols: seq<string>, isFahrenheit: bool, index: int, prev: Scan, read: Scan)
    requires LabelsDefined(list, dayKey, today, weekday, weekdaySymbols, 6)
    requires Open(list, dayKey, today, weekday, weekdaySymbols, isFahrenheit, index, prev.models, prev.lastDay, prev.acc, prev.dayLabel)
    requires index + 1 < |list|
    requires read == ReadSample(prev, list[index], dayKey, today, weekday, weekdaySymbols, isFahrenheit)
    requires |read.models| != 5
    ensures Open(list, dayKey, today, weekday, weekdaySymbols, isFahrenheit, index + 1, read.models, read.lastDay, read.acc, read.dayLabel)
  {
    var x := list[index];
    var day := DayOf(x, dayKey);
    if Some(day) != prev.lastDay {
      NewDayOpens(list, dayKey, today, weekday, weekdaySymbols, isFahrenheit, index,
                  prev.models, prev.lastDay, prev.acc, prev.dayLabel);
      assert read == Scan(prev.models + [Record(prev.acc, prev.dayLabel)], Some(day), StartRun(x, isFahrenheit),
                          Label(day, today, weekday, weekdaySymbols), false);
    } else {
      SameDayFolds(list, dayKey, today, weekday, weekdaySymbols, isFahrenheit, index,
                   prev.models, prev.lastDay, prev.acc, prev.dayLabel);
    }
  }

  /** When the loop stops, or runs out of samples, it holds the emitted records. */
  lemma ScanDone(list: seq<Sample>, i: int, dayKey: int -> int, today: int,
                 weekday: int -> Weekday, weekdaySymbols: seq<string>, isFahrenheit: bool, prev: Scan, st: Scan)
    requires LabelsDefined(list, dayKey, today, weekday, weekdaySymbols, 6)
    requires 0 < i <= |list|
    requires prev == ScanOf(list, i - 1, dayKey, today, weekday, weekdaySymbols, isFahrenheit) && !prev.stopped
    requires st == EmitLast(ReadSample(StartFirst(prev, list[i - 1], dayKey, today, weekday, weekdaySymbols, isFahrenheit),
                                       list[i - 1], dayKey, today, weekday, weekdaySymbols, isFahrenheit), i == |list|)
    ensures ScanOf(list, i, dayKey, today, weekday, weekdaySymbols, isFahrenheit) == st
    ensures i == |list| || st.stopped ==> st.models == EmittedForecasts(list, dayKey, today, weekday, weekdaySymbols, isFahrenheit)
  {
    var x := list[i - 1];
    assert st == ScanStep(prev, x, i == |list|, dayKey, today, weekday, weekdaySymbols, isFahrenheit);
    if i == 1 {
      ScanDoneFirst(list, dayKey, today, weekday, weekdaySymbols, isFahrenheit, prev, st);
    } else {
      var read := ReadSample(prev, x, dayKey, today, weekday, weekdaySymbols, isFahrenheit);
      assert st == EmitLast(read, i == |list|);
      CloseStep(list, dayKey, today, weekday, weekdaySymbols, isFahrenheit, i - 1, prev, read);
    }
  }

  /** The first sample opens the first run, and completes the result when it is the only one. */
  lemma ScanDoneFirst(list: seq<Sample>, dayKey: int -> int, today: int,
                      weekday: int -> Weekday, weekdaySymbols: seq<string>, isFahrenheit: bool, prev: Scan, st: Scan)
    requires LabelsDefined(list, dayKey, today, weekday, weekdaySymbols, 6)
    requires 0 < |list|
    requires prev == Scan([], None, Acc(-1000.0, "", ""), "", false)
    requires st == EmitLast(ReadSample(StartFirst(prev, list[0], dayKey, today, weekday, weekdaySymbols, isFahrenheit),
                                       list[0], dayKey, today, weekday, weekdaySymbols, isFahrenheit), |list| == 1)
    ensures |list| == 1 || st.stopped ==> st.models == EmittedForecasts(list, dayKey, today, weekday, weekdaySymbols, isFahrenheit)
  {
    var x := list[0];
    FirstLabelable(list, dayKey, today, weekday, weekdaySymbols);
    var acc := StartRun(x, isFahrenheit);
    var firstLabel := Label(DayOf(x, dayKey), today, weekday, weekdaySymbols);
    assert Step(acc, x, isFahrenheit) == acc;
    assert st.models == (if |list| == 1 then [Record(acc, firstLabel)] else []);
    BeginFirst(list, dayKey, today, weekday, weekdaySymbols, isFahrenheit, st.models, st.lastDay, st.acc, st.dayLabel);
  }

  /** Reading a sample while a run is open: at the last sample, or at five records, the result is complete. */
  lemma CloseStep(list: seq<Sample>, dayKey: int -> int, today: int, weekday: int -> Weekday,
                  weekdaySymbols: seq<string>, isFahrenheit: bool, index: int, prev: Scan, read: Scan)
    requires LabelsDefined(list, dayKey, today, weekday, weekdaySymbols, 6)
    requires 0 < index < |list|
    requires prev == ScanOf(list, index, dayKey, today, weekday, weekdaySymbols, isFahrenheit) && !prev.stopped
    requires read == ReadSample(prev, list[index], dayKey, today, weekday, weekdaySymbols, isFahrenheit)
    ensures var done := EmitLast(read, index + 1 == |list|);
      index + 1 == |list| || done.stopped ==> done.models == EmittedForecasts(list, dayKey, today, weekday, weekdaySymbols, isFahrenheit)
  {
    ScanOpen(list, index, dayKey, today, weekday, weekdaySymbols, isFahrenheit);
    var x := list[index];
    var day := DayOf(x, dayKey);
    if Some(day) != prev.lastDay {
      NewDayLabelable(list, dayKey, today, weekday, weekdaySymbols, isFahrenheit, index,
                      prev.models, prev.lastDay, prev.acc, prev.dayLabel);
      var closed := prev.models + [Record(prev.acc, prev.dayLabel)];
      assert read.models == closed;
      if index + 1 < |list| {
        NewDayStops(list, dayKey, today, weekday, weekdaySymbols, isFahrenheit, index,
                    prev.models, prev.lastDay, prev.acc, prev.dayLabel);
      } else {
        assert read.acc == StartRun(x, isFahrenheit) && read.dayLabel == Label(day, today, weekday, weekdaySymbols);
        NewDayLast(list, dayKey, today, weekday, weekdaySymbols, isFahrenheit, index,
                   prev.models, prev.lastDay, prev.acc, prev.dayLabel);
      }
    } else if index + 1 < |list| {
      SameDayFolds(list, dayKey, today, weekday, weekdaySymbols, isFahrenheit, index,
                   prev.models, prev.lastDay, prev.acc, prev.dayLabel);
    } else {
      SameDayLast(list, dayKey, today, weekday, weekdaySymbols, isFahrenheit, index,
                  prev.models, prev.lastDay, prev.acc, prev.dayLabel);
    }
  }

  /** A sample that opens a new run, read while the loop runs, has a label. */
  lemma ScanLabelable(list: seq<Sample>, i: int, dayKey: int -> int, today: int,
                      weekday: int -> Weekday, weekdaySymbols: seq<string>, isFahrenheit: bool)
    requires LabelsDefined(list, dayKey, today, weekday, weekdaySymbols, 6)
    requires 0 <= i < |list|
    requires !ScanOf(list, i, dayKey, today, weekday, weekdaySymbols, isFahrenheit).stopped
    requires Some(DayOf(list[i], dayKey)) != ScanOf(list, i, dayKey, today, weekday, weekdaySymbols, isFahrenheit).lastDay
    ensures Labelable(DayOf(list[i], dayKey), today, weekday, weekdaySymbols)
  {
    if i == 0 {
      FirstLabelable(list, dayKey, today, weekday, weekdaySymbols);
    } else {
      var st := ScanOf(list, i, dayKey, today, weekday, weekdaySymbols, isFahrenheit);
      ScanOpen(list, i, dayKey, today, weekday, weekdaySymbols, isFahrenheit);
      NewDayLabelable(list, dayKey, today, weekday, weekdaySymbols, isFahrenheit, i,
                      st.models, st.lastDay, st.acc, st.dayLabel);
    }
  }

  /**
   * The body of the loop in `decodeToForecastModels` for one sample
   * `forecast`, `isLast` when it is the last one: start the first run if none
   * is open, close the open run and open a new one when the day changes,
   * otherwise keep the warmer reading, and emit the open run at the last
   * sample.  The label of a day is only computed when it is labelable.
   */
  method ReadForecast(forecast: Sample, isLast: bool, dayKey: int -> int, today: int,
                      weekday: int -> Weekday, weekdaySymbols: seq<string>, isF: bool,
                      models0: seq<DayForecast>, lastDay0: Option<int>, maxTemp0: real,
                      condition0: string, icon0: string, label0: string)
    returns (models: seq<DayForecast>, lastDay: Option<int>, maxTemp: real,
             conditionDescription: string, iconCode: string, dayLabel: string)
    requires Some(DayOf(forecast, dayKey)) != lastDay0 ==> Labelable(DayOf(forecast, dayKey), today, weekday, weekdaySymbols)
    ensures Scan(models, lastDay, Acc(maxTemp, conditionDescription, iconCode), dayLabel, |models| == 5) ==
      EmitLast(ReadSample(StartFirst(Scan(models0, lastDay0, Acc(maxTemp0, condition0, icon0), label0, false),
                                     forecast, dayKey, today, weekday, weekdaySymbols, isF),
                          forecast, dayKey, today, weekday, weekdaySymbols, isF), isLast)
  {
    models, lastDay, maxTemp, conditionDescription, iconCode, dayLabel :=
      models0, lastDay0, maxTemp0, condition0, icon0, label0;
    var day := dayKey(forecast.dt);
    var temp := if isF then forecast.temp * 9.0 / 5.0 - 459.67 else forecast.temp - 273.15;

    if lastDay == None {
      lastDay := Some(day);
      maxTemp := temp;
      conditionDescription := if |forecast.weather| > 0 then forecast.weather[0].main else "";
      iconCode := if |forecast.weather| > 0 then forecast.weather[0].icon else "";
      dayLabel := if day == today then "Today" else weekdaySymbols[weekday(day) - 1];
    }

    if Some(day) != lastDay {
      models := models + [DayForecast(RoundHalfAway(maxTemp), conditionDescription, dayLabel, MapIcon(iconCode))];
      lastDay := Some(day);
      maxTemp := temp;
      conditionDescription := if |forecast.weather| > 0 then forecast.weather[0].main else "";
      iconCode := if |forecast.weather| > 0 then forecast.weather[0].icon else "";
      dayLabel := if day == today then "Today" else weekdaySymbols[weekday(day) - 1];
    } else {
      if temp > maxTemp {
        maxTemp := temp;
        conditionDescription := if |forecast.weather| > 0 then forecast.weather[0].main else conditionDescription;
        iconCode := if |forecast.weather| > 0 then forecast.weather[0].icon else iconCode;
      }
    }

    if isLast {
      models := models + [DayForecast(RoundHalfAway(maxTemp), conditionDescription, dayLabel, MapIcon(iconCode))];
    }
  }

  class ForecastViewModel {
    var forecasts: seq<DayForecast>
    var selectedIndex: int
    var isFahrenheit: bool
    var currentCity: string
    var isLoading: bool
    /** Whether `weatherService` has been set. */
    var hasService: bool

    constructor ()
      ensures forecasts == [] && selectedIndex == 0 && !isFahrenheit
      ensures currentCity == "" && !isLoading && !hasService
    {
      forecasts := [];
      selectedIndex := 0;
      isFahrenheit := false;
      currentCity := "";
      isLoading := false;
      hasService := false;
    }

    /**
     * `decodeToForecastModels(from:)`: one record per maximal run of
     * same-day samples, emitted when the day changes or at the last sample,
     * stopping once five records exist.  The label of the run that starts
     * after the fifth is computed before the loop stops, so labels of the
     * first six runs must exist.
     */
    method DecodeToForecastModels(response: ForecastResponse, dayKey: int -> int, today: int,
                                  weekday: int -> Weekday, weekdaySymbols: seq<string>)
      returns (models: seq<DayForecast>)
      requires LabelsDefined(response.list, dayKey, today, weekday, weekdaySymbols, 6)
      ensures models == EmittedForecasts(response.list, dayKey, today, weekday, weekdaySymbols, isFahrenheit)
    {
      var list := response.list;
      models := [];
      var lastDay: Option<int> := None;
      var maxTemp: real := -1000.0;
      var conditionDescription: string := "";
      var iconCode: string := "";
      var dayLabel: string := "";
      var isF := isFahrenheit;

      var index := 0;
      while index < |list|
        invariant 0 <= index <= |list|
        invariant index == 0 ==> models == []
        invariant index < |list| ==>
          Scan(models, lastDay, Acc(maxTemp, conditionDescription, iconCode), dayLabel, false) ==
          ScanOf(list, index, dayKey, today, weekday, weekdaySymbols, isF)
        invariant 0 < index == |list| ==> models == EmittedForecasts(list, dayKey, today, weekday, weekdaySymbols, isF)
        decreases |list| - index
      {
        ghost var st := ScanOf(list, index, dayKey, today, weekday, weekdaySymbols, isF);
        if Some(DayOf(list[index], dayKey)) != lastDay {
          ScanLabelable(list, index, dayKey, today, weekday, weekdaySymbols, isF);
        }
        models, lastDay, maxTemp, conditionDescription, iconCode, dayLabel :=
          ReadForecast(list[index], index == |list| - 1, dayKey, today, weekday, weekdaySymbols, isF,
                       models, lastDay, maxTemp, conditionDescription, iconCode, dayLabel);
        ghost var next := Scan(models, lastDay, Acc(maxTemp, conditionDescription, iconCode), dayLabel, |models| == 5);
        ScanDone(list, index + 1, dayKey, today, weekday, weekdaySymbols, isF, st, next);

        if |models| == 5 {
          break;
        }
        index := index + 1;
      }
      if |list| == 0 {
        assert EmittedCount(list, dayKey) == 0;
      }
    }

    /**
     * The decoder with the cap it evidently intends: the records of the loop
     * as written, cut to five, are one record per run for at most five runs.
     */
    method DecodeToForecastModelsCapped(response: ForecastResponse, dayKey: int -> int, today: int,
                                        weekday: int -> Weekday, weekdaySymbols: seq<string>)
      returns (models: seq<DayForecast>)
      requires LabelsDefined(response.list, dayKey, today, weekday, weekdaySymbols, 6)
      ensures |models| <= 5
      ensures models == Forecasts(response.list, dayKey, today, weekday, weekdaySymbols, isFahrenheit)
    {
      models := DecodeToForecastModels(response, dayKey, today, weekday, weekdaySymbols);
      EmittedVersusIntended(response.list, dayKey, today, weekday, weekdaySymbols, isFahrenheit);
      if |models| > 5 {
        models := models[..5];
      }
    }

    /**
     * `fetchWeatherForCity(_:)`.  There is no busy guard: a fetch while
     * another is in flight goes ahead.  Without a service nothing changes and
     * nothing is sent.  A successful response sets the city to the name that
     * was asked for (not the name in the response) and replaces the
     * forecasts; a failed one leaves both alone; the busy flag is clear on
     * exit either way.
     */
    method FetchWeatherForCity(cityName: string, outcome: FetchOutcome, dayKey: int -> int, today: int,
                               weekday: int -> Weekday, weekdaySymbols: seq<string>)
      returns (query: Option<Query>)
      requires outcome.Fetched? ==> LabelsDefined(outcome.response.list, dayKey, today, weekday, weekdaySymbols, 6)
      modifies this
      ensures hasService == old(hasService) && isFahrenheit == old(isFahrenheit) && selectedIndex == old(selectedIndex)
      ensures !hasService ==>
        query == None && isLoading == old(isLoading) &&
        forecasts == old(forecasts) && currentCity == old(currentCity)
      ensures hasService ==> query == Some(ByCity(cityName, None)) && !isLoading
      ensures hasService && outcome.Fetched? ==>
        currentCity == cityName &&
        forecasts == EmittedForecasts(outcome.response.list, dayKey, today, weekday, weekdaySymbols, isFahrenheit)
      ensures outcome.FetchFailed? ==> forecasts == old(forecasts) && currentCity == old(currentCity)
    {
      query := None;
      if !hasService {
        return;
      }
      isLoading := true;
      query := Some(ByCity(cityName, None));
      match outcome {
        case Fetched(response) =>
          currentCity := cityName;
          forecasts := DecodeToForecastModels(response, dayKey, today, weekday, weekdaySymbols);
        case FetchFailed =>
      }
      isLoading := false;
    }

    /**
     * `fetchWeatherForLocation(_:)`: as the city fetch, but the city becomes
     * the name the response carries.
     */
    method FetchWeatherForLocation(latitude: real, longitude: real, outcome: FetchOutcome, dayKey: int -> int,
                                   today: int, weekday: int -> Weekday, weekdaySymbols: seq<string>)
      returns (query: Option<Query>)
      requires outcome.Fetched? ==> LabelsDefined(outcome.response.list, dayKey, today, weekday, weekdaySymbols, 6)
      modifies this
      ensures hasService == old(hasService) && isFahrenheit == old(isFahrenheit) && selectedIndex == old(selectedIndex)
      ensures !hasService ==>
        query == None && isLoading == old(isLoading) &&
        forecasts == old(forecasts) && currentCity == old(currentCity)
      ensures hasService ==> query == Some(ByCoordinate(latitude, longitude)) && !isLoading
      ensures hasService && outcome.Fetched? ==>
        currentCity == outcome.response.cityName &&
        forecasts == EmittedForecasts(outcome.response.list, dayKey, today, weekday, weekdaySymbols, isFahrenheit)
      ensures outcome.FetchFailed? ==> forecasts == old(forecasts) && currentCity == old(currentCity)
    {
      query := None;
      if !hasService {
        return;
      }
      isLoading := true;
      query := Some(ByCoordinate(latitude, longitude));
      match outcome {
        case Fetched(response) =>
          currentCity := response.cityName;
          forecasts := DecodeToForecastModels(response, dayKey, today, weekday, weekdaySymbols);
        case FetchFailed =>
      }
      isLoading := false;
    }

    /** `fetchWeatherForLasVegas()`: a coordinate fetch at 36.1699, -115.1398. */
    method FetchWeatherForLasVegas(outcome: FetchOutcome, dayKey: int -> int, today: int,
                                   weekday: int -> Weekday, weekdaySymbols: seq<string>)
      returns (query: Option<Query>)
      requires outcome.Fetched? ==> LabelsDefined(outcome.response.list, dayKey, today, weekday, weekdaySymbols, 6)
      modifies this
      ensures hasService == old(hasService) && isFahrenheit == old(isFahrenheit) && selectedIndex == old(selectedIndex)
      ensures !hasService ==>
        query == None && isLoading == old(isLoading) &&
        forecasts == old(forecasts) && currentCity == old(currentCity)
      ensures hasService ==> query == Some(ByCoordinate(36.1699, -115.1398)) && !isLoading
      ensures hasService && outcome.Fetched? ==>
        currentCity == outcome.response.cityName &&
        forecasts == EmittedForecasts(outcome.response.list, dayKey, today, weekday, weekdaySymbols, isFahrenheit)
      ensures outcome.FetchFailed? ==> forecasts == old(forecasts) && currentCity == old(currentCity)
    {
      query := FetchWeatherForLocation(36.1699, -115.1398, outcome, dayKey, today, weekday, weekdaySymbols);
    }
  }
}
