/**
 * The current forecast view model: it groups the 3-hour samples by calendar
 * day, keeps the five earliest days in ascending order and builds one
 * display record per day; and it guards its fetches with a busy flag.
 *
 * The calendar is a parameter: `dayKey` is `Calendar.startOfDay` on a
 * timestamp, `weekday` is `Calendar.component(.weekday, …)` on a day key,
 * `shortWeekdays` is the formatter's `shortWeekdaySymbols`, and `capitalize`
 * is Foundation's `.capitalized`.
 */
module CurrentForecast {
  import opened Wrappers
  import opened Numerics
  import opened OpenWeather

  /** The record this view model builds for each day. */
  datatype DayForecast = DayForecast(
    day: string,
    temperature: string,
    openWeatherIconCode: string,
    isFahrenheit: bool,
    condition: string)

  /** Placeholder condition text when a sample has no `weather` element. */
  const NoCondition := "—"

  /** The distinct day keys present in the samples (the dictionary's keys). */
  function DayKeys(list: seq<Sample>, dayKey: int -> int): set<int> {
    set i | 0 <= i < |list| :: dayKey(list[i].dt)
  }

  /** Index of the first sample on `day`, or `|list|` when there is none. */
  function FirstIndexOn(list: seq<Sample>, dayKey: int -> int, day: int): (i: nat)
    ensures i <= |list|
    ensures forall j :: 0 <= j < i ==> dayKey(list[j].dt) != day
    ensures i < |list| ==> dayKey(list[i].dt) == day
    ensures i < |list| <==> day in DayKeys(list, dayKey)
  {
    if exists j :: 0 <= j < |list| && dayKey(list[j].dt) == day then
      FirstIndexFrom(list, dayKey, day, 0)
    else
      |list|
  }

  function FirstIndexFrom(list: seq<Sample>, dayKey: int -> int, day: int, from: nat): (i: nat)
    requires from <= |list|
    requires forall j :: 0 <= j < from ==> dayKey(list[j].dt) != day
    ensures from <= i <= |list|
    ensures forall j :: 0 <= j < i ==> dayKey(list[j].dt) != day
    ensures i < |list| ==> dayKey(list[i].dt) == day
    ensures i == |list| ==> forall j :: 0 <= j < |list| ==> dayKey(list[j].dt) != day
    decreases |list| - from
  {
    if from == |list| || dayKey(list[from].dt) == day then from
    else FirstIndexFrom(list, dayKey, day, from + 1)
  }

  /** The samples of one day, in input order (`groupedByDay[day]`). */
  function EntriesOn(list: seq<Sample>, dayKey: int -> int, day: int): (r: seq<Sample>)
    ensures |r| <= |list|
    decreases |list|
  {
    if |list| == 0 then []
    else if dayKey(list[0].dt) == day then [list[0]] + EntriesOn(list[1..], dayKey, day)
    else EntriesOn(list[1..], dayKey, day)
  }

  /** A day has a non-empty group exactly when some sample falls on it. */
  lemma {:induction false} EntriesOnNonEmpty(list: seq<Sample>, dayKey: int -> int, day: int)
    ensures |EntriesOn(list, dayKey, day)| > 0 <==> day in DayKeys(list, dayKey)
    decreases |list|
  {
    if |list| > 0 {
      EntriesOnNonEmpty(list[1..], dayKey, day);
      assert DayKeys(list, dayKey) == {dayKey(list[0].dt)} + DayKeys(list[1..], dayKey) by {
        assert forall i :: 1 <= i < |list| ==> list[i] == list[1..][i - 1];
      }
    } else {
      assert DayKeys(list, dayKey) == {};
    }
  }

  /** Every sample of the group of `day` falls on `day`. */
  lemma {:induction false} EntriesOnDay(list: seq<Sample>, dayKey: int -> int, day: int)
    ensures forall x :: x in EntriesOn(list, dayKey, day) ==> dayKey(x.dt) == day
    decreases |list|
  {
    if |list| > 0 {
      EntriesOnDay(list[1..], dayKey, day);
      var r := EntriesOn(list, dayKey, day);
      var rest := EntriesOn(list[1..], dayKey, day);
      forall x | x in r
        ensures dayKey(x.dt) == day
      {
        if x != list[0] || dayKey(list[0].dt) != day {
          assert x in rest;
        }
      }
    }
  }

  /** Every sample on `day` is in the group of `day`. */
  lemma {:induction false} EntriesOnComplete(list: seq<Sample>, dayKey: int -> int, day: int)
    ensures var r := EntriesOn(list, dayKey, day);
      forall i :: 0 <= i < |list| && dayKey(list[i].dt) == day ==> list[i] in r
    decreases |list|
  {
    if |list| > 0 {
      EntriesOnComplete(list[1..], dayKey, day);
      var r := EntriesOn(list, dayKey, day);
      var rest := EntriesOn(list[1..], dayKey, day);
      forall i | 0 <= i < |list| && dayKey(list[i].dt) == day
        ensures list[i] in r
      {
        if i > 0 {
          assert list[i] == list[1..][i - 1];
          assert list[i] in rest;
        }
      }
    }
  }

  /** The group of `day` holds only samples of the input. */
  lemma {:induction false} EntriesOnSubset(list: seq<Sample>, dayKey: int -> int, day: int)
    ensures forall x :: x in EntriesOn(list, dayKey, day) ==> x in list
    decreases |list|
  {
    if |list| > 0 {
      EntriesOnSubset(list[1..], dayKey, day);
      forall x | x in EntriesOn(list[1..], dayKey, day)
        ensures x in list
      {
        assert x in list[1..];
      }
    }
  }

  /** The group of `day`, when not empty, starts with the first sample on `day`. */
  lemma {:induction false} EntriesOnFirst(list: seq<Sample>, dayKey: int -> int, day: int)
    ensures var r := EntriesOn(list, dayKey, day);
      |r| > 0 ==> FirstIndexOn(list, dayKey, day) < |list| && r[0] == list[FirstIndexOn(list, dayKey, day)]
    decreases |list|
  {
    if |list| > 0 {
      var m := FirstIndexOn(list, dayKey, day);
      if dayKey(list[0].dt) == day {
        assert m == 0;
      } else {
        EntriesOnFirst(list[1..], dayKey, day);
        var rest := EntriesOn(list[1..], dayKey, day);
        if |rest| > 0 {
          var k := FirstIndexOn(list[1..], dayKey, day);
          assert list[k + 1] == list[1..][k];
          assert m == k + 1 by {
            assert m <= k + 1;
            assert forall i :: 0 < i < |list| ==> list[1..][i - 1] == list[i];
          }
        }
      }
    }
  }

  /**
   * The group of `day` holds exactly the samples on `day`, and it starts
   * with the first of them in input order.
   */
  lemma EntriesOnMembers(list: seq<Sample>, dayKey: int -> int, day: int)
    ensures var r := EntriesOn(list, dayKey, day);
      (forall x :: x in r ==> dayKey(x.dt) == day) &&
      (forall i :: 0 <= i < |list| && dayKey(list[i].dt) == day ==> list[i] in r) &&
      (forall x :: x in r ==> x in list) &&
      (|r| > 0 ==> FirstIndexOn(list, dayKey, day) < |list| && r[0] == list[FirstIndexOn(list, dayKey, day)])
  {
    EntriesOnDay(list, dayKey, day);
    EntriesOnComplete(list, dayKey, day);
    EntriesOnSubset(list, dayKey, day);
    EntriesOnFirst(list, dayKey, day);
  }

  /**
   * The positions of the samples on `day` at or after `from`: in range, on
   * `day` and strictly ascending.
   */
  function DayIndices(list: seq<Sample>, dayKey: int -> int, day: int, from: nat): (r: seq<nat>)
    requires from <= |list|
    ensures forall j :: 0 <= j < |r| ==> from <= r[j] < |list| && dayKey(list[r[j]].dt) == day
    ensures forall j, k :: 0 <= j < k < |r| ==> r[j] < r[k]
    decreases |list| - from
  {
    if from == |list| then []
    else if dayKey(list[from].dt) == day then [from] + DayIndices(list, dayKey, day, from + 1)
    else DayIndices(list, dayKey, day, from + 1)
  }

  /** Every position of a sample on `day`, at or after `from`, is listed. */
  lemma {:induction false} DayIndicesComplete(list: seq<Sample>, dayKey: int -> int, day: int, from: nat)
    requires from <= |list|
    ensures forall i :: from <= i < |list| && dayKey(list[i].dt) == day ==> i in DayIndices(list, dayKey, day, from)
    decreases |list| - from
  {
    if from < |list| {
      DayIndicesComplete(list, dayKey, day, from + 1);
    }
  }

  /** `r` is the samples of `list` at the positions `idx`, in that order. */
  predicate Picks(r: seq<Sample>, list: seq<Sample>, idx: seq<nat>) {
    |r| == |idx| && forall j :: 0 <= j < |r| ==> idx[j] < |list| && r[j] == list[idx[j]]
  }

  /** Picking one more position in front of a picked sequence. */
  lemma PicksCons(rest: seq<Sample>, list: seq<Sample>, idxRest: seq<nat>, i: nat)
    requires Picks(rest, list, idxRest) && i < |list|
    ensures Picks([list[i]] + rest, list, [i] + idxRest)
  {
    var r := [list[i]] + rest;
    var idx := [i] + idxRest;
    forall j | 0 <= j < |r|
      ensures idx[j] < |list| && r[j] == list[idx[j]]
    {
      if j > 0 {
        assert r[j] == rest[j - 1] && idx[j] == idxRest[j - 1];
      }
    }
  }

  /**
   * Grouping keeps input order and multiplicity: the group of `day` in the
   * samples from `from` on is the samples at the positions of `day`, in
   * ascending order, each once.
   */
  lemma {:induction false} EntriesOnInOrder(list: seq<Sample>, dayKey: int -> int, day: int, from: nat)
    requires from <= |list|
    ensures Picks(EntriesOn(list[from..], dayKey, day), list, DayIndices(list, dayKey, day, from))
    decreases |list| - from
  {
    if from < |list| {
      EntriesOnInOrder(list, dayKey, day, from + 1);
      var rest := EntriesOn(list[from + 1..], dayKey, day);
      var idxRest := DayIndices(list, dayKey, day, from + 1);
      assert list[from..][0] == list[from];
      assert list[from..][1..] == list[from + 1..];
      if dayKey(list[from].dt) == day {
        PicksCons(rest, list, idxRest, from);
      }
    }
  }

  /** `x` placed into a strictly ascending sequence, unless already present. */
  function Insert(r: seq<int>, x: int): (r': seq<int>)
    requires forall i, j :: 0 <= i < j < |r| ==> r[i] < r[j]
    ensures forall i, j :: 0 <= i < j < |r'| ==> r'[i] < r'[j]
    ensures forall y :: y in r' <==> y in r || y == x
    decreases |r|
  {
    if |r| == 0 then [x]
    else if x < r[0] then [x] + r
    else if x == r[0] then r
    else
      var rest := Insert(r[1..], x);
      assert forall y :: y in r <==> y == r[0] || y in r[1..];
      assert forall k :: 0 <= k < |rest| ==> r[0] < rest[k] by {
        forall k | 0 <= k < |rest| ensures r[0] < rest[k] {
          assert rest[k] in rest;
        }
      }
      [r[0]] + rest
  }

  /** `groupedByDay.keys.sorted()`: the distinct day keys in strictly ascending order. */
  function SortedDays(list: seq<Sample>, dayKey: int -> int): (r: seq<int>)
    ensures forall x :: x in r <==> x in DayKeys(list, dayKey)
    ensures forall i, j :: 0 <= i < j < |r| ==> r[i] < r[j]
    decreases |list|
  {
    if |list| == 0 then []
    else
      var init := list[..|list| - 1];
      assert DayKeys(list, dayKey) == DayKeys(init, dayKey) + {dayKey(list[|list| - 1].dt)} by {
        assert forall i :: 0 <= i < |init| ==> init[i] == list[i];
      }
      Insert(SortedDays(init, dayKey), dayKey(list[|list| - 1].dt))
  }

  /** A strictly ascending sequence has as many elements as its set of values. */
  lemma {:induction false} AscendingCardinality(r: seq<int>, s: set<int>)
    requires forall i, j :: 0 <= i < j < |r| ==> r[i] < r[j]
    requires forall x :: x in r <==> x in s
    ensures |r| == |s|
    decreases |r|
  {
    if |r| > 0 {
      assert r[0] !in r[1..];
      assert forall x :: x in r[1..] <==> x in s - {r[0]};
      AscendingCardinality(r[1..], s - {r[0]});
    } else {
      assert forall x :: x !in s;
      assert s == {};
    }
  }

  /** The days that get an entry: `sortedDays.prefix(5)`. */
  function RetainedDays(list: seq<Sample>, dayKey: int -> int): (days: seq<int>)
    ensures |days| <= 5
    ensures forall k :: 0 <= k < |days| ==> days[k] in DayKeys(list, dayKey)
  {
    var sorted := SortedDays(list, dayKey);
    if |sorted| < 5 then sorted else sorted[..5]
  }

  /** One retained day per distinct day key, capped at five. */
  lemma RetainedDaysCount(list: seq<Sample>, dayKey: int -> int)
    ensures |RetainedDays(list, dayKey)| == if |DayKeys(list, dayKey)| < 5 then |DayKeys(list, dayKey)| else 5
  {
    AscendingCardinality(SortedDays(list, dayKey), DayKeys(list, dayKey));
  }

  /** The temperature a sample contributes: `tempMax`, or `temp` when `tempMax` is 0. */
  function ChosenTemp(s: Sample): real {
    if s.tempMax != 0.0 then s.tempMax else s.temp
  }

  /** `.max()` of the chosen temperatures of a non-empty group. */
  function MaxChosen(entries: seq<Sample>): (m: real)
    requires |entries| > 0
    ensures forall i :: 0 <= i < |entries| ==> ChosenTemp(entries[i]) <= m
    ensures exists i :: 0 <= i < |entries| && ChosenTemp(entries[i]) == m
  {
    if |entries| == 1 then ChosenTemp(entries[0])
    else
      var rest := MaxChosen(entries[1..]);
      assert forall i :: 1 <= i < |entries| ==> entries[i] == entries[1..][i - 1];
      if ChosenTemp(entries[0]) > rest then ChosenTemp(entries[0]) else rest
  }

  /** The labels are total: more than one day needs at least one weekday symbol. */
  predicate LabelsDefined(list: seq<Sample>, dayKey: int -> int, shortWeekdays: seq<string>) {
    |shortWeekdays| > 0 || |DayKeys(list, dayKey)| <= 1
  }

  /** `shortWeekdays[(weekday - 1) % shortWeekdays.count]`. */
  function WeekdaySymbol(shortWeekdays: seq<string>, w: Weekday): string
    requires |shortWeekdays| > 0
  {
    shortWeekdays[(w - 1) % |shortWeekdays|]
  }

  /** The record for the day at position `index` of the retained days. */
  function DayEntry(list: seq<Sample>, dayKey: int -> int, weekday: int -> Weekday,
                    shortWeekdays: seq<string>, capitalize: string -> string,
                    isFahrenheit: bool, day: int, index: nat): (r: DayForecast)
    requires day in DayKeys(list, dayKey)
    requires index == 0 || |shortWeekdays| > 0
    ensures index > 0 ==> r.day in shortWeekdays
    ensures ParseInt(r.temperature).Some?
  {
    EntriesOnNonEmpty(list, dayKey, day);
    ParseIntOfIntToString(RoundHalfAway(MaxChosen(EntriesOn(list, dayKey, day))));
    var entries := EntriesOn(list, dayKey, day);
    var rep := entries[0];
    var first := FirstCondition(rep);
    DayForecast(
      if index == 0 then "Today" else WeekdaySymbol(shortWeekdays, weekday(day)),
      IntToString(RoundHalfAway(MaxChosen(entries))),
      if first.Some? then first.value.icon else "",
      isFahrenheit,
      if first.Some? then capitalize(first.value.description) else NoCondition)
  }

  /** The records of `days`, the day at position `k` built as entry `k`. */
  function DayEntries(list: seq<Sample>, dayKey: int -> int, weekday: int -> Weekday,
                      shortWeekdays: seq<string>, capitalize: string -> string,
                      isFahrenheit: bool, days: seq<int>): (r: seq<DayForecast>)
    requires forall k :: 0 <= k < |days| ==> days[k] in DayKeys(list, dayKey)
    requires |days| <= 1 || |shortWeekdays| > 0
    ensures |r| == |days|
  {
    seq(|days|, k requires 0 <= k < |days| =>
      DayEntry(list, dayKey, weekday, shortWeekdays, capitalize, isFahrenheit, days[k], k))
  }

  /** Appending the record of the next day extends the prefix of `DayEntries` by one. */
  lemma DayEntriesStep(list: seq<Sample>, dayKey: int -> int, weekday: int -> Weekday,
                       shortWeekdays: seq<string>, capitalize: string -> string,
                       isFahrenheit: bool, days: seq<int>, k: int,
                       models: seq<DayForecast>, model: DayForecast)
    requires forall k :: 0 <= k < |days| ==> days[k] in DayKeys(list, dayKey)
    requires |days| <= 1 || |shortWeekdays| > 0
    requires 0 <= k < |days|
    requires models == DayEntries(list, dayKey, weekday, shortWeekdays, capitalize, isFahrenheit, days)[..k]
    requires model == DayEntry(list, dayKey, weekday, shortWeekdays, capitalize, isFahrenheit, days[k], k)
    ensures models + [model] == DayEntries(list, dayKey, weekday, shortWeekdays, capitalize, isFahrenheit, days)[..k + 1]
  {
    var e := DayEntries(list, dayKey, weekday, shortWeekdays, capitalize, isFahrenheit, days);
    assert model == e[k];
    PrefixSnoc(e, k, models, model);
  }

  lemma PrefixSnoc(e: seq<DayForecast>, k: int, models: seq<DayForecast>, model: DayForecast)
    requires 0 <= k < |e| && models == e[..k] && model == e[k]
    ensures models + [model] == e[..k + 1]
  {
  }

  /** What `decodeToForecastModels(from:)` returns. */
  function Forecasts(list: seq<Sample>, dayKey: int -> int, weekday: int -> Weekday,
                     shortWeekdays: seq<string>, capitalize: string -> string,
                     isFahrenheit: bool): (r: seq<DayForecast>)
    requires LabelsDefined(list, dayKey, shortWeekdays)
    ensures |r| == |RetainedDays(list, dayKey)|
  {
    RetainedDaysCount(list, dayKey);
    DayEntries(list, dayKey, weekday, shortWeekdays, capitalize, isFahrenheit, RetainedDays(list, dayKey))
  }

  /**
   * There is one entry per distinct day, capped at five; no samples, no
   * entries.
   */
  lemma ForecastsCount(list: seq<Sample>, dayKey: int -> int, weekday: int -> Weekday,
                       shortWeekdays: seq<string>, capitalize: string -> string, isFahrenheit: bool)
    requires LabelsDefined(list, dayKey, shortWeekdays)
    ensures var n := |Forecasts(list, dayKey, weekday, shortWeekdays, capitalize, isFahrenheit)|;
      n == if |DayKeys(list, dayKey)| < 5 then |DayKeys(list, dayKey)| else 5
    ensures list == [] ==> Forecasts(list, dayKey, weekday, shortWeekdays, capitalize, isFahrenheit) == []
  {
    RetainedDaysCount(list, dayKey);
    if list == [] {
      assert DayKeys(list, dayKey) == {};
    }
  }

  /** A prefix of a strictly ascending enumeration of `s` holds the smallest values of `s`. */
  lemma AscendingPrefixEarliest(sorted: seq<int>, s: set<int>, n: int)
    requires forall i, j :: 0 <= i < j < |sorted| ==> sorted[i] < sorted[j]
    requires forall x :: x in sorted <==> x in s
    requires 0 <= n <= |sorted|
    ensures forall d, k :: d in s && d !in sorted[..n] && 0 <= k < n ==> sorted[k] < d
  {
    forall d, k | d in s && d !in sorted[..n] && 0 <= k < n
      ensures sorted[k] < d
    {
      var j :| 0 <= j < |sorted| && sorted[j] == d;
      assert forall i :: 0 <= i < n ==> sorted[i] in sorted[..n];
    }
  }

  /**
   * The retained days are strictly ascending and are the smallest day keys:
   * every day left out is later than every day kept.
   */
  lemma RetainedDaysAreEarliest(list: seq<Sample>, dayKey: int -> int)
    ensures var days := RetainedDays(list, dayKey);
      forall i, j :: 0 <= i < j < |days| ==> days[i] < days[j]
    ensures var days := RetainedDays(list, dayKey);
      forall d, k :: d in DayKeys(list, dayKey) && d !in days && 0 <= k < |days| ==> days[k] < d
  {
    var sorted := SortedDays(list, dayKey);
    var days := RetainedDays(list, dayKey);
    assert days == sorted[..|days|];
    AscendingPrefixEarliest(sorted, DayKeys(list, dayKey), |days|);
  }

  /**
   * The temperature of a day's record is the rounded maximum of the chosen
   * temperatures of all that day's samples, rendered so that it parses back.
   */
  lemma DayEntryTemperature(list: seq<Sample>, dayKey: int -> int, weekday: int -> Weekday,
                            shortWeekdays: seq<string>, capitalize: string -> string,
                            isFahrenheit: bool, day: int, index: nat)
    requires day in DayKeys(list, dayKey)
    requires index == 0 || |shortWeekdays| > 0
    ensures var e := DayEntry(list, dayKey, weekday, shortWeekdays, capitalize, isFahrenheit, day, index);
      exists m: real ::
        (forall i :: 0 <= i < |list| && dayKey(list[i].dt) == day ==> ChosenTemp(list[i]) <= m) &&
        (exists i :: 0 <= i < |list| && dayKey(list[i].dt) == day && ChosenTemp(list[i]) == m) &&
        e.temperature == IntToString(RoundHalfAway(m)) &&
        ParseInt(e.temperature) == Some(RoundHalfAway(m))
  {
    EntriesOnNonEmpty(list, dayKey, day);
    EntriesOnMembers(list, dayKey, day);
    var entries := EntriesOn(list, dayKey, day);
    var m := MaxChosen(entries);
    ParseIntOfIntToString(RoundHalfAway(m));
    forall i | 0 <= i < |list| && dayKey(list[i].dt) == day
      ensures ChosenTemp(list[i]) <= m
    {
      assert list[i] in entries;
    }
    var j :| 0 <= j < |entries| && ChosenTemp(entries[j]) == m;
    assert entries[j] in list;
    var i :| 0 <= i < |list| && list[i] == entries[j];
    assert dayKey(list[i].dt) == day && ChosenTemp(list[i]) == m;
  }

  /**
   * The icon and condition of a day's record come from the day's first
   * sample in input order (not its hottest); the record carries the unit
   * flag; position 0 is "Today" whatever its date, and the others are named
   * by the day's weekday symbol.
   */
  lemma DayEntryFirstSample(list: seq<Sample>, dayKey: int -> int, weekday: int -> Weekday,
                            shortWeekdays: seq<string>, capitalize: string -> string,
                            isFahrenheit: bool, day: int, index: nat)
    requires day in DayKeys(list, dayKey)
    requires index == 0 || |shortWeekdays| > 0
    ensures var e := DayEntry(list, dayKey, weekday, shortWeekdays, capitalize, isFahrenheit, day, index);
      var first := FirstIndexOn(list, dayKey, day);
      first < |list| &&
      e.openWeatherIconCode == (if |list[first].weather| > 0 then list[first].weather[0].icon else "") &&
      e.condition == (if |list[first].weather| > 0 then capitalize(list[first].weather[0].description) else NoCondition) &&
      e.isFahrenheit == isFahrenheit &&
      (index == 0 ==> e.day == "Today") &&
      (index > 0 ==> e.day == WeekdaySymbol(shortWeekdays, weekday(day)))
  {
    EntriesOnNonEmpty(list, dayKey, day);
    EntriesOnMembers(list, dayKey, day);
  }

  /**
   * Entry `k` of the forecasts is the record of the `k`-th retained day, as
   * the two lemmas above describe it; every entry after the first has a
   * weekday symbol to name it.
   */
  lemma ForecastEntry(list: seq<Sample>, dayKey: int -> int, weekday: int -> Weekday,
                      shortWeekdays: seq<string>, capitalize: string -> string,
                      isFahrenheit: bool, k: int)
    requires LabelsDefined(list, dayKey, shortWeekdays)
    requires 0 <= k < |RetainedDays(list, dayKey)|
    ensures var day := RetainedDays(list, dayKey)[k];
      (k == 0 || |shortWeekdays| > 0) &&
      Forecasts(list, dayKey, weekday, shortWeekdays, capitalize, isFahrenheit)[k] ==
        DayEntry(list, dayKey, weekday, shortWeekdays, capitalize, isFahrenheit, day, k)
  {
    RetainedDaysCount(list, dayKey);
  }

  /** `code.hasPrefix(p)`. */
  predicate HasPrefix(code: string, p: string) {
    |p| <= |code| && code[..|p|] == p
  }

  /** The two-character condition groups that `mapIcon(from:)` recognises, with their symbols. */
  const IconSymbols: map<string, string> := map[
    "01" := "sun.max.fill", "02" := "cloud.sun.fill", "03" := "cloud.fill",
    "04" := "smoke.fill", "09" := "cloud.drizzle.fill", "10" := "cloud.rain.fill",
    "11" := "cloud.bolt.rain.fill", "13" := "snowflake", "50" := "cloud.fog.fill"]

  /**
   * `mapIcon(from:)`: the symbol for an icon code, chosen by its first two
   * characters; "cloud" for a missing code or an unknown group.
   */
  function MapIcon(openWeatherIcon: Option<string>): (r: string)
    ensures openWeatherIcon.Some? && |openWeatherIcon.value| >= 2 && openWeatherIcon.value[..2] in IconSymbols ==>
      r == IconSymbols[openWeatherIcon.value[..2]]
    ensures openWeatherIcon.None? || |openWeatherIcon.value| < 2 || openWeatherIcon.value[..2] !in IconSymbols ==>
      r == "cloud"
  {
    match openWeatherIcon
    case None => "cloud"
    case Some(code) =>
      if HasPrefix(code, "01") then "sun.max.fill"
      else if HasPrefix(code, "02") then "cloud.sun.fill"
      else if HasPrefix(code, "03") then "cloud.fill"
      else if HasPrefix(code, "04") then "smoke.fill"
      else if HasPrefix(code, "09") then "cloud.drizzle.fill"
      else if HasPrefix(code, "10") then "cloud.rain.fill"
      else if HasPrefix(code, "11") then "cloud.bolt.rain.fill"
      else if HasPrefix(code, "13") then "snowflake"
      else if HasPrefix(code, "50") then "cloud.fog.fill"
      else "cloud"
  }

  /** A two-character prefix of `code` is one of `code[..2]`. */
  lemma HasPrefixOfTwo(code: string, p: string)
    requires |p| == 2 <= |code|
    ensures HasPrefix(code, p) <==> code[..2] == p
  {
  }

  /**
   * Only the first two characters matter: the day (`d`) and night (`n`)
   * variants of a code, and any suffix, get the same symbol.
   */
  lemma MapIconByGroup(code: string)
    ensures |code| >= 2 ==> MapIcon(Some(code)) == MapIcon(Some(code[..2]))
    ensures |code| < 2 ==> MapIcon(Some(code)) == "cloud"
  {
    if |code| >= 2 {
      var g := code[..2];
      assert g[..2] == g;
      forall p | |p| == 2
        ensures HasPrefix(code, p) <==> HasPrefix(g, p)
      {
        HasPrefixOfTwo(code, p);
        HasPrefixOfTwo(g, p);
      }
    }
  }

  /**
   * The day and night variants of a code share one symbol, unlike the older
   * exact-token table: "01d" and "01n" are both "sun.max.fill".
   */
  lemma MapIconDayNightShared(group: string)
    requires |group| == 2
    ensures MapIcon(Some(group + "d")) == MapIcon(Some(group + "n"))
    ensures MapIcon(Some("01d")) == "sun.max.fill" && MapIcon(Some("01n")) == "sun.max.fill"
  {
    MapIconByGroup(group + "d");
    MapIconByGroup(group + "n");
    assert (group + "d")[..2] == group == (group + "n")[..2];
    MapIconByGroup("01d");
    MapIconByGroup("01n");
    assert "01d"[..2] == "01" == "01n"[..2];
  }

  /**
   * The fallback symbol "cloud" is given exactly to a missing code and to a
   * code outside the recognised groups.
   */
  lemma MapIconFallback(openWeatherIcon: Option<string>)
    ensures MapIcon(openWeatherIcon) == "cloud" <==>
      openWeatherIcon.None? || |openWeatherIcon.value| < 2 || openWeatherIcon.value[..2] !in IconSymbols
  {
    if openWeatherIcon.Some? && |openWeatherIcon.value| >= 2 {
      var code := openWeatherIcon.value;
      forall p | |p| == 2
        ensures HasPrefix(code, p) <==> code[..2] == p
      {
        HasPrefixOfTwo(code, p);
      }
    }
  }

  /** `OpenWeatherCurrentRequest.Units` as chosen by the fetch methods. */
  function UnitsFor(isFahrenheit: bool): (u: Units)
    ensures u == Imperial <==> isFahrenheit
    ensures u != Standard
  {
    if isFahrenheit then Imperial else Metric
  }

  /**
   * The body of the loop in `decodeToForecastModels(from:)` for the day
   * `day` at position `index`: the day's group, its hottest chosen
   * temperature, and the icon and condition of its first sample.  This is
   * the statement-by-statement form of the loop body; `DayEntry` is the
   * function that specifies it, and the ensures says the two agree.
   */
  method BuildDayForecast(list: seq<Sample>, dayKey: int -> int, weekday: int -> Weekday,
                          shortWeekdays: seq<string>, capitalize: string -> string,
                          isFahrenheit: bool, day: int, index: nat)
    returns (model: DayForecast)
    requires day in DayKeys(list, dayKey)
    requires index == 0 || |shortWeekdays| > 0
    ensures model == DayEntry(list, dayKey, weekday, shortWeekdays, capitalize, isFahrenheit, day, index)
  {
    EntriesOnNonEmpty(list, dayKey, day);
    var entries := EntriesOn(list, dayKey, day);
    var maxTemp := MaxChosen(entries);
    var rep := entries[0];
    var iconCode := if |rep.weather| > 0 then rep.weather[0].icon else "";
    var condition := if |rep.weather| > 0 then capitalize(rep.weather[0].description) else NoCondition;
    var dayLabel := if index == 0 then "Today" else WeekdaySymbol(shortWeekdays, weekday(day));
    model := DayForecast(dayLabel, IntToString(RoundHalfAway(maxTemp)), iconCode, isFahrenheit, condition);
  }

  class ForecastViewModel {
    var forecasts: seq<DayForecast>
    var selectedIndex: int
    var isFahrenheit: bool
    var currentCity: string
    var isLoading: bool
    /** Whether `WeatherService()` could be created (an API key was found). */
    const hasService: bool

    constructor (hasService: bool)
      ensures this.hasService == hasService
      ensures forecasts == [] && selectedIndex == 0 && !isFahrenheit
      ensures currentCity == "" && !isLoading
    {
      this.hasService := hasService;
      forecasts := [];
      selectedIndex := 0;
      isFahrenheit := false;
      currentCity := "";
      isLoading := false;
    }

    /**
     * `decodeToForecastModels(from:)`: one record per retained day, appended
     * in ascending day order.
     */
    method DecodeToForecastModels(response: ForecastResponse, dayKey: int -> int, weekday: int -> Weekday,
                                  shortWeekdays: seq<string>, capitalize: string -> string)
      returns (models: seq<DayForecast>)
      requires LabelsDefined(response.list, dayKey, shortWeekdays)
      ensures models == Forecasts(response.list, dayKey, weekday, shortWeekdays, capitalize, isFahrenheit)
    {
      var list := response.list;
      var sortedDays := RetainedDays(list, dayKey);
      RetainedDaysCount(list, dayKey);
      ghost var expected := DayEntries(list, dayKey, weekday, shortWeekdays, capitalize, isFahrenheit, sortedDays);
      models := [];
      for index := 0 to |sortedDays|
        invariant models == expected[..index]
      {
        var model := BuildDayForecast(list, dayKey, weekday, shortWeekdays, capitalize, isFahrenheit,
                                      sortedDays[index], index);
        DayEntriesStep(list, dayKey, weekday, shortWeekdays, capitalize, isFahrenheit, sortedDays, index, models, model);
        models := models + [model];
      }
      assert expected[..|sortedDays|] == expected;
    }

    /**
     * The shared body of the three `fetchWeather…` methods.  A fetch while
     * another is in flight, or without a service, changes nothing and sends
     * nothing.  Otherwise the request asks for imperial units exactly when the
     * view model shows Fahrenheit; a successful response replaces the
     * forecasts wholesale and the city name, a failed one leaves both alone;
     * and the busy flag is clear on exit.
     */
    method Fetch(query: Query, outcome: FetchOutcome, dayKey: int -> int, weekday: int -> Weekday,
                 shortWeekdays: seq<string>, capitalize: string -> string)
      returns (request: Option<Request>)
      requires !isLoading && hasService && outcome.Fetched? ==> LabelsDefined(outcome.response.list, dayKey, shortWeekdays)
      modifies this
      ensures isFahrenheit == old(isFahrenheit) && selectedIndex == old(selectedIndex)
      ensures old(isLoading) || !hasService ==>
        request == None && isLoading == old(isLoading) &&
        forecasts == old(forecasts) && currentCity == old(currentCity)
      ensures !old(isLoading) && hasService ==>
        request == Some(Request(query, UnitsFor(isFahrenheit))) && !isLoading
      ensures !old(isLoading) && hasService && outcome.Fetched? ==>
        forecasts == Forecasts(outcome.response.list, dayKey, weekday, shortWeekdays, capitalize, isFahrenheit) &&
        currentCity == outcome.response.cityName
      ensures outcome.FetchFailed? ==> forecasts == old(forecasts) && currentCity == old(currentCity)
    {
      request := None;
      if isLoading {
        return;
      }
      if !hasService {
        return;
      }
      isLoading := true;
      var units := if isFahrenheit then Imperial else Metric;
      request := Some(Request(query, units));
      match outcome {
        case Fetched(response) =>
          forecasts := DecodeToForecastModels(response, dayKey, weekday, shortWeekdays, capitalize);
          currentCity := response.cityName;
        case FetchFailed =>
      }
      isLoading := false;
    }

    /** `fetchWeatherForLasVegas()`: the city query "Las Vegas" in country "US". */
    method FetchWeatherForLasVegas(outcome: FetchOutcome, dayKey: int -> int, weekday: int -> Weekday,
                                   shortWeekdays: seq<string>, capitalize: string -> string)
      returns (request: Option<Request>)
      requires !isLoading && hasService && outcome.Fetched? ==> LabelsDefined(outcome.response.list, dayKey, shortWeekdays)
      modifies this
      ensures old(isLoading) || !hasService ==>
        request == None && isLoading == old(isLoading) &&
        forecasts == old(forecasts) && currentCity == old(currentCity)
      ensures !old(isLoading) && hasService ==>
        request == Some(Request(ByCity("Las Vegas", Some("US")), UnitsFor(isFahrenheit))) && !isLoading
      ensures !old(isLoading) && hasService && outcome.Fetched? ==>
        forecasts == Forecasts(outcome.response.list, dayKey, weekday, shortWeekdays, capitalize, isFahrenheit) &&
        currentCity == outcome.response.cityName
      ensures outcome.FetchFailed? ==> forecasts == old(forecasts) && currentCity == old(currentCity)
      ensures isFahrenheit == old(isFahrenheit) && selectedIndex == old(selectedIndex)
    {
      request := Fetch(ByCity("Las Vegas", Some("US")), outcome, dayKey, weekday, shortWeekdays, capitalize);
    }

    /** `fetchWeatherForCity(_:)`: a city query without a country code. */
    method FetchWeatherForCity(cityName: string, outcome: FetchOutcome, dayKey: int -> int, weekday: int -> Weekday,
                               shortWeekdays: seq<string>, capitalize: string -> string)
      returns (request: Option<Request>)
      requires !isLoading && hasService && outcome.Fetched? ==> LabelsDefined(outcome.response.list, dayKey, shortWeekdays)
      modifies this
      ensures old(isLoading) || !hasService ==>
        request == None && isLoading == old(isLoading) &&
        forecasts == old(forecasts) && currentCity == old(currentCity)
      ensures !old(isLoading) && hasService ==>
        request == Some(Request(ByCity(cityName, None), UnitsFor(isFahrenheit))) && !isLoading
      ensures !old(isLoading) && hasService && outcome.Fetched? ==>
        forecasts == Forecasts(outcome.response.list, dayKey, weekday, shortWeekdays, capitalize, isFahrenheit) &&
        currentCity == outcome.response.cityName
      ensures outcome.FetchFailed? ==> forecasts == old(forecasts) && currentCity == old(currentCity)
      ensures isFahrenheit == old(isFahrenheit) && selectedIndex == old(selectedIndex)
    {
      request := Fetch(ByCity(cityName, None), outcome, dayKey, weekday, shortWeekdays, capitalize);
    }

    /** `fetchWeatherForLocation(_:)`: a coordinate query. */
    method FetchWeatherForLocation(latitude: real, longitude: real, outcome: FetchOutcome, dayKey: int -> int,
                                   weekday: int -> Weekday, shortWeekdays: seq<string>, capitalize: string -> string)
      returns (request: Option<Request>)
      requires !isLoading && hasService && outcome.Fetched? ==> LabelsDefined(outcome.response.list, dayKey, shortWeekdays)
      modifies this
      ensures old(isLoading) || !hasService ==>
        request == None && isLoading == old(isLoading) &&
        forecasts == old(forecasts) && currentCity == old(currentCity)
      ensures !old(isLoading) && hasService ==>
        request == Some(Request(ByCoordinate(latitude, longitude), UnitsFor(isFahrenheit))) && !isLoading
      ensures !old(isLoading) && hasService && outcome.Fetched? ==>
        forecasts == Forecasts(outcome.response.list, dayKey, weekday, shortWeekdays, capitalize, isFahrenheit) &&
        currentCity == outcome.response.cityName
      ensures outcome.FetchFailed? ==> forecasts == old(forecasts) && currentCity == old(currentCity)
      ensures isFahrenheit == old(isFahrenheit) && selectedIndex == old(selectedIndex)
    {
      request := Fetch(ByCoordinate(latitude, longitude), outcome, dayKey, weekday, shortWeekdays, capitalize);
    }
  }
}
