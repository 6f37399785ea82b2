# WeatherGirls forecast core in Dafny

This project models the logic behind the WeatherGirls iOS app's five-day forecast.
Most of the app is SwiftUI layout and SpriteKit particles; the logic is what
turns an OpenWeatherMap 5-day / 3-hour forecast into daily cards.

- **Current aggregator** (`CurrentForecast`, from `Models/ForecastViewModel.swift`). It groups the
  3-hour samples by calendar day and keeps the five earliest days in ascending order. For each day it
  builds one record:
  - the rounded maximum of `tempMax`, or of `temp` where `tempMax` is 0;
  - the icon and condition of the day's first sample;
  - "Today" at position 0, and a weekday symbol elsewhere.

  It also maps icon codes to symbols by their first two characters. The view model is a class whose
  three fetch methods are guarded by a busy flag: a success replaces the forecasts and the city, and a
  failure leaves both alone.
- **Legacy aggregator** (`LegacyForecast`, from the older `ForecastViewModel.swift`). It makes a single
  pass that converts Kelvin to °C or °F. It folds each maximal run of consecutive same-day samples,
  keeping the first sample to reach the run's maximum. It emits a record when the day changes or at the
  last sample, and stops at five records. It has an exact-token icon table, and fetch methods with no
  busy guard.

  The loop is an imperative method proved against `EmittedForecasts`. That function is defined through
  `Runs` (the maximal same-day runs) and `Fold` (the per-run maximum). Lemmas prove that the runs
  partition the input, that each run is on one day, and that neighbouring runs are on different days.
- **Particle effect mapping** (`WeatherEffects`) covers three things:
  - condition id to effect kind, by id range;
  - preview-asset name to an optional effect;
  - the night heuristic on the hour.
- **Display helpers**:
  - `WeatherData`: the Celsius to Fahrenheit `displayTemperature`, which truncates toward zero;
  - `TimeOfDayGradient`: the hour to gradient bucket;
  - `FourDay`: card selection, the unit-suffixed temperature text, accessibility labels and the empty
    state, on a `FourDayView` class holding the selected-index binding.
- **Shared pieces**:
  - `Numerics`: round half away from zero, truncation toward zero, and `String(Int)` with its parse
    back;
  - `OpenWeather`: the response, request and fetch-outcome datatypes;
  - `Wrappers`: `Option`.

The calendar and the locale are parameters:
- `dayKey` stands for `Calendar.startOfDay`;
- `weekday` is the weekday component (1 is Sunday);
- `today` is the start of the current day;
- `shortWeekdays` / `weekdaySymbols` are the formatter's symbols;
- `capitalize` is Foundation's `.capitalized`.

Doubles are `real`.

Points of the code's behaviour that a reader might not expect, and which the model keeps:
- The current aggregator labels position 0 "Today" whatever its date (`Models/ForecastViewModel.swift:77`).
- The current aggregator takes icon and condition from each day's first sample in input order, not its
  hottest (`Models/ForecastViewModel.swift:74`).
- The legacy city fetch sets the city to the name that was asked for, not the one in the response
  (`ForecastViewModel.swift:24`).
- The legacy loop can return six records, although it stops at five everywhere else (see Findings).

## Model

| member | source | states |
|---|---|---|
| Numerics.RoundHalfAway | WeatherGirls/Models/ForecastViewModel.swift:81 | the result is within 1/2 of the input, and a value exactly halfway is rounded away from zero |
| Numerics.RoundHalfAwayMonotone | WeatherGirls/ForecastViewModel.swift:80 | rounding preserves order, so the rounded maximum bounds every rounded sample |
| Numerics.TruncToZero | WeatherGirls/Models/WeatherDataModel.swift:17 | `Int(_:)` of a Double: the integer between zero and x that is less than 1 away from x, on either sign |
| Numerics.NatToString | WeatherGirls/Models/ForecastViewModel.swift:81 | the decimal rendering is a non-empty run of digits with no leading zero ("0" for zero only) |
| Numerics.ParseNat | WeatherGirls/Models/WeatherDataModel.swift:17 | a string parses as a natural number exactly when it is a non-empty run of digits |
| Numerics.ParseNatOfNatToString | WeatherGirls/Models/WeatherDataModel.swift:17 | reading back the digits of n gives n |
| Numerics.ParseIntOfIntToString | WeatherGirls/Models/WeatherDataModel.swift:17 | `Double(String(i))` gives back i for every integer i, so the force-unwrap never traps on a stored temperature |
| Numerics.NatToStringOfParseNat | WeatherGirls/Models/ForecastViewModel.swift:81 | the converse round trip: a digit run with no leading zero, or "0", is exactly the rendering of its value, so each number has one spelling |
| Numerics.IntToStringOfParseInt | WeatherGirls/Models/ForecastViewModel.swift:81 | the converse round trip for integers: an optional "-" then a digit run with no leading zero (not "-0") parses, and rendering its value gives the string back |
| Numerics.IntToString | WeatherGirls/Models/ForecastViewModel.swift:81 | `String(Int)`: a non-empty string of digits, led by "-" exactly for a negative number, with no leading zero after the sign; zero is "0" |
| Numerics.ParseInt | WeatherGirls/Models/WeatherDataModel.swift:17 | a string parses exactly when it is a non-empty run of digits, optionally after one "-" that has digits after it; a negative result comes only from a leading "-" |
| OpenWeather.FirstCondition | WeatherGirls/Models/ForecastViewModel.swift:75 | `weather.first` is present exactly when the array is non-empty, and it is element 0 |
| WeatherData.DisplayTemperature | WeatherGirls/Models/WeatherDataModel.swift:16-18 | a Fahrenheit model shows its string verbatim; a Celsius model shows the decimal rendering of the truncation toward zero of c·9/5+32, then "°F", and that rendering parses back to the truncated value; the stored string must parse, because the unwrap traps otherwise |
| WeatherData.DisplayTemperatureTwentyEight | WeatherGirls/Models/WeatherDataModel.swift:17 | "28" °C shows as "82°F" |
| WeatherData.DisplayTemperatureTruncates | WeatherGirls/Models/WeatherDataModel.swift:17 | "-18" °C is -0.4 °F and shows as "0°F": it truncates, it does not round |
| WeatherData.DisplayTemperatureFixedPoint | WeatherGirls/Models/WeatherDataModel.swift:17 | "-40" shows as "-40°F" |
| WeatherEffects.Effect | WeatherGirls/Views/WeatherParticlesView.swift:14-38 | nil gives `.none`; each effect kind is returned exactly for the ids in its ranges (200–232 thunderstorm, 300–321 light rain, 500–504 and 520–531 heavy rain, 511 and 600–622 snow, 700–781 fog, 801–804 leaves) |
| WeatherEffects.EffectIsFirstMatchingArm | WeatherGirls/Views/WeatherParticlesView.swift:16-37 | the effect is the kind of the first switch arm, in source order, whose range holds the id, and `.none` when there is none |
| WeatherEffects.ArmsDisjoint | WeatherGirls/Views/WeatherParticlesView.swift:16-34 | no id lies in two arms |
| WeatherEffects.FirstMatchOfDisjoint | WeatherGirls/Views/WeatherParticlesView.swift:16-37 | with pairwise disjoint arms, the first match is the one arm that holds the id |
| WeatherEffects.EffectIndependentOfArmOrder | WeatherGirls/Views/WeatherParticlesView.swift:16-34 | whichever arm holds the id decides the effect, so the order of the cases does not matter |
| WeatherEffects.EffectOutsideArms | WeatherGirls/Views/WeatherParticlesView.swift:31-36 | an id in no range, such as 0 or 505–510, gives `.none`: the function is total |
| WeatherEffects.EffectForPreviewAsset | WeatherGirls/Views/WeatherParticlesView.swift:41-51 | the result is present exactly for the six known names: "rain" is rain without thunder, "snow" snow, "fog" fog, "clear" no effect, and "partly_cloudy" and "cloudy" leaves |
| WeatherEffects.PreviewAssetAgreesWithConditionIds | WeatherGirls/Views/WeatherParticlesView.swift:41-51 | every effect a preview asset selects is also selected by some condition id; "clear" gives `.some(.none)`, which differs from the nil that a missing name gives |
| WeatherEffects.IsNight | WeatherGirls/Views/WeatherParticlesView.swift:53-57 | night is exactly outside the hours 6 to 19 |
| TimeOfDayGradient.CurrentTimeOfDay | WeatherGirls/Views/TimeOfDay.swift:17-25 | sunrise exactly for hours 5–8, noon for 9–15, sunset for 16–19, and midnight for every other hour |
| TimeOfDayGradient.HoursOfMembers | WeatherGirls/Views/TimeOfDay.swift:19-24 | an hour is listed in a bucket exactly when it is a later hour of the day that maps to that bucket |
| TimeOfDayGradient.BucketsPartitionDay | WeatherGirls/Views/TimeOfDay.swift:19-24 | every hour 0–23 is in its own bucket and in no other |
| TimeOfDayGradient.NightAndMidnight | WeatherGirls/Views/TimeOfDay.swift:20-23 | every midnight hour is a night hour for the particle layer; the only other night hour is 5, which the gradient treats as sunrise |
| FourDay.FormattedTemp | WeatherGirls/FourDayView.swift:76-83 | the stored temperature verbatim, then "°F" or "°C" according to the unit flag |
| FourDay.FourDayView.Select | WeatherGirls/FourDayView.swift:91-100 | an out-of-range index leaves the selection alone; a valid index becomes the selection; feedback fires exactly when a valid index was not already selected, so selecting twice is selecting once |
| FourDay.FourDayView.AccessibilityLabel | WeatherGirls/FourDayView.swift:85-89 | "<day>, <formatted temperature>", ending in ", selected" exactly when the index is the selected one; its length is the sum of those parts |
| FourDay.FourDayView.Body | WeatherGirls/FourDayView.swift:11-33 | the empty state exactly when there are no forecasts; otherwise one card per forecast in order, each with its day, icon, formatted temperature and accessibility label; a card is highlighted iff it is the selected one, so at most one is |
| CurrentForecast.FirstIndexOn | WeatherGirls/Models/ForecastViewModel.swift:74 | the index of the first sample on a day: no earlier sample is on it, and it is in range exactly when the day occurs |
| CurrentForecast.EntriesOn | WeatherGirls/Models/ForecastViewModel.swift:61-63 | `groupedByDay[day]`: a day's group is no longer than the input (its order and contents are stated by `EntriesOnInOrder`) |
| CurrentForecast.EntriesOnNonEmpty | WeatherGirls/Models/ForecastViewModel.swift:61-72 | a day's group is non-empty exactly when the day is a key of the grouping, so the `isEmpty` guard never skips a day |
| CurrentForecast.EntriesOnDay | WeatherGirls/Models/ForecastViewModel.swift:61-63 | every sample in a day's group falls on that day |
| CurrentForecast.EntriesOnComplete | WeatherGirls/Models/ForecastViewModel.swift:61-63 | every sample on a day is in that day's group |
| CurrentForecast.EntriesOnSubset | WeatherGirls/Models/ForecastViewModel.swift:61-63 | the group holds only samples of the input |
| CurrentForecast.EntriesOnFirst | WeatherGirls/Models/ForecastViewModel.swift:61-63 | a group starts with the first sample on its day |
| CurrentForecast.EntriesOnMembers | WeatherGirls/Models/ForecastViewModel.swift:61-63 | the four facts above together: as a set, a group is the samples on its day, and it starts with the first of them |
| CurrentForecast.DayIndices | WeatherGirls/Models/ForecastViewModel.swift:61-63 | the positions of a day's samples are in range, on that day and strictly ascending |
| CurrentForecast.DayIndicesComplete | WeatherGirls/Models/ForecastViewModel.swift:61-63 | every position of a sample on the day is among them |
| CurrentForecast.EntriesOnInOrder | WeatherGirls/Models/ForecastViewModel.swift:61-63 | `Dictionary(grouping:)` keeps input order and multiplicity: a day's group is the samples at the day's positions, in ascending order, each once |
| CurrentForecast.Insert | WeatherGirls/Models/ForecastViewModel.swift:64 | inserting into a strictly ascending sequence keeps it strictly ascending and adds exactly the new value |
| CurrentForecast.SortedDays | WeatherGirls/Models/ForecastViewModel.swift:64 | `keys.sorted()`: strictly ascending, holding exactly the distinct day keys |
| CurrentForecast.AscendingCardinality | WeatherGirls/Models/ForecastViewModel.swift:64 | the sorted keys number as many as the distinct days |
| CurrentForecast.RetainedDays | WeatherGirls/Models/ForecastViewModel.swift:71 | `prefix(5)`: at most five days, each a day of the input |
| CurrentForecast.RetainedDaysCount | WeatherGirls/Models/ForecastViewModel.swift:64-71 | as many retained days as distinct days, capped at five |
| CurrentForecast.AscendingPrefixEarliest | WeatherGirls/Models/ForecastViewModel.swift:64-71 | a prefix of an ascending enumeration holds values smaller than every value it leaves out |
| CurrentForecast.RetainedDaysAreEarliest | WeatherGirls/Models/ForecastViewModel.swift:64-71 | the retained days are strictly ascending, and every day left out is later than every day kept |
| CurrentForecast.MaxChosen | WeatherGirls/Models/ForecastViewModel.swift:73 | the maximum of the chosen temperatures (`tempMax`, or `temp` when `tempMax` is 0): it bounds them all and is one of them |
| CurrentForecast.DayEntries | WeatherGirls/Models/ForecastViewModel.swift:71-87 | one record per day, entry k built for the day at position k |
| CurrentForecast.DayEntriesStep | WeatherGirls/Models/ForecastViewModel.swift:86 | appending the next day's record extends the finished prefix by one |
| CurrentForecast.Forecasts | WeatherGirls/Models/ForecastViewModel.swift:59-90 | one record per retained day |
| CurrentForecast.ForecastsCount | WeatherGirls/Models/ForecastViewModel.swift:61-72 | the output has min(5, number of distinct days) records; no samples gives no records |
| CurrentForecast.DayEntry | WeatherGirls/Models/ForecastViewModel.swift:71-85 | a day's record has a temperature string that parses back, so its later unwrap cannot trap; every position after 0 is labelled with one of the short weekday symbols |
| CurrentForecast.DayEntryTemperature | WeatherGirls/Models/ForecastViewModel.swift:73-81 | a record's temperature is the string of the rounded maximum of the chosen temperatures over all samples on that day, and it parses back to that integer |
| CurrentForecast.DayEntryFirstSample | WeatherGirls/Models/ForecastViewModel.swift:74-83 | icon and capitalized condition come from the day's first sample in input order, or "" and "—" when it has no weather element; the record carries the unit flag; position 0 is "Today" whatever its date; every other position gets `shortWeekdays[(weekday-1) % count]` |
| CurrentForecast.ForecastEntry | WeatherGirls/Models/ForecastViewModel.swift:71-86 | output k is the record of the k-th earliest day, and a weekday symbol exists for every position after 0 |
| CurrentForecast.HasPrefixOfTwo | WeatherGirls/Models/ForecastViewModel.swift:94 | a two-character `hasPrefix` compares the first two characters |
| CurrentForecast.MapIcon | WeatherGirls/Models/ForecastViewModel.swift:92-115 | a code whose first two characters are one of the nine groups 01, 02, 03, 04, 09, 10, 11, 13 and 50 gets that group's symbol; nil, a shorter code or another group gets "cloud" |
| CurrentForecast.MapIconByGroup | WeatherGirls/Models/ForecastViewModel.swift:92-115 | only the first two characters decide the symbol; a code shorter than two characters gives "cloud" |
| CurrentForecast.MapIconDayNightShared | WeatherGirls/Models/ForecastViewModel.swift:92-115 | the day and night variants of a code share a symbol; "01d" and "01n" both give "sun.max.fill" |
| CurrentForecast.MapIconFallback | WeatherGirls/Models/ForecastViewModel.swift:92-115 | "cloud" exactly for nil, for a code shorter than two characters, and for a code outside the nine known groups |
| CurrentForecast.UnitsFor | WeatherGirls/Models/ForecastViewModel.swift:20 | imperial exactly when showing Fahrenheit, otherwise metric, never standard |
| CurrentForecast.BuildDayForecast | WeatherGirls/Models/ForecastViewModel.swift:72-86 | the loop body builds exactly the day's record |
| CurrentForecast.ForecastViewModel.DecodeToForecastModels | WeatherGirls/Models/ForecastViewModel.swift:59-90 | the loop returns exactly `Forecasts`, whose length, order, temperatures, icons and labels the lemmas above state |
| CurrentForecast.ForecastViewModel.Fetch | WeatherGirls/Models/ForecastViewModel.swift:14-57 | a fetch while busy or without a service changes nothing and sends nothing; otherwise it sends the query with imperial units iff Fahrenheit; a success replaces the forecasts with the decoded records and sets the city to the response's city name; a failure leaves both; the busy flag is clear on exit; the unit flag and the selection never change |
| CurrentForecast.ForecastViewModel.FetchWeatherForLasVegas | WeatherGirls/Models/ForecastViewModel.swift:14-27 | as `Fetch`, with the city query "Las Vegas", country "US"; the unit flag and the selection are unchanged |
| CurrentForecast.ForecastViewModel.FetchWeatherForCity | WeatherGirls/Models/ForecastViewModel.swift:29-42 | as `Fetch`, with the city query for the given name and no country code; the unit flag and the selection are unchanged |
| CurrentForecast.ForecastViewModel.FetchWeatherForLocation | WeatherGirls/Models/ForecastViewModel.swift:44-57 | as `Fetch`, with a coordinate query; the unit flag and the selection are unchanged |
| LegacyForecast.FahrenheitFromCelsius | WeatherGirls/ForecastViewModel.swift:67 | K·9/5 − 459.67 equals (K − 273.15)·9/5 + 32, and 273.15 K is 0 °C and 32 °F |
| LegacyForecast.MapIcon | WeatherGirls/ForecastViewModel.swift:119-134 | each of the eighteen day and night tokens gets its own table symbol; any other string gets "questionmark" |
| LegacyForecast.MapIconUnknown | WeatherGirls/ForecastViewModel.swift:119-134 | "questionmark" exactly for tokens outside the eighteen known ones, "" among them |
| LegacyForecast.MapIconDayNightDistinct | WeatherGirls/ForecastViewModel.swift:121-124 | 01d/01n and 02d/02n have distinct day and night icons |
| LegacyForecast.MapIconDayNightCloudsRain | WeatherGirls/ForecastViewModel.swift:125-128 | 03, 04, 09 and 10 share one icon by day and by night |
| LegacyForecast.MapIconDayNightStormSnowMist | WeatherGirls/ForecastViewModel.swift:129-131 | 11, 13 and 50 share one icon by day and by night |
| LegacyForecast.Runs | WeatherGirls/ForecastViewModel.swift:77-98 | the runs the loop folds: none exactly for an empty input, and none empty |
| LegacyForecast.RunsFlatten | WeatherGirls/ForecastViewModel.swift:77-98 | laid end to end, the runs are the input, and there are no more runs than samples |
| LegacyForecast.RunsOneDay | WeatherGirls/ForecastViewModel.swift:77-98 | every sample of a run falls on the run's day |
| LegacyForecast.RunsMaximal | WeatherGirls/ForecastViewModel.swift:77-98 | neighbouring runs are on different days, so a day that reappears later starts a new run |
| LegacyForecast.RunsOfChangingDays | WeatherGirls/ForecastViewModel.swift:77-91 | when neighbouring samples are on different days, each sample is a run of its own |
| LegacyForecast.RunsOfPrefix | WeatherGirls/ForecastViewModel.swift:64-98 | the runs of a prefix are a stage of the final runs: earlier runs final, the last one growing |
| LegacyForecast.StartRun | WeatherGirls/ForecastViewModel.swift:69-75 | a new run starts at the sample's converted temperature, with the condition and icon of its first `weather` element, or "" when it has none |
| LegacyForecast.Step | WeatherGirls/ForecastViewModel.swift:92-97 | the running maximum never drops and covers the new sample; the state changes exactly when the sample is strictly hotter, and then takes that sample's condition and icon when it has a `weather` element, and otherwise keeps the previous ones |
| LegacyForecast.Fold | WeatherGirls/ForecastViewModel.swift:69-97 | the folded maximum is at least the first and the last sample of the run |
| LegacyForecast.FoldIsFirstMaximum | WeatherGirls/ForecastViewModel.swift:69-97 | the fold's temperature bounds every sample of the run and is reached first at some sample (every earlier one strictly cooler, as `>` keeps ties); its condition and icon are that sample's when it has a weather element |
| LegacyForecast.Label | WeatherGirls/ForecastViewModel.swift:74 | "Today" for the current day; any other day gets one of the weekday symbols |
| LegacyForecast.Summary | WeatherGirls/ForecastViewModel.swift:78-85 | the record carries the run's label; its temperature is the rounded temperature of the first sample to reach the run's maximum, at least every rounded sample, and it takes that sample's condition and mapped icon when the sample has a `weather` element |
| LegacyForecast.Summaries | WeatherGirls/ForecastViewModel.swift:78-85 | one record per run |
| LegacyForecast.SummariesAt | WeatherGirls/ForecastViewModel.swift:78-85 | record k is the record of run k |
| LegacyForecast.EmittedCount | WeatherGirls/ForecastViewModel.swift:100-113 | the loop emits no more records than runs and at most six |
| LegacyForecast.EmittedForecasts | WeatherGirls/ForecastViewModel.swift:64-114 | the result as written: the records of the first runs, as many as `EmittedCount` |
| LegacyForecast.Forecasts | WeatherGirls/ForecastViewModel.swift:64-114 | the intended result: one record per run for min(5, number of runs) runs |
| LegacyForecast.ForecastEntry | WeatherGirls/ForecastViewModel.swift:64-109 | record k carries run k's label ("Today" for the current day, else `weekdaySymbols[weekday-1]`); its temperature is the rounded converted temperature of the run's first maximal sample, at least every rounded sample of the run, and its condition and icon are that sample's when it has a `weather` element |
| LegacyForecast.EmittedVersusIntended | WeatherGirls/ForecastViewModel.swift:100-113 | as written, the loop returns the intended records, or those plus one more; the sixth record appears exactly when the sixth and last run is a single sample |
| LegacyForecast.SixDaysSixRuns | WeatherGirls/ForecastViewModel.swift:77-91 | six samples on six successive days make six runs, the last of one sample |
| LegacyForecast.SixDaysGiveSixRecords | WeatherGirls/ForecastViewModel.swift:100-113 | on six samples on six successive days, the loop as written returns six records, where five are intended |
| LegacyForecast.BeginFirst | WeatherGirls/ForecastViewModel.swift:69-75 | the first sample opens the first run; when it is the only sample, its record is the whole result |
| LegacyForecast.NewDayCloses | WeatherGirls/ForecastViewModel.swift:77-91 | a sample on a new day emits the open run's record as the next record and opens a run of its own |
| LegacyForecast.NewDayStops | WeatherGirls/ForecastViewModel.swift:77-113 | a new day before the last sample that completes five records ends the loop with the full result |
| LegacyForecast.NewDayLast | WeatherGirls/ForecastViewModel.swift:77-109 | a new day at the last sample emits both the closed run's record and the new run's record |
| LegacyForecast.SameDayCloses | WeatherGirls/ForecastViewModel.swift:92-98 | a sample on the open run's day extends that run, and the fold takes one more step |
| LegacyForecast.SameDayLast | WeatherGirls/ForecastViewModel.swift:92-109 | a same-day last sample folds in and emits the open run's record, which ends the result |
| LegacyForecast.EmittedAll | WeatherGirls/ForecastViewModel.swift:100-109 | once every run is emitted, the result is the records of the runs before the last, then the last one's |
| LegacyForecast.ScanOpen | WeatherGirls/ForecastViewModel.swift:64-114 | while the loop runs, its variables hold the open run's day, fold and label and the records of the closed runs |
| LegacyForecast.OpenStep | WeatherGirls/ForecastViewModel.swift:64-114 | reading a sample before the last keeps that invariant unless five records stop the loop |
| LegacyForecast.CloseStep | WeatherGirls/ForecastViewModel.swift:100-113 | at the last sample, or at five records, the records read so far are the result |
| LegacyForecast.ScanDoneFirst | WeatherGirls/ForecastViewModel.swift:69-113 | after the first sample, when it is the last or the loop stops, the records are the result |
| LegacyForecast.ScanDone | WeatherGirls/ForecastViewModel.swift:64-114 | after each sample, the variables are the loop's state, and when it stops or runs out of samples they hold the result |
| LegacyForecast.ScanLabelable | WeatherGirls/ForecastViewModel.swift:74-91 | each day whose label the loop computes has one: "Today" or an existing weekday symbol |
| LegacyForecast.ReadForecast | WeatherGirls/ForecastViewModel.swift:65-109 | one iteration on one sample: the new variables are the loop-step function of the old ones |
| LegacyForecast.ForecastViewModel.DecodeToForecastModels | WeatherGirls/ForecastViewModel.swift:48-117 | the loop returns exactly `EmittedForecasts`, whose relation to the runs the lemmas above state |
| LegacyForecast.ForecastViewModel.DecodeToForecastModelsCapped | WeatherGirls/ForecastViewModel.swift:111-113 | with the cap enforced, the result is the intended `Forecasts`, with at most five records |
| LegacyForecast.ForecastViewModel.FetchWeatherForCity | WeatherGirls/ForecastViewModel.swift:19-30 | without a service nothing changes and nothing is sent; otherwise (no busy guard) it sends a city query, a success sets the city to the name asked for and the forecasts to the decoded records, a failure leaves both, and the busy flag is clear on exit |
| LegacyForecast.ForecastViewModel.FetchWeatherForLocation | WeatherGirls/ForecastViewModel.swift:32-46 | as the city fetch with a coordinate query, but the city becomes the name in the response |
| LegacyForecast.ForecastViewModel.FetchWeatherForLasVegas | WeatherGirls/ForecastViewModel.swift:14-17 | a coordinate fetch at 36.1699, -115.1398 |

## Left out

- Networking and JSON decoding. `WeatherService` and `OpenWeatherCurrentRequest` are not part of this model. A fetch takes its outcome, a decoded response or a failure, as a parameter, and returns the request it would send.
- Concurrency. `@MainActor` and async/await are modelled as one sequential call. The busy flag is a pre/post condition. An interleaved fetch is not modelled.
- The clock, the calendar and the locale. `Date()`, time zones, `startOfDay`, the weekday component and the formatter's symbols are parameters. `.capitalized` is an uninterpreted function.
- IEEE-754. Doubles are `real`. The Kelvin constants, `rounded()` and `round` are exact. `Int(_:)` overflow on huge temperatures is not modelled.
- LegacyForecast.ForecastViewModel.DecodeToForecastModels: requires labels for the first six runs, because the source indexes `weekdaySymbols[weekday - 1]` and traps when the symbol is missing.
- CurrentForecast.ForecastViewModel.DecodeToForecastModels: requires a non-empty symbol list when there is more than one day, because `% shortWeekdays.count` traps on zero.
- WeatherData.DisplayTemperature: requires a temperature that parses as an integer. It does not model `Double(_:)` accepting fractional or exponent strings, because the app only stores integer strings.
- Particle scenes, emitters, `makeScene` and the gradient colours are not modelled. They are SpriteKit and SwiftUI objects with no logic to state.
- Haptic feedback and animation in `select(index:)` are not modelled. The firing of feedback is the method's result.
- Firebase, ads, the location manager, mock-data loading and the other SwiftUI views are not part of this model.
- The legacy service's `getForecast` and its units are not modelled. It is called with no units parameter, so the model leaves the unit of its request out.

## Findings

| source | as written | input that shows it | evidently intended | confidence | as-written member | corrected member |
|---|---|---|---|---|---|---|
| WeatherGirls/ForecastViewModel.swift:100-113 | the last-sample record is appended before the `models.count == 5` check. When the fifth record is emitted by a day change at the last sample, a sixth is appended in the same iteration, and the check `== 5` then never fires | six samples on six successive days, one per day: the loop returns six records | at most five records, one per run | not executed | LegacyForecast.SixDaysGiveSixRecords | LegacyForecast.ForecastViewModel.DecodeToForecastModelsCapped |
