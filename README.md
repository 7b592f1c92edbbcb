# Weekly weather forecast for Telegram: normalisation, fallback, rendering and schedule

This project is a Dafny model of the core of a Laravel application. The
application fetches a week's forecast for one coast location and posts it to
a Telegram chat. The model covers four parts of it.

- **Per-provider normalisation.** Windy and OpenWeatherMap each turn their
  answer into the same aggregate: day key, then time-range key, then an entry
  holding `date`, `day_name`, and the mean `temp`, `wind` and `wave`.
  - Each provider's `normalizeData` is modelled as it runs. A first loop
    creates entries and appends values to their lists (`Normalization.Collect`).
    A second loop replaces each list by its mean rounded to one decimal, or
    by null for an empty list (`Normalization.Average`, `Normalization.AverageDay`).
  - These methods are proved equal to a reference definition,
    `Normalization.Normalized`. It is stated by filters over the samples:
    which days and ranges are hit, in order of first sample, and which values
    each entry collects. The listed properties are proved about that reference.
  - The two providers differ only in how a payload becomes samples.
    OpenWeatherMap gives every record a temperature, a wind and an estimated
    wave, `max(0.1, 0.2·wind)`. Windy reads parallel arrays by the position in
    `ts`, and takes each field only when it is set at that position.
- **Provider fallback.** `WeatherService.getForecast` tries Windy, falls back
  to OpenWeatherMap, and raises one aggregate error when both fail. It is a
  function over the two adapters' results.
  - Each adapter's `getForecast` is modelled over the HTTP client's outcome:
    a response with its status and its decoded body, or a thrown value. The
    body is either an array or some other value; for the latter,
    `normalizeData(array $apiData)` raises a `TypeError`, which no
    `catch (\Exception $e)` catches (see "## Findings").
  - `isAnyApiAvailable` is a predicate over the two configured keys.
- **The two renderers.** The table renderer and the text renderer build the
  message string with nested loops, after `ksort` on both levels of the
  aggregate. They are modelled as methods, proved equal to the lines that two
  specification functions describe.
  - Both renderers' rows come from one shared definition, `Rendering.Rows`:
    days ascending, entries in ascending string-key order, configured ranges only.
  - Separate lemmas state the order of the rows, which entries get a row, the
    contents of each row, and the table's blank day cell.
- **Configuration and schedule.**
  - The `time_ranges` table, the providers' request settings, the default
    message format and the two schedules are Dafny constants.
  - The console kernel's choice of schedule by month, and its five-field cron
    expression, are functions. Any settings with days 0 to 6 and a time
    "hour:minute" in range are proved to give a valid five-field cron line, and
    the shipped settings are proved to be such settings.

PHP arrays used as dictionaries are modelled as `PhpArray.OrderedMap`: a
sequence of keys in insertion order plus a map. The renderers read the
first-inserted entry of a day (`reset`) before sorting it, so insertion order
matters. `ksort` is `PhpArray.KSort`; it is proved to keep the entries and
put the keys in ascending order, and that order is proved unique.

The local calendar uses a fixed UTC+3 offset, as the code comments state.
The local day is `(ts + 10800) div 86400` and the hour is
`((ts + 10800) mod 86400) div 3600`. The 'Y-m-d' day key is replaced by
this day number, because the two orders agree. The ISO weekday is
`(day + 3) mod 7 + 1`, since 1970-01-01 was a Thursday.

Where the code and the surrounding comments disagree, the model follows the code:

- **Summer runs into September.** The summer schedule applies in months 6 to
  9 (`app/Console/Kernel.php:16`). The configuration's comment says June to
  August (`config/weather.php:66`). `Kernel.ShippedCron` states the code's behaviour.
- **Entry order is evening, morning, noon.** Within a day, entries are emitted
  in `ksort` order (`app/Services/Formatters/MarkdownFormatter.php:30`). The
  comment names morning, noon, evening, but `ksort` gives evening, morning,
  noon. `Rendering.ConfiguredDayOrder` states this.
- **A new day can get a blank day cell.** The table blanks the day cell when
  the day *name* equals the previous row's. A new day exactly a whole number of
  weeks after the previous row's day therefore gets a blank cell.
  `MarkdownFormatter.WeekdayCell` states when this happens for a normalised
  forecast. It is modelled as written.

## Model

| member | source | states |
|---|---|---|
| PhpArray.OrderedMap.Put | app/Services/Weather/OpenWeatherMapAdapter.php:83-91 | storing under a key keeps the array well formed: distinct keys, exactly the keys of the map |
| PhpArray.InsertKey | app/Services/Formatters/MarkdownFormatter.php:21 | inserting a key into an ascending key sequence gives an ascending sequence holding exactly the old keys and the new one |
| PhpArray.SortKeys | app/Services/Formatters/MarkdownFormatter.php:21 | the sorted keys ascend and are a permutation of the input keys |
| PhpArray.KSort | app/Services/Formatters/MarkdownFormatter.php:30 | `ksort` keeps every entry and key, and leaves the keys strictly ascending |
| PhpArray.IncreasingUnique | app/Services/Formatters/TextFormatter.php:28 | two strictly ascending sequences with the same keys are equal: the order `ksort` produces is the only one |
| PhpArray.SameHead | app/Services/Formatters/TextFormatter.php:28 | two ascending sequences with the same keys start with the same key |
| PhpArray.StrLtIrreflexive | app/Services/Formatters/TextFormatter.php:28 | no range key sorts before itself |
| PhpArray.StrLtTransitive | app/Services/Formatters/TextFormatter.php:28 | the string order on range keys is transitive |
| PhpArray.StrLtTotal | app/Services/Formatters/TextFormatter.php:28 | any two distinct range keys are ordered one way or the other |
| PhpArray.StrLtIsStrictTotalOrder | app/Services/Formatters/MarkdownFormatter.php:30 | byte-wise string order on range keys is a strict total order, so `ksort($dayData)` is well defined |
| PhpArray.IntLtIsStrictTotalOrder | app/Services/Formatters/MarkdownFormatter.php:21 | instance: the order on day keys is a strict total order, so `ksort($weatherData)` is well defined |
| WeatherConfig.FindRange | app/Services/Formatters/MarkdownFormatter.php:33-37 | a key finds a range exactly when some configured range has that key, and the range found has it |
| WeatherConfig.DetermineTimeRange | app/Services/Weather/OpenWeatherMapAdapter.php:148-159 | null exactly when no range holds the hour; otherwise the key of the first range, in configured order, with start <= hour < end |
| WeatherConfig.ConfiguredTimeRange | config/weather.php:22-41 | with the shipped table, hours 6-10 are morning, 11-15 noon, 16-21 evening, and every other hour is in no range |
| WeatherConfig.TimeRangesWellFormed | config/weather.php:22-41 | each range starts before it ends, no hour is in two ranges, every range has an emoji and a name, and the keys are morning, noon, evening in that order |
| Calendar.LocalHour | app/Services/Weather/OpenWeatherMapAdapter.php:69-74 | the local hour is between 0 and 23 |
| Calendar.LocalTimeDecomposition | app/Services/Weather/WindyAdapter.php:75-80 | the local time is the local day, then the local hour, then less than one hour of seconds |
| Calendar.IsoWeekday | app/Services/Weather/OpenWeatherMapAdapter.php:179 | `format('N')` is between 1 (Monday) and 7 (Sunday) |
| Calendar.DayNameNonEmpty | app/Services/Weather/OpenWeatherMapAdapter.php:169-177 | no weekday name is empty, and none starts with '-' |
| Calendar.DayNameWeekly | app/Services/Weather/OpenWeatherMapAdapter.php:167-180 | two days get the same name exactly when they are a whole number of weeks apart |
| Calendar.EpochIsThursday | app/Services/Weather/WindyAdapter.php:163-176 | example: 1970-01-01 is weekday 4, "Четверг", also in UTC+3 |
| Text.NatToString | app/Console/Kernel.php:24 | a natural number's text is non-empty decimal digits without a leading zero |
| Text.IntToStringRoundTrip | app/Console/Kernel.php:24 | the text PHP writes for a whole number reads back as that number |
| Text.NatToStringRoundTrip | app/Console/Kernel.php:24 | the digits of a natural number denote it |
| Text.TenthsToString | app/Services/Formatters/MarkdownFormatter.php:44 | a number of tenths that is a whole number prints as that whole number, with no decimal part |
| Text.TenthsToStringRoundTrip | app/Services/Formatters/MarkdownFormatter.php:44 | the text written for any number of tenths has the shape sign, digits, optional point and digit, reads back as that number, and starts with "-" exactly when the number is negative |
| Text.Split | app/Console/Kernel.php:26 | `explode` always gives at least one piece |
| Text.JoinSplit | app/Console/Kernel.php:26 | joining the pieces of an `explode` with its separator gives the string back |
| Text.SplitJoin | app/Console/Kernel.php:24-26 | `explode` of an `implode` gives the pieces back when no piece holds the separator |
| Text.SplitSingle | app/Console/Kernel.php:26 | `explode` gives a single piece exactly when the separator does not occur in the string |
| Text.JoinLinesAppend | app/Services/Formatters/TextFormatter.php:16-50 | a message built from two runs of lines is the message of the first run followed by that of the second |
| Text.JoinLinesSnoc | app/Services/Formatters/TextFormatter.php:46 | appending a line to the message adds the line and a newline at its end |
| Rounding.RoundHalfAway | app/Services/Formatters/MarkdownFormatter.php:42-43 | `round($x)` is within one half of x, and a tie goes away from zero |
| Rounding.Round1 | app/Services/Weather/OpenWeatherMapAdapter.php:106-116 | `round($x, 1)` is within 0.05 of x |
| Rounding.RoundHalfAwayMonotone | app/Services/Formatters/MarkdownFormatter.php:42-43 | rounding to a whole number never reverses the order of two values |
| Rounding.Round1Monotone | app/Services/Weather/OpenWeatherMapAdapter.php:106-116 | rounding to one decimal never reverses the order of two values |
| Rounding.RoundHalfAwayWhole | app/Services/Formatters/MarkdownFormatter.php:42 | a whole number rounds to itself |
| Rounding.Round1Idempotent | app/Services/Formatters/MarkdownFormatter.php:44 | rounding a stored mean to one decimal again changes nothing |
| Rounding.Mean | app/Services/Weather/WindyAdapter.php:116-126 | a field is null exactly when its list is empty, never 0 |
| Rounding.SumBounds | app/Services/Weather/OpenWeatherMapAdapter.php:106-116 | the sum of n values within [lo, hi] lies within [n·lo, n·hi] |
| Rounding.MeanBounds | app/Services/Weather/OpenWeatherMapAdapter.php:106-116 | the stored mean of values within [lo, hi] lies within [round(lo, 1), round(hi, 1)] |
| Rounding.MeanAtLeast | app/Services/Weather/OpenWeatherMapAdapter.php:114-116 | the stored mean of values at least lo is at least round(lo, 1) |
| Rounding.MeanExamples | app/Services/Weather/OpenWeatherMapAdapter.php:106-108 | example: the lists [20, 22, 24] and [0.3, 0.7] store 22 and 0.5 |
| Exceptions.Wrapped | app/Services/Weather/OpenWeatherMapAdapter.php:44-51 | what leaves the catch: a `WeatherApiException` as it is; any other `\Exception` as a `WeatherApiException` whose message is the prefix followed by the original message, chaining the original; an `\Error` unchanged, since `catch (\Exception $e)` does not catch it |
| Exceptions.Fetched | app/Services/Weather/WindyAdapter.php:20-53 | an adapter answers exactly when the response is 2xx with an array body, with the normalised body; a non-2xx status fails with the status message; a 2xx body that is not an array fails with the `TypeError`; a failure is a `WeatherApiException` exactly when the throwable does not escape the catch |
| Exceptions.FetchedCatchingAll | app/Services/Weather/WindyAdapter.php:18-53 | corrected: with every throwable caught, an adapter answers in the same cases, agrees with `Fetched` wherever nothing escapes, and fails only with a `WeatherApiException` |
| Exceptions.FailedFetch | app/Services/Weather/WindyAdapter.php:39-52 | every outcome other than a 2xx array body ends in the failure `Fetched` gives it |
| Normalization.PlaceAll | app/Services/Weather/OpenWeatherMapAdapter.php:69-77 | every sample gets the local day and the range of its own timestamp, in sample order |
| Normalization.Dedup | app/Services/Weather/OpenWeatherMapAdapter.php:83-91 | days and ranges appear once each, in order of their first sample, and exactly those hit appear |
| Normalization.StatsMap | app/Services/Weather/OpenWeatherMapAdapter.php:104-123 | a day's entries are exactly its hit ranges, each with the stats of its samples |
| Normalization.DaysMap | app/Services/Weather/OpenWeatherMapAdapter.php:104-123 | the aggregate's days are exactly the hit days, each with its entries |
| Normalization.DaysMembers | app/Services/Weather/OpenWeatherMapAdapter.php:73-91 | a day is in the result exactly when some sample on it falls in a range |
| Normalization.RangesOnMembers | app/Services/Weather/OpenWeatherMapAdapter.php:77-91 | a range is listed for a day exactly when some sample on that day falls in it |
| Normalization.NoDayNoRanges | app/Services/Weather/OpenWeatherMapAdapter.php:77-80 | a day that no sample falls on has no ranges |
| Normalization.NoHitNoValues | app/Services/Weather/OpenWeatherMapAdapter.php:77-80 | an entry that no sample falls in collects no values |
| Normalization.ValuesEmpty | app/Services/Weather/WindyAdapter.php:100-110 | an entry's list of a field is empty exactly when none of its samples carries that field |
| Normalization.NormalizedValid | app/Services/Weather/OpenWeatherMapAdapter.php:60-126 | both levels of the result are well-formed PHP arrays |
| Normalization.DayHasEntry | app/Services/Weather/OpenWeatherMapAdapter.php:83-91 | every day of the result holds at least one entry |
| Normalization.EntryExistsIffHit | app/Services/Weather/OpenWeatherMapAdapter.php:77-91 | an entry (day, range) exists exactly when some sample's local day is that day and its hour falls in that range |
| Normalization.RangeKeysConfigured | app/Services/Weather/WindyAdapter.php:83-97 | every range key of the result is a key of `time_ranges` |
| Normalization.EntryStats | app/Services/Weather/OpenWeatherMapAdapter.php:83-123 | an entry's `date` is its day, its `day_name` is the day's weekday name, each field is the rounded mean of its samples' values, and a field is null exactly when none of its samples carries it |
| Normalization.SnocOutOfRange | app/Services/Weather/OpenWeatherMapAdapter.php:77-80 | a sample outside every range changes no day, range or list |
| Normalization.SnocInRange | app/Services/Weather/OpenWeatherMapAdapter.php:83-100 | a sample in a range adds its day and range if new, and appends its given fields to its own entry only |
| Normalization.ValuesMembers | app/Services/Weather/OpenWeatherMapAdapter.php:94-100 | every value in an entry's list is the field of one of that entry's samples |
| Normalization.FullSamplesInStep | app/Services/Weather/OpenWeatherMapAdapter.php:94-100 | when every sample carries all three fields, an entry's three lists have equal length, which is nonzero exactly when the entry exists |
| Normalization.SameLayoutKeys | app/Services/Weather/WindyAdapter.php:73-97 | samples placed in the same entries give the same days and ranges |
| Normalization.SameLayoutValues | app/Services/Weather/WindyAdapter.php:100-110 | samples placed alike that agree on a field give the same lists of that field |
| Normalization.SameTimestamps | app/Services/Weather/WindyAdapter.php:100-126 | two sample lists with the same timestamps that agree on one field give the same days, entries and that field's means |
| Normalization.CollectSkip | app/Services/Weather/OpenWeatherMapAdapter.php:77-80 | the first loop's `continue` keeps its invariant: the lists collected so far are those of the reference |
| Normalization.CollectHit | app/Services/Weather/OpenWeatherMapAdapter.php:83-100 | creating the entry if needed and appending the sample's fields keeps the first loop's invariant |
| Normalization.HitEntry | app/Services/Weather/WindyAdapter.php:89-110 | the sample's entry after the step is the new empty entry or the old one, with each given field appended |
| Normalization.Collect | app/Services/Weather/OpenWeatherMapAdapter.php:67-101 | after the first loop, the days, entries and lists are exactly those of the reference, in insertion order |
| Normalization.AverageEntries | app/Services/Weather/OpenWeatherMapAdapter.php:105-122 | a day's averaged entries are exactly its entries, each with its lists replaced by their means |
| Normalization.AverageDays | app/Services/Weather/OpenWeatherMapAdapter.php:104-123 | the averaged days are exactly the collected days, each averaged |
| Normalization.AverageDay | app/Services/Weather/OpenWeatherMapAdapter.php:105-122 | the inner averaging loop replaces each entry's lists by their means and keeps the key order |
| Normalization.Average | app/Services/Weather/OpenWeatherMapAdapter.php:104-123 | the averaging loops replace every entry's lists by their means and keep both key orders |
| Normalization.AverageDayCollected | app/Services/Weather/WindyAdapter.php:114-133 | averaging one collected day gives the reference entries of that day |
| Normalization.AverageDaysCollected | app/Services/Weather/WindyAdapter.php:114-133 | averaging the collected days gives their reference entries |
| Normalization.AverageCollected | app/Services/Weather/OpenWeatherMapAdapter.php:104-123 | averaging what the first loop collected gives the reference aggregate |
| Normalization.Normalize | app/Services/Weather/OpenWeatherMapAdapter.php:60-126 | the two loops together return the reference aggregate of the samples |
| OpenWeatherMap.EstimateWaveHeight | app/Services/Weather/OpenWeatherMapAdapter.php:135-140 | the estimate is the larger of 0.1 and 0.2·wind |
| OpenWeatherMap.EstimateWaveHeightMonotone | app/Services/Weather/OpenWeatherMapAdapter.php:135-140 | a stronger wind never gives a lower wave |
| OpenWeatherMap.EstimateWaveHeightExamples | app/Services/Weather/OpenWeatherMapAdapter.php:135-140 | example: 5 m/s gives 1 m, and calm gives 0.1 m |
| OpenWeatherMap.Samples | app/Services/Weather/OpenWeatherMapAdapter.php:65-100 | no `list` gives no samples; otherwise there is one sample per record, in order |
| OpenWeatherMap.NormalizeData | app/Services/Weather/OpenWeatherMapAdapter.php:60-126 | returns the reference aggregate of the records' samples |
| OpenWeatherMap.GetForecast | app/Services/Weather/OpenWeatherMapAdapter.php:20-52 | the result is what `Exceptions.Fetched` gives for OpenWeatherMap, with `normalizeData` on a 2xx array body |
| OpenWeatherMap.NoListNoForecast | app/Services/Weather/OpenWeatherMapAdapter.php:65 | a payload without `list` gives an empty forecast |
| OpenWeatherMap.PlacedSamples | app/Services/Weather/OpenWeatherMapAdapter.php:94-100 | every record carries a temperature, a wind and a wave of at least 0.1 |
| OpenWeatherMap.FieldsNeverNull | app/Services/Weather/OpenWeatherMapAdapter.php:94-116 | an entry's three lists have equal, nonzero length, so its temp, wind and wave are never null |
| OpenWeatherMap.WaveAtLeastFloor | app/Services/Weather/OpenWeatherMapAdapter.php:99-116 | every entry's wave is at least 0.1 |
| OpenWeatherMap.MeanWaveAtLeastFloor | app/Services/Weather/OpenWeatherMapAdapter.php:114-116 | the stored mean of estimated waves is at least 0.1 |
| Windy.At | app/Services/Weather/WindyAdapter.php:100-110 | `isset($values[$index])` holds exactly when the position exists and its value is not null, and then gives that value |
| Windy.Samples | app/Services/Weather/WindyAdapter.php:66-73 | one sample per position of `ts`, each built from that position of the arrays |
| Windy.NormalizeData | app/Services/Weather/WindyAdapter.php:61-136 | returns the reference aggregate of the positions' samples |
| Windy.GetForecast | app/Services/Weather/WindyAdapter.php:20-53 | the result is what `Exceptions.Fetched` gives for Windy, with `normalizeData` on a 2xx array body |
| Windy.NoTimestampsNoForecast | app/Services/Weather/WindyAdapter.php:66-71 | a payload without `ts` gives an empty forecast, whatever else it holds |
| Windy.IgnoresValuesPastTimestamps | app/Services/Weather/WindyAdapter.php:73-110 | cutting every value array to the length of `ts` changes nothing |
| Windy.FieldsIndependent | app/Services/Weather/WindyAdapter.php:100-110 | a field's means depend only on `ts` and that field's own array |
| Windy.EntryFromTimestamps | app/Services/Weather/WindyAdapter.php:83-126 | an entry exists exactly when some timestamp falls on its day and in its range; a field of it is null exactly when no such timestamp has that field set |
| Windy.EntryFromHit | app/Services/Weather/WindyAdapter.php:83-97 | an entry exists exactly when some timestamp falls on its day and in its range, even when all three fields are missing there |
| Windy.FieldFromHits | app/Services/Weather/WindyAdapter.php:100-126 | a field of an entry is null exactly when none of the entry's timestamps has that field set |
| WeatherService.GetForecast | app/Services/Weather/WeatherService.php:40-70 | Windy's answer is returned when it succeeds. After a `WeatherApiException` from Windy, OpenWeatherMap's answer is returned. When both raise one, the result is the fixed aggregate error chaining OpenWeatherMap's. Any other exception propagates unchanged |
| WeatherService.WindyAnswerWins | app/Services/Weather/WeatherService.php:43-46 | when Windy answers, OpenWeatherMap's outcome makes no difference |
| WeatherService.FallbackOverAdapters | app/Services/Weather/WeatherService.php:40-70 | over the two adapters as written: Windy's forecast if it answered; a throwable escaping Windy's catch is returned unchanged and OpenWeatherMap is not asked; otherwise OpenWeatherMap's answer or escaping throwable; when nothing escapes, failure exactly when both fail, with the aggregate error chaining OpenWeatherMap's |
| WeatherService.WindyEmptyBodyNoFallback | app/Services/Weather/WindyAdapter.php:43-45 | counterexample: a 2xx Windy response with an empty body fails the whole service with the `TypeError`, although OpenWeatherMap answers |
| WeatherService.FallbackOverCorrectedAdapters | app/Services/Weather/WeatherService.php:40-70 | corrected: over adapters that catch every throwable, the service fails exactly when both providers fail, always with the aggregate error chaining OpenWeatherMap's |
| WeatherService.IsAnyApiAvailable | app/Services/Weather/WeatherService.php:77-98 | true exactly when the Windy key or the OpenWeatherMap key is not `empty()` |
| WeatherService.ZeroKeyIsMissing | app/Services/Weather/WeatherService.php:82-88 | example: keys "0" and "" count as missing, and "00" does not |
| Rendering.WholeReadsBack | app/Services/Formatters/MarkdownFormatter.php:42-43 | the number a temperature or wind cell shows is within one half of the value, and the cell carries a minus sign exactly when the value is negative ("-0" for a value in (-0.5, 0)) |
| Rendering.TenthsReadsBack | app/Services/Formatters/MarkdownFormatter.php:44 | the wave text has the one-decimal shape, the number it denotes is within 0.05 of the value, and it carries a minus sign exactly when the value is negative |
| Rendering.TenthsOfWhole | app/Services/Formatters/MarkdownFormatter.php:44 | a wave that is a whole number prints without a decimal part |
| Rendering.TempCell | app/Services/Formatters/MarkdownFormatter.php:42 | the cell is "Н/Д" exactly when the temperature is null |
| Rendering.WindCell | app/Services/Formatters/MarkdownFormatter.php:43 | the cell is "Н/Д" exactly when the wind is null |
| Rendering.WaveCell | app/Services/Formatters/TextFormatter.php:43 | the cell is "Н/Д" exactly when the wave is null |
| Rendering.DayOrder | app/Services/Formatters/MarkdownFormatter.php:21 | the days are taken in strictly ascending key order, each day once |
| Rendering.DayOrderMembers | app/Services/Formatters/TextFormatter.php:19 | the sorted day keys are exactly the aggregate's days |
| Rendering.EntryOrder | app/Services/Formatters/MarkdownFormatter.php:30 | a day's entries are taken in strictly ascending string-key order, each entry once |
| Rendering.EntryOrderMembers | app/Services/Formatters/TextFormatter.php:28 | the sorted entry keys are exactly the day's entries |
| Rendering.EntryRow | app/Services/Formatters/MarkdownFormatter.php:33-44 | an entry gets a row exactly when its key is a configured range; the row carries the day, its shown name, that range and the entry's stats |
| Rendering.EntryRowsShow | app/Services/Formatters/TextFormatter.php:30-37 | every row of a day shows one of its entries under the day's shown name |
| Rendering.EntryRowsCover | app/Services/Formatters/MarkdownFormatter.php:32-37 | every configured entry among the keys gets a row |
| Rendering.EntryRowsSorted | app/Services/Formatters/MarkdownFormatter.php:30-32 | a day's rows follow ascending string-key order |
| Rendering.DayRowsFacts | app/Services/Formatters/MarkdownFormatter.php:26-54 | a day's rows show its entries, cover every configured entry and ascend by key |
| Rendering.DaysRowsShow | app/Services/Formatters/TextFormatter.php:23-47 | every row is of one of the days and shows an entry of that day under its shown name |
| Rendering.DaysRowsCover | app/Services/Formatters/MarkdownFormatter.php:26-37 | every configured entry of every day gets a row |
| Rendering.DaysRowsSorted | app/Services/Formatters/MarkdownFormatter.php:21-32 | rows ascend by day, and within a day by range key |
| Rendering.RowsOrdered | app/Services/Formatters/MarkdownFormatter.php:21-32 | any earlier row has an earlier day, or the same day and a smaller range key |
| Rendering.RowsComplete | app/Services/Formatters/MarkdownFormatter.php:26-44 | a row for (day, key) exists exactly when the day has that entry and the key is configured; such a row carries that range, that entry's stats and the day's shown name |
| Rendering.ConfiguredDayOrder | app/Services/Formatters/MarkdownFormatter.php:30 | a day with all three configured entries gives three rows, in the order evening, morning, noon |
| Rendering.ConfiguredKeysSorted | app/Services/Formatters/TextFormatter.php:28 | sorting the three configured keys gives evening, morning, noon |
| Rendering.ThreeRows | app/Services/Formatters/MarkdownFormatter.php:30-35 | the keys evening, morning, noon give exactly three rows in that order |
| Rendering.AllConfiguredRows | app/Services/Formatters/MarkdownFormatter.php:32-37 | when every key is a configured entry, each key gets its row, in the order of the keys |
| Rendering.NormalizedShownName | app/Services/Formatters/MarkdownFormatter.php:27 | for a normalised forecast, the shown name of a day is the weekday name of its date |
| Rendering.NormalizedWellFormed | app/Services/Formatters/TextFormatter.php:19-28 | a normalised forecast is a well-formed input to both renderers |
| Rendering.NormalizedNamesWeekdays | app/Services/Formatters/TextFormatter.php:24 | a normalised forecast names every day by its weekday |
| MarkdownFormatter.Lines | app/Services/Formatters/MarkdownFormatter.php:16-51 | the message is the three header lines, then one line per row; line 3+i shows row i under its day cell |
| MarkdownFormatter.TableLines | app/Services/Formatters/MarkdownFormatter.php:47-51 | one table line per row |
| MarkdownFormatter.TableLinesAll | app/Services/Formatters/MarkdownFormatter.php:47-51 | table line i shows row i under its day cell |
| MarkdownFormatter.RowStep | app/Services/Formatters/MarkdownFormatter.php:47-53 | a row's line carries the day name when it differs from `$previousDay`, and a blank day cell otherwise |
| MarkdownFormatter.BlankCell | app/Services/Formatters/MarkdownFormatter.php:50 | a blank day cell is written as "\|  \| " |
| MarkdownFormatter.HeaderText | app/Services/Formatters/MarkdownFormatter.php:16-18 | the header is the title naming the location, the table's column names and its separator line |
| MarkdownFormatter.DayStep | app/Services/Formatters/MarkdownFormatter.php:26-30 | the next day adds its rows, in ascending key order, under its first entry's day name |
| MarkdownFormatter.EntryStep | app/Services/Formatters/MarkdownFormatter.php:32-35 | the next key adds its row if it is configured, and nothing otherwise |
| MarkdownFormatter.FormatHeader | app/Services/Formatters/MarkdownFormatter.php:16-18 | the message starts as the three header lines |
| MarkdownFormatter.FormatEntry | app/Services/Formatters/MarkdownFormatter.php:33-53 | one entry adds its line if configured, and `$previousDay` becomes the last emitted row's day name |
| MarkdownFormatter.FormatEntries | app/Services/Formatters/MarkdownFormatter.php:32-54 | a day's entry loop adds the lines of its rows and leaves `$previousDay` at the last emitted row's name |
| MarkdownFormatter.FormatDay | app/Services/Formatters/MarkdownFormatter.php:26-55 | one day adds the table lines of its rows after those of the earlier days |
| MarkdownFormatter.FormatDays | app/Services/Formatters/MarkdownFormatter.php:26-55 | the day loop writes, after the header, the table lines of all rows of the days in order |
| MarkdownFormatter.Format | app/Services/Formatters/MarkdownFormatter.php:14-58 | the message is the header and then one table line per row, each line ending in a newline |
| MarkdownFormatter.RowsShowWeekdays | app/Services/Formatters/MarkdownFormatter.php:27 | when every day is named by its weekday, every row shows its date's weekday name |
| MarkdownFormatter.WeekdayCell | app/Services/Formatters/MarkdownFormatter.php:47-53 | under weekday names, a day cell is blank exactly when the previous row's day is a whole number of weeks earlier; otherwise it is the weekday name |
| MarkdownFormatter.ShownAsWeekday | app/Services/Formatters/MarkdownFormatter.php:27 | every row of a forecast whose days are named by weekday shows its date's weekday name |
| TextFormatter.EntryLines | app/Services/Formatters/TextFormatter.php:46 | one line per row |
| TextFormatter.Lines | app/Services/Formatters/TextFormatter.php:16-50 | the message starts with the title line and a blank line |
| TextFormatter.HeaderText | app/Services/Formatters/TextFormatter.php:16 | the header is "Прогноз погоды для {location} на неделю:" and a blank line |
| TextFormatter.FormatHeader | app/Services/Formatters/TextFormatter.php:16 | the message starts as the two header lines |
| TextFormatter.FormatEntry | app/Services/Formatters/TextFormatter.php:31-46 | one entry adds its "- " line if its key is configured, and nothing otherwise |
| TextFormatter.FormatEntries | app/Services/Formatters/TextFormatter.php:30-47 | a day's entry loop adds one line per row of the day |
| TextFormatter.FormatDay | app/Services/Formatters/TextFormatter.php:24-49 | one day adds its heading, its rows' lines and a blank line after the earlier days' blocks |
| TextFormatter.FormatDays | app/Services/Formatters/TextFormatter.php:23-50 | the day loop writes, after the header, the block of every day in order |
| TextFormatter.Format | app/Services/Formatters/TextFormatter.php:14-53 | the message is the header, then every day's block in ascending key order, each line ending in a newline |
| TextFormatter.LineCount | app/Services/Formatters/TextFormatter.php:16-49 | the message has two header lines, a heading and a blank line per day, and one line per row |
| TextFormatter.EntryLinesIn | app/Services/Formatters/TextFormatter.php:46 | filtering keeps only lines that start with "- " |
| TextFormatter.EntryLinesShown | app/Services/Formatters/TextFormatter.php:30-46 | when no day name starts with '-', the message's "- " lines are exactly the rows' lines, in row order |
| TextFormatter.NormalizedEntryLines | app/Services/Formatters/TextFormatter.php:24-46 | for a normalised forecast, the "- " lines are exactly one per row, in row order |
| TextFormatter.HeadingShown | app/Services/Formatters/TextFormatter.php:24-25 | every day has its "{dayName}:" heading in the message, whether or not it has rows |
| TextFormatter.BlocksEntryLines | app/Services/Formatters/TextFormatter.php:25-49 | the "- " lines among the day blocks are exactly the rows' lines |
| TextFormatter.RangeLabels | app/Services/Formatters/TextFormatter.php:38 | the three configured ranges show "(6:00–11:00)", "(11:00–16:00)" and "(16:00–22:00)" |
| Kernel.IsSummerPeriod | app/Console/Kernel.php:16 | the summer period holds exactly for months 6 to 9, September included |
| Kernel.DayTexts | app/Console/Kernel.php:24 | one text per configured day |
| Kernel.HourMinute | app/Console/Kernel.php:26 | there is no hour and minute exactly when the time holds no colon, where `schedule()` throws |
| Kernel.CronExpression | app/Console/Kernel.php:24-29 | there is no cron expression exactly when the time holds no colon |
| Kernel.ShippedDays | app/Console/Kernel.php:24 | shipped instance: the shipped day lists join to "0,2,4" and "0,3" |
| Kernel.ShippedTime | app/Console/Kernel.php:25-26 | shipped instance: "08:00" splits into hour "08" and minute "00" |
| Kernel.SummerCron | app/Console/Kernel.php:19-29 | shipped instance: the summer settings give "00 08 * * 0,2,4" |
| Kernel.DefaultCron | app/Console/Kernel.php:19-29 | shipped instance: the default settings give "00 08 * * 0,3" |
| Kernel.ShippedCron | app/Console/Kernel.php:16-29 | months 6 to 9 run on "00 08 * * 0,2,4" and all other months on "00 08 * * 0,3" |
| Kernel.HourMinuteRoundTrip | app/Console/Kernel.php:26 | splitting "hour:minute" gives the hour and the minute back when neither holds a colon |
| Kernel.CronJoinsFields | app/Console/Kernel.php:29 | when the time can be split, the expression is its five fields joined by single spaces |
| Kernel.CronHasFiveFields | app/Console/Kernel.php:29 | when the time holds no space and can be split, splitting the expression on spaces gives exactly its five fields |
| Kernel.ScheduleDaysRoundTrip | app/Console/Kernel.php:24 | splitting the day field on commas gives back each day's text, and each text reads back as its day |
| Kernel.ValidScheduleCron | app/Console/Kernel.php:24-29 | settings with at least one day, all in 0-6, and a time "hour:minute" with hour 0-23 and minute 0-59 give a five-field cron line: minute 0-59, hour 0-23, "*", "*", days 0-6; its hour, minute and day fields are the settings' own |
| Kernel.ShippedSchedulesValid | config/weather.php:65-76 | the shipped summer and default settings are such settings |
| Kernel.CronForValid | app/Console/Kernel.php:16-29 | in every month the job is scheduled with a valid five-field cron line |

## Left out

- HTTP transport is not modelled: `Http::retry`, `timeout`, the request parameters and the API keys in the request. Each adapter's request is an abstract outcome: a response with its status and its body as `json()` decodes it (an array, or another value named by its PHP type), or a thrown value. The retry settings are constants only.
- Logging (`Log::info`, `Log::warning`, `Log::error`) has no effect on results and is left out.
- The Telegram service, the fetch-and-send console command, the service provider, the web routes and the two interfaces are outside this model.
- The scheduler's call chain (`command`, `cron`, `timezone`, `withoutOverlapping`, `runInBackground`, `appendOutputTo`) is left out. So is `now()`: the month is a parameter.
- The `coordinates` block of the configuration is left out. It is read only by the command.
- `env()` is left out: the constants are the shipped defaults.
- Calendar: Europe/Moscow is a fixed UTC+3 offset. The time zone database's historical offsets are not modelled.
- The 'Y-m-d' day key and the `date` field hold the local day number instead of the date string. Both order alike for four-digit years.
- Rounding.Round1: PHP's `round` works on IEEE-754 doubles. The model rounds exact reals, half away from zero, so values that are not exact in binary may round differently in PHP.
- Rendering.Tenths: PHP's float-to-string conversion is modelled only for multiples of 0.1 as the model computes them. Binary representation artefacts are not captured.
- Rendering.Whole, Rendering.TempCell: a value in (-0.5, 0) prints "-0", as PHP prints the float -0. A stored mean that PHP holds as -0.0, because `round($mean, 1)` of a mean in (-0.05, 0) gives -0.0, is the real 0 here, so its cells show "0°C", "0 м/с" and "0" where PHP shows "-0°C", "-0 м/с" and "-0". Reals carry no sign of zero.
- OpenWeatherMap.Samples: every record is assumed to carry `dt`, `main.temp` and `wind.speed`. For a record missing one of them, the framework's error handler turns PHP's "Undefined array key" warning into an `ErrorException`; the adapter's catch wraps it into a `WeatherApiException`, which leads to the fallback or the aggregate error. That path is not modelled.
- Windy.Samples: `ts` and the value arrays are taken as lists indexed from 0. Arrays with other keys and non-numeric values are not modelled.
- PhpArray.StrLt: range keys are compared byte by byte. PHP 8's `ksort` compares two numeric strings as numbers, which no key produced by the normalisers is.
- WeatherConfig.DetermineTimeRange: the adapters skip a sample when `! $timeRange` holds, which would also skip a key "0". No configured key is "0", so the model skips exactly the null case.
- WeatherService.IsAnyApiAvailable: the `catch` branch that answers false when reading the configuration throws is not modelled. Reading the two keys cannot fail here.
- Exceptions.NotArrayError: the `TypeError` message leaves out the class name before `normalizeData()` and the "called in <file> on line <n>" suffix PHP adds.
- Normalization.Collect, Normalization.Average: PHP arrays are values, so the in-place updates of `$result` are modelled as reassignments of an `OrderedMap` value. The averaging loop over one day is its own method, `Normalization.AverageDay`. The `unset` of the three lists is modelled by building the result entry without them.
- MarkdownFormatter.Format, TextFormatter.Format: the nested loops are split into one method per loop level. The message string is threaded through them as a value. `ksort` returns the sorted key order instead of sorting the local copy in place.
- The `message_format` setting is a constant only. The code that chooses a renderer by it lives in the command.

## Findings

| source | as written | input that shows it | evidently intended | confidence | as-written member | corrected member |
|---|---|---|---|---|---|---|
| app/Services/Weather/WindyAdapter.php:43-45 | `normalizeData(array $apiData)` receives `$response->json()` inside `catch (\Exception $e)`. A 2xx body that is not a JSON array makes it raise a `TypeError`, an `\Error` that neither that catch nor the service's `catch (WeatherApiException $e)` (app/Services/Weather/WeatherService.php:47) catches. | Windy answers 200 with an empty body, so `json()` is null, while OpenWeatherMap would answer | every adapter failure is a `WeatherApiException`, as `@throws` at app/Services/Weather/WindyAdapter.php:18 says, so the service falls back to OpenWeatherMap | medium, not executed | WeatherService.WindyEmptyBodyNoFallback | WeatherService.FallbackOverCorrectedAdapters |
