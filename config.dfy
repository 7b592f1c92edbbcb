/**
 * The weather configuration: the three daily time ranges, the per-provider
 * request settings, the default message format and the two schedules.
 */
module WeatherConfig {
  import opened Wrappers

  /** One entry of `time_ranges`: its key, [start, end) in local hours, emoji and display name. */
  datatype TimeRange = TimeRange(key: string, start: int, end: int, emoji: string, name: string) {
    /** The hour falls in this range: start inclusive, end exclusive. */
    predicate Holds(hour: int) {
      start <= hour < end
    }
  }

  /** `time_ranges`, in configured order. */
  const TimeRanges: seq<TimeRange> := [
    TimeRange("morning", 6, 11, "🌞", "Утро"),
    TimeRange("noon", 11, 16, "☀️", "Полдень"),
    TimeRange("evening", 16, 22, "🌙", "Вечер")
  ]

  /** Request settings of one provider: timeout and retry delay in seconds. */
  datatype ApiSettings = ApiSettings(baseUrl: string, timeout: nat, retryAttempts: nat, retryDelay: nat)

  const WindyApi := ApiSettings("https://api.windy.com/api/point-forecast/v2", 10, 3, 5)
  const OpenWeatherMapApi := ApiSettings("https://api.openweathermap.org/data/2.5", 10, 3, 5)

  /** `message_format` when the environment does not set it: "table", "text" or "both". */
  const DefaultMessageFormat := "both"

  /** One schedule: days of the week (0 = Sunday) and the local time "HH:MM". */
  datatype ScheduleSettings = ScheduleSettings(days: seq<int>, time: string)

  const SummerSchedule := ScheduleSettings([0, 2, 4], "08:00")
  const DefaultSchedule := ScheduleSettings([0, 3], "08:00")

  /** `$timeRanges[$key]` when `isset`, else None. */
  function FindRange(ranges: seq<TimeRange>, key: string): (r: Option<TimeRange>)
    ensures r.Some? ==> r.value in ranges && r.value.key == key
    ensures r.None? <==> forall i | 0 <= i < |ranges| :: ranges[i].key != key
  {
    if ranges == [] then None
    else if ranges[0].key == key then Some(ranges[0])
    else FindRange(ranges[1..], key)
  }

  /** A key of `time_ranges`. */
  predicate IsConfiguredKey(key: string) {
    FindRange(TimeRanges, key).Some?
  }

  /**
   * `determineTimeRange`: the key of the first range, in configured order,
   * that holds the hour; None when no range does.
   */
  function DetermineTimeRange(hour: int, ranges: seq<TimeRange>): (r: Option<string>)
    ensures r.None? <==> forall i | 0 <= i < |ranges| :: !ranges[i].Holds(hour)
    ensures r.Some? ==> exists i | 0 <= i < |ranges| ::
      && ranges[i].key == r.value
      && ranges[i].Holds(hour)
      && forall j | 0 <= j < i :: !ranges[j].Holds(hour)
  {
    if ranges == [] then None
    else if ranges[0].Holds(hour) then Some(ranges[0].key)
    else
      var r := DetermineTimeRange(hour, ranges[1..]);
      assert r.Some? ==> exists i | 0 <= i < |ranges| ::
        && ranges[i].key == r.value
        && ranges[i].Holds(hour)
        && forall j | 0 <= j < i :: !ranges[j].Holds(hour) by {
        if r.Some? {
          var i :| 0 <= i < |ranges| - 1 && ranges[1..][i].key == r.value && ranges[1..][i].Holds(hour)
            && forall j | 0 <= j < i :: !ranges[1..][j].Holds(hour);
          assert ranges[i + 1].key == r.value && ranges[i + 1].Holds(hour);
          assert forall j | 0 <= j < i + 1 :: !ranges[j].Holds(hour) by {
            forall j | 0 <= j < i + 1 ensures !ranges[j].Holds(hour) {
              if j > 0 { assert ranges[j] == ranges[1..][j - 1]; }
            }
          }
        }
      }
      r
  }

  /** The configured ranges are well formed: each start is below its end, and they are disjoint. */
  lemma {:induction false} TimeRangesWellFormed()
    ensures forall i | 0 <= i < |TimeRanges| :: TimeRanges[i].start < TimeRanges[i].end
    ensures forall i, j, h | 0 <= i < j < |TimeRanges| :: !(TimeRanges[i].Holds(h) && TimeRanges[j].Holds(h))
    ensures forall i | 0 <= i < |TimeRanges| :: TimeRanges[i].emoji != "" && TimeRanges[i].name != ""
    ensures [TimeRanges[0].key, TimeRanges[1].key, TimeRanges[2].key] == ["morning", "noon", "evening"]
  {
  }

  /**
   * With the shipped ranges, hours 6-10 are morning, 11-15 noon, 16-21
   * evening, and every other hour belongs to no range.
   */
  lemma {:induction false} ConfiguredTimeRange(hour: int)
    ensures DetermineTimeRange(hour, TimeRanges) ==
      if 6 <= hour < 11 then Some("morning")
      else if 11 <= hour < 16 then Some("noon")
      else if 16 <= hour < 22 then Some("evening")
      else None
  {
    var tail1, tail2 := TimeRanges[1..], TimeRanges[2..];
    assert tail1[1..] == tail2 && tail2[1..] == [];
    assert DetermineTimeRange(hour, tail2[1..]) == None;
    assert DetermineTimeRange(hour, tail2) == if 16 <= hour < 22 then Some("evening") else None;
    assert DetermineTimeRange(hour, tail1) ==
      if 11 <= hour < 16 then Some("noon") else DetermineTimeRange(hour, tail2);
  }
}
