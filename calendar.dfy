/**
 * Local calendar at a fixed UTC+3 offset: the day number and hour of a Unix
 * timestamp, the ISO weekday of a day and its Russian name.
 */
module Calendar {

  const SecondsPerDay := 86400
  const SecondsPerHour := 3600

  /** Europe/Moscow taken as a fixed +3 h offset. */
  const UtcOffset := 3 * 3600

  /**
   * The local date as a day count since 1970-01-01 (the 'Y-m-d' day key;
   * ascending day numbers are ascending date strings).
   */
  function LocalDay(ts: int): int {
    (ts + UtcOffset) / SecondsPerDay
  }

  /** The local hour, `(int) $date->format('H')`. */
  function LocalHour(ts: int): (h: int)
    ensures 0 <= h < 24
  {
    ((ts + UtcOffset) % SecondsPerDay) / SecondsPerHour
  }

  /** A timestamp is its local day, hour and the seconds into that hour. */
  lemma {:induction false} LocalTimeDecomposition(ts: int)
    ensures var rest := ts + UtcOffset - LocalDay(ts) * SecondsPerDay - LocalHour(ts) * SecondsPerHour;
      0 <= rest < SecondsPerHour
  {
  }

  /** `$date->format('N')`: 1 = Monday .. 7 = Sunday; day 0, 1970-01-01, was a Thursday. */
  function IsoWeekday(day: int): (w: int)
    ensures 1 <= w <= 7
  {
    (day + 3) % 7 + 1
  }

  const DayNames: seq<string> := [
    "Понедельник", "Вторник", "Среда", "Четверг", "Пятница", "Суббота", "Воскресенье"
  ]

  /** `getDayName`: the fixed Russian name of the day's ISO weekday. */
  function DayName(day: int): string {
    DayNames[IsoWeekday(day) - 1]
  }

  /** No weekday name is empty, and none starts with '-'. */
  lemma {:induction false} DayNameNonEmpty(day: int)
    ensures DayName(day) != "" && DayName(day)[0] != '-'
  {
    assert forall i | 0 <= i < |DayNames| :: DayNames[i] != "" && DayNames[i][0] != '-';
  }

  /** Two days share a name exactly when they are a whole number of weeks apart. */
  lemma {:induction false} DayNameWeekly(d: int, e: int)
    ensures DayName(d) == DayName(e) <==> (d - e) % 7 == 0
  {
    assert forall i, j | 0 <= i < j < 7 :: DayNames[i] != DayNames[j];
    assert DayName(d) == DayName(e) <==> IsoWeekday(d) == IsoWeekday(e);
    assert IsoWeekday(d) == IsoWeekday(e) <==> (d - e) % 7 == 0 by {
      var q := (d + 3) / 7;
      var q' := (e + 3) / 7;
      assert d - e == 7 * (q - q') + ((d + 3) % 7 - (e + 3) % 7);
    }
  }

  lemma {:induction false} EpochIsThursday()
    ensures IsoWeekday(0) == 4 && DayName(0) == "Четверг"
    ensures IsoWeekday(LocalDay(0)) == 4
  {
  }
}
