/**
 * The schedule of the forecast job: the summer or the default settings by
 * the current month, and the five-field cron expression built from them.
 * The month is a parameter; the framework's scheduling chain is not modelled.
 */
module Kernel {
  import opened Wrappers
  import opened Text
  import opened WeatherConfig

  /** `in_array($month, [6, 7, 8, 9])`: June to September, September included. */
  predicate IsSummerPeriod(month: int): (summer: bool)
    ensures summer <==> 6 <= month <= 9
  {
    month in [6, 7, 8, 9]
  }

  /** The settings the job runs on in the given month. */
  function ScheduleFor(month: int): ScheduleSettings {
    if IsSummerPeriod(month) then SummerSchedule else DefaultSchedule
  }

  /** The days of the week as PHP writes whole numbers. */
  function DayTexts(days: seq<int>): (texts: seq<string>)
    ensures |texts| == |days|
  {
    seq(|days|, i requires 0 <= i < |days| => IntToString(days[i]))
  }

  /** `implode(',', $days)`. */
  function ScheduleDays(days: seq<int>): string {
    Join(DayTexts(days), ",")
  }

  /**
   * `[$hour, $minute] = explode(':', $time)`: the first two pieces. A time
   * without ':' has no piece 1; the framework's error handler turns PHP's
   * "Undefined array key" warning into an `ErrorException`, so the
   * schedule is never built: None.
   */
  function HourMinute(time: string): (hm: Option<(string, string)>)
    ensures hm.None? <==> ':' !in time
  {
    var parts := Split(time, ':');
    SplitSingle(time, ':');
    if |parts| < 2 then None else Some((parts[0], parts[1]))
  }

  /** The five fields of the cron expression: minute, hour, any day of the month, any month, the days of the week. */
  function CronFields(hour: string, minute: string, days: seq<int>): seq<string> {
    [minute, hour, "*", "*", ScheduleDays(days)]
  }

  /** `"{$minute} {$hour} * * {$scheduleDays}"`, or None when the time cannot be split. */
  function CronExpression(settings: ScheduleSettings): (cron: Option<string>)
    ensures cron.None? <==> ':' !in settings.time
  {
    match HourMinute(settings.time)
    case None => None
    case Some((hour, minute)) => Some(minute + " " + hour + " * * " + ScheduleDays(settings.days))
  }

  /** The cron expression the job is scheduled with in the given month. */
  function CronFor(month: int): Option<string> {
    CronExpression(ScheduleFor(month))
  }

  // ---------------------------------------------------------------------
  // Properties
  // ---------------------------------------------------------------------

  /**
   * With the shipped settings the job runs at 08:00 on Sunday, Tuesday and
   * Thursday from June to September, and on Sunday and Wednesday otherwise.
   */
  lemma {:induction false} ShippedCron(month: int)
    ensures 6 <= month <= 9 ==> CronFor(month) == Some("00 08 * * 0,2,4")
    ensures !(6 <= month <= 9) ==> CronFor(month) == Some("00 08 * * 0,3")
  {
    if 6 <= month <= 9 {
      SummerCron();
    } else {
      DefaultCron();
    }
  }

  lemma {:induction false} SummerCron()
    ensures CronExpression(SummerSchedule) == Some("00 08 * * 0,2,4")
  {
    ShippedTime();
    ShippedDays();
    CronText("0,2,4");
    assert CronExpression(SummerSchedule) == Some("00" + " " + "08" + " * * " + "0,2,4");
    assert "00 08 * * " + "0,2,4" == "00 08 * * 0,2,4";
  }

  lemma {:induction false} DefaultCron()
    ensures CronExpression(DefaultSchedule) == Some("00 08 * * 0,3")
  {
    ShippedTime();
    ShippedDays();
    CronText("0,3");
    assert CronExpression(DefaultSchedule) == Some("00" + " " + "08" + " * * " + "0,3");
    assert "00 08 * * " + "0,3" == "00 08 * * 0,3";
  }

  lemma {:induction false} CronText(days: string)
    ensures "00" + " " + "08" + " * * " + days == "00 08 * * " + days
  {
    assert "00" + " " + "08" + " * * " == "00 08 * * ";
  }

  lemma {:induction false} ShippedTime()
    ensures HourMinute("08:00") == Some(("08", "00"))
  {
    HourMinuteRoundTrip("08", "00");
    assert "08" + [':'] + "00" == "08:00";
  }

  lemma {:induction false} ShippedDays()
    ensures ScheduleDays([0, 2, 4]) == "0,2,4" && ScheduleDays([0, 3]) == "0,3"
  {
    assert DayTexts([0, 2, 4]) == ["0", "2", "4"];
    assert DayTexts([0, 3]) == ["0", "3"];
    assert Join(["4"], ",") == "4" && Join(["3"], ",") == "3";
    assert ["0", "2", "4"][1..] == ["2", "4"] && ["2", "4"][1..] == ["4"] && ["0", "3"][1..] == ["3"];
  }

  /** `explode` of "hour:minute" gives the hour and the minute back when neither holds a colon. */
  lemma {:induction false} HourMinuteRoundTrip(hour: string, minute: string)
    requires ':' !in hour && ':' !in minute
    ensures HourMinute(hour + [':'] + minute) == Some((hour, minute))
  {
    var parts := [hour, minute];
    assert Join(parts, [':']) == hour + [':'] + minute by {
      assert parts[1..] == [minute];
    }
    SplitJoin(parts, ':');
  }

  /** The expression is its five fields separated by single spaces. */
  lemma {:induction false} CronJoinsFields(settings: ScheduleSettings)
    ensures var hm := HourMinute(settings.time);
      hm.Some? ==> CronExpression(settings) == Some(Join(CronFields(hm.value.0, hm.value.1, settings.days), " "))
  {
    var hm := HourMinute(settings.time);
    if hm.Some? {
      var (hour, minute) := hm.value;
      var fields := CronFields(hour, minute, settings.days);
      var days := fields[4];
      assert fields[1..][1..] == fields[2..] && fields[2..][1..] == fields[3..] && fields[3..][1..] == [days];
      calc {
        Join(fields, " ");
        minute + " " + Join(fields[1..], " ");
        minute + " " + (hour + " " + Join(fields[2..], " "));
        minute + " " + (hour + " " + ("*" + " " + Join(fields[3..], " ")));
        minute + " " + (hour + " " + ("*" + " " + ("*" + " " + days)));
        { AppendsAssociate(minute, hour, days); }
        minute + " " + hour + " * * " + days;
      }
    }
  }

  lemma {:induction false} AppendsAssociate(minute: string, hour: string, days: string)
    ensures minute + " " + (hour + " " + ("*" + " " + ("*" + " " + days))) == minute + " " + hour + " * * " + days
  {
    assert " " + "*" + " " + "*" + " " == " * * ";
  }

  /**
   * When the time holds no space, splitting the expression on spaces gives
   * exactly its five fields.
   */
  lemma {:induction false} CronHasFiveFields(settings: ScheduleSettings)
    requires ' ' !in settings.time
    ensures var hm := HourMinute(settings.time);
      hm.Some? ==> Split(CronExpression(settings).value, ' ') == CronFields(hm.value.0, hm.value.1, settings.days)
  {
    var hm := HourMinute(settings.time);
    if hm.Some? {
      var fields := CronFields(hm.value.0, hm.value.1, settings.days);
      CronJoinsFields(settings);
      SplitSubstrings(settings.time, ':', ' ');
      assert ' ' !in fields[0] && ' ' !in fields[1];
      NumbersHaveNo(settings.days, ' ');
      JoinHasNo(DayTexts(settings.days), ",", ' ');
      assert forall i | 0 <= i < |fields| :: ' ' !in fields[i];
      SplitJoin(fields, ' ');
    }
  }

  /** A field of a cron line: decimal digits whose value lies in [lo, hi]. */
  ghost predicate IsNumberIn(s: string, lo: int, hi: int) {
    |s| > 0 && AllDigits(s) && lo <= DigitsValue(s) <= hi
  }

  /**
   * Settings a schedule can be built from: at least one day of the week,
   * each from 0 (Sunday) to 6, and a time "hour:minute" with the hour in
   * 0-23 and the minute in 0-59.
   */
  ghost predicate ValidSchedule(settings: ScheduleSettings) {
    && settings.days != []
    && (forall i | 0 <= i < |settings.days| :: 0 <= settings.days[i] <= 6)
    && var parts := Split(settings.time, ':');
       |parts| == 2 && IsNumberIn(parts[0], 0, 23) && IsNumberIn(parts[1], 0, 59)
  }

  /**
   * A five-field cron line that runs at a fixed time on given days of the
   * week: a minute, an hour, "*", "*" and a comma-separated list of days.
   */
  ghost predicate ValidCronLine(line: string) {
    var fields := Split(line, ' ');
    && |fields| == 5
    && IsNumberIn(fields[0], 0, 59) && IsNumberIn(fields[1], 0, 23)
    && fields[2] == "*" && fields[3] == "*"
    && var days := Split(fields[4], ',');
       forall i | 0 <= i < |days| :: IsNumberIn(days[i], 0, 6)
  }

  /** Valid settings give a valid cron line, whose fields are the settings' own. */
  lemma {:induction false} ValidScheduleCron(settings: ScheduleSettings)
    requires ValidSchedule(settings)
    ensures CronExpression(settings).Some? && ValidCronLine(CronExpression(settings).value)
    ensures var fields := Split(CronExpression(settings).value, ' ');
      && Split(settings.time, ':') == [fields[1], fields[0]]
      && Split(fields[4], ',') == DayTexts(settings.days)
  {
    ValidTimeSplits(settings.time);
    CronHasFiveFields(settings);
    ValidDayTexts(settings.days);
  }

  /** A valid time holds a colon and no space. */
  lemma {:induction false} ValidTimeSplits(time: string)
    requires var parts := Split(time, ':');
      |parts| == 2 && IsNumberIn(parts[0], 0, 23) && IsNumberIn(parts[1], 0, 59)
    ensures ':' in time && ' ' !in time
  {
    var parts := Split(time, ':');
    SplitSingle(time, ':');
    JoinSplit(time, ':');
    assert parts[1..] == [parts[1]];
    assert time == parts[0] + [':'] + parts[1];
    NoSpaceInJoin(parts[0], parts[1], time);
  }

  lemma {:induction false} NoSpaceInJoin(hour: string, minute: string, time: string)
    requires AllDigits(hour) && AllDigits(minute) && time == hour + [':'] + minute
    ensures ' ' !in time
  {
    forall k | 0 <= k < |time| ensures time[k] != ' ' {
      if k < |hour| {
        assert time[k] == hour[k];
      } else if k > |hour| {
        assert time[k] == minute[k - |hour| - 1];
      }
    }
  }

  /** Days 0 to 6 give a day field of comma-separated numbers in 0-6. */
  lemma {:induction false} ValidDayTexts(days: seq<int>)
    requires days != [] && forall i | 0 <= i < |days| :: 0 <= days[i] <= 6
    ensures Split(ScheduleDays(days), ',') == DayTexts(days)
    ensures forall i | 0 <= i < |DayTexts(days)| :: IsNumberIn(DayTexts(days)[i], 0, 6)
  {
    ScheduleDaysRoundTrip(days);
    var texts := DayTexts(days);
    forall i | 0 <= i < |texts| ensures IsNumberIn(texts[i], 0, 6) {
      NatToStringRoundTrip(days[i]);
    }
  }

  /** The shipped summer and default settings are valid. */
  lemma {:induction false} ShippedSchedulesValid()
    ensures ValidSchedule(SummerSchedule) && ValidSchedule(DefaultSchedule)
  {
    ShippedTimeSplits();
    ShippedTimeNumbers();
  }

  lemma {:induction false} ShippedTimeSplits()
    ensures Split("08:00", ':') == ["08", "00"]
  {
    SplitJoin(["08", "00"], ':');
    assert Join(["08", "00"], [':']) == "08:00" by {
      assert ["08", "00"][1..] == ["00"];
    }
  }

  lemma {:induction false} ShippedTimeNumbers()
    ensures IsNumberIn("08", 0, 23) && IsNumberIn("00", 0, 59)
  {
    assert "08"[..1] == "0" && "00"[..1] == "0" && "0"[..0] == "";
    assert DigitsValue("08") == 8 && DigitsValue("00") == 0;
  }

  /** In every month the job is scheduled with a valid cron line. */
  lemma {:induction false} CronForValid(month: int)
    ensures CronFor(month).Some? && ValidCronLine(CronFor(month).value)
  {
    ShippedSchedulesValid();
    ValidScheduleCron(ScheduleFor(month));
  }

  /**
   * `explode(',', implode(',', $days))` gives back the texts of the days,
   * and each reads back as its day.
   */
  lemma {:induction false} ScheduleDaysRoundTrip(days: seq<int>)
    requires days != []
    ensures Split(ScheduleDays(days), ',') == DayTexts(days)
    ensures forall i | 0 <= i < |days| :: ParseInt(DayTexts(days)[i]) == days[i]
  {
    NumbersHaveNo(days, ',');
    SplitJoin(DayTexts(days), ',');
    forall i | 0 <= i < |days| ensures ParseInt(DayTexts(days)[i]) == days[i] {
      IntToStringRoundTrip(days[i]);
    }
  }

  /** A whole number's text holds only a minus sign and digits. */
  lemma {:induction false} NumbersHaveNo(days: seq<int>, c: char)
    requires c != '-' && !('0' <= c <= '9')
    ensures forall i | 0 <= i < |DayTexts(days)| :: c !in DayTexts(days)[i]
  {
    forall i | 0 <= i < |days| ensures c !in IntToString(days[i]) {
      var n := days[i];
      if n < 0 {
        var digits := NatToString(-n);
        assert c !in digits;
        assert forall k | 0 <= k < |"-" + digits| :: ("-" + digits)[k] == '-' || ("-" + digits)[k] in digits;
      } else {
        assert c !in NatToString(n);
      }
    }
  }

  /** A join holds no character that is neither in a part nor in the separator. */
  lemma {:induction false} JoinHasNo(parts: seq<string>, sep: string, c: char)
    requires c !in sep && forall i | 0 <= i < |parts| :: c !in parts[i]
    ensures c !in Join(parts, sep)
  {
    if |parts| > 1 {
      JoinHasNo(parts[1..], sep, c);
      assert forall s: string, t: string | c !in s && c !in t :: c !in s + t;
    }
  }

  /** The pieces of an explode hold no character the string does not hold. */
  lemma {:induction false} SplitSubstrings(s: string, sep: char, c: char)
    requires c !in s
    ensures forall i | 0 <= i < |Split(s, sep)| :: c !in Split(s, sep)[i]
  {
    if s != [] {
      SplitSubstrings(s[1..], sep, c);
      var rest := Split(s[1..], sep);
      assert c != s[0];
      assert c !in [s[0]] + rest[0];
    }
  }
}
