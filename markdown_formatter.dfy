/**
 * The table renderer: a three-line header naming the location, then one
 * table row per shown entry. A row's day cell holds the day's name only when
 * the previously emitted row showed another name; otherwise it is blank.
 */
module MarkdownFormatter {
  import opened Wrappers
  import opened PhpArray
  import opened Text
  import opened WeatherConfig
  import opened Normalization
  import opened Rendering
  import Calendar

  /** The title line and the two lines that open the table. */
  function Header(location: string): seq<string> {
    [ "Прогноз погоды для " + location + " на неделю:",
      "| День | Время | Температура | Ветер | Волны |",
      "|------|-------|-------------|-------|-------|" ]
  }

  /** Everything of a table line after the day cell: range, temperature, wind and wave cells. */
  function RowTail(row: Row): string {
    row.range.emoji + " " + row.range.name + " | " + TempCell(row.stats.temp) + " | "
      + WindCell(row.stats.wind) + " | " + WaveCell(row.stats.wave) + " |"
  }

  /** The table line of a row with the given day cell. */
  function RowLine(dayCell: string, row: Row): string {
    "| " + dayCell + " | " + RowTail(row)
  }

  /** The day cell of row i: blank when the row before it shows the same day name. */
  function DayCell(rows: seq<Row>, i: int): string
    requires 0 <= i < |rows|
  {
    if i > 0 && rows[i - 1].dayName == rows[i].dayName then "" else rows[i].dayName
  }

  /** The table lines of the rows: the lines of all but the last row, then the last row's line. */
  function TableLines(rows: seq<Row>): (lines: seq<string>)
    ensures |lines| == |rows|
  {
    if rows == [] then [] else TableLines(rows[..|rows| - 1]) + [RowLine(DayCell(rows, |rows| - 1), rows[|rows| - 1])]
  }

  /** The lines of the message for the aggregate `agg`: the header, then one line per row. */
  function Lines(agg: Aggregate, location: string): (lines: seq<string>)
    requires WellFormed(agg)
    ensures |lines| == 3 + |Rows(agg)|
    ensures lines[..3] == Header(location)
    ensures forall i | 0 <= i < |Rows(agg)| :: lines[3 + i] == RowLine(DayCell(Rows(agg), i), Rows(agg)[i])
  {
    TableLinesAll(Rows(agg));
    Header(location) + TableLines(Rows(agg))
  }

  /** Line i of the table shows row i under its day cell. */
  lemma {:induction false} TableLinesAll(rows: seq<Row>)
    ensures forall i | 0 <= i < |rows| :: TableLines(rows)[i] == RowLine(DayCell(rows, i), rows[i])
  {
    forall i | 0 <= i < |rows| ensures TableLines(rows)[i] == RowLine(DayCell(rows, i), rows[i]) {
      TableLinesAt(rows, i);
    }
  }

  lemma {:induction false} TableLinesAt(rows: seq<Row>, i: int)
    requires 0 <= i < |rows|
    ensures TableLines(rows)[i] == RowLine(DayCell(rows, i), rows[i])
  {
    if i < |rows| - 1 {
      var init := rows[..|rows| - 1];
      TableLinesAt(init, i);
      DayCellInit(rows, i);
      assert TableLines(rows)[i] == TableLines(init)[i];
    }
  }

  /** Dropping the last row leaves the day cells of the other rows as they were. */
  lemma {:induction false} DayCellInit(rows: seq<Row>, i: int)
    requires 0 <= i < |rows| - 1
    ensures DayCell(rows[..|rows| - 1], i) == DayCell(rows, i) && rows[..|rows| - 1][i] == rows[i]
  {
  }

  /** Emitting a row adds its line and leaves the earlier lines as they were. */
  lemma {:induction false} TableLinesSnoc(rows: seq<Row>, row: Row)
    ensures TableLines(rows + [row]) == TableLines(rows) + [RowLine(DayCell(rows + [row], |rows|), row)]
  {
    assert (rows + [row])[..|rows|] == rows;
  }

  /** Emitting a row leaves the day cells of the earlier rows as they were. */
  lemma {:induction false} DayCellSnoc(rows: seq<Row>, row: Row, i: int)
    requires 0 <= i < |rows|
    ensures DayCell(rows + [row], i) == DayCell(rows, i) && (rows + [row])[i] == rows[i]
  {
    if i > 0 {
      assert (rows + [row])[i - 1] == rows[i - 1];
    }
  }

  /** The message grows by one table line when a row is emitted. */
  lemma {:induction false} TableStep(header: seq<string>, rows: seq<Row>, row: Row)
    ensures JoinLines(header + TableLines(rows + [row]))
         == JoinLines(header + TableLines(rows)) + RowLine(DayCell(rows + [row], |rows|), row) + "\n"
  {
    TableLinesSnoc(rows, row);
    var line := RowLine(DayCell(rows + [row], |rows|), row);
    assert header + TableLines(rows + [row]) == (header + TableLines(rows)) + [line];
    JoinLinesSnoc(header + TableLines(rows), line);
  }

  /** The name of the last row emitted, if any: `$previousDay`. */
  function LastName(rows: seq<Row>): Option<string> {
    if rows == [] then None else Some(rows[|rows| - 1].dayName)
  }

  /**
   * Emitting a row appends its line: under the day name when the previous
   * row showed another name, under a blank cell otherwise.
   */
  lemma {:induction false} RowStep(header: seq<string>, rows: seq<Row>, row: Row)
    ensures LastName(rows) != Some(row.dayName) ==>
      JoinLines(header + TableLines(rows + [row])) == JoinLines(header + TableLines(rows)) + RowLine(row.dayName, row) + "\n"
    ensures LastName(rows) == Some(row.dayName) ==>
      JoinLines(header + TableLines(rows + [row])) == JoinLines(header + TableLines(rows)) + RowLine("", row) + "\n"
  {
    TableStep(header, rows, row);
    if rows != [] {
      assert (rows + [row])[|rows| - 1] == rows[|rows| - 1];
    }
  }

  /** The blank day cell as the source writes it. */
  lemma {:induction false} BlankCell(row: Row)
    ensures RowLine("", row) == "|  | " + RowTail(row)
  {
    assert "| " + "" + " | " == "|  | ";
  }

  /** Appending rows in two steps appends them all. */
  lemma {:induction false} AppendAssociates(a: seq<Row>, b: seq<Row>, c: seq<Row>)
    ensures a + b + c == a + (b + c)
  {
  }

  lemma {:induction false} HeaderText(location: string)
    ensures JoinLines(Header(location))
         == "Прогноз погоды для " + location + " на неделю:\n"
            + "| День | Время | Температура | Ветер | Волны |\n"
            + "|------|-------|-------------|-------|-------|\n"
  {
    var h := Header(location);
    JoinLinesThree(h[0], h[1], h[2]);
    assert "Прогноз погоды для " + location + " на неделю:\n"
        == "Прогноз погоды для " + location + " на неделю:" + "\n";
    assert "| День | Время | Температура | Ветер | Волны |\n" == "| День | Время | Температура | Ветер | Волны |" + "\n";
    assert "|------|-------|-------------|-------|-------|\n" == "|------|-------|-------------|-------|-------|" + "\n";
  }

  /** The rows emitted so far are those of the days seen so far plus the next day's. */
  lemma {:induction false} DaysRowsNext(agg: Aggregate, days: seq<int>, n: int)
    requires DaysValid(agg) && 0 <= n < |days| && forall i | 0 <= i < |days| :: days[i] in agg.values
    ensures DaysRows(agg, days[..n + 1]) == DaysRows(agg, days[..n]) + DayRows(days[n], agg.values[days[n]])
  {
    assert days[..n + 1][..n] == days[..n];
    DaysRowsSnoc(agg, days[..n + 1]);
  }

  /**
   * `format`: the header, then for each day in ascending key order, the
   * day's entries in ascending key order, one table line for each entry
   * whose key is a configured range.
   */
  method Format(weatherData: Aggregate, locationName: string) returns (message: string)
    requires WellFormed(weatherData)
    ensures message == JoinLines(Lines(weatherData, locationName))
  {
    message := FormatHeader(locationName);
    var days := DayOrder(weatherData);
    assert forall i | 0 <= i < |days| :: days[i] in weatherData.values by {
      DayOrderMembers(weatherData);
    }
    message := FormatDays(Header(locationName), message, weatherData, days);
  }

  /** The day loop of `format`: the days `days`, each as `FormatDay` writes it, after the header. */
  method FormatDays(ghost header: seq<string>, message: string, weatherData: Aggregate, days: seq<int>)
    returns (message': string)
    requires DaysValid(weatherData) && forall i | 0 <= i < |days| :: days[i] in weatherData.values
    requires message == JoinLines(header)
    ensures message' == JoinLines(header + TableLines(DaysRows(weatherData, days)))
  {
    message' := message;
    var previousDay: Option<string> := None;
    NoDaysYet(header, weatherData, days);
    var n := 0;
    while n < |days|
      invariant 0 <= n <= |days|
      invariant message' == JoinLines(header + TableLines(DaysRows(weatherData, days[..n])))
      invariant previousDay == LastName(DaysRows(weatherData, days[..n]))
    {
      message', previousDay := FormatDay(header, message', previousDay, weatherData, days, n);
      n := n + 1;
    }
    AllDaysRows(weatherData, days);
  }

  /** Before the first day, the table has no rows. */
  lemma {:induction false} NoDaysYet(header: seq<string>, agg: Aggregate, days: seq<int>)
    requires DaysValid(agg) && forall i | 0 <= i < |days| :: days[i] in agg.values
    ensures header + TableLines(DaysRows(agg, days[..0])) == header
  {
    assert days[..0] == [];
    assert TableLines([]) == [];
  }

  /**
   * The body of the day loop of `format`: the day's shown name, then its
   * entries in ascending key order, appended to the message built so far.
   */
  method FormatDay(ghost header: seq<string>, message: string, previousDay: Option<string>,
                   weatherData: Aggregate, days: seq<int>, n: int)
    returns (message': string, previousDay': Option<string>)
    requires DaysValid(weatherData) && 0 <= n < |days| && forall i | 0 <= i < |days| :: days[i] in weatherData.values
    requires message == JoinLines(header + TableLines(DaysRows(weatherData, days[..n])))
    requires previousDay == LastName(DaysRows(weatherData, days[..n]))
    ensures message' == JoinLines(header + TableLines(DaysRows(weatherData, days[..n + 1])))
    ensures previousDay' == LastName(DaysRows(weatherData, days[..n + 1]))
  {
    DayStep(weatherData, days, n);
    var dayKey := days[n];
    var dayData := weatherData.values[dayKey];
    var dayName := ShownName(dayData);
    var keys := EntryOrder(dayData);
    ghost var rows := DaysRows(weatherData, days[..n]);
    message', previousDay' := FormatEntries(header, rows, message, previousDay, dayKey, dayName, dayData, keys);
  }

  /** The title line and the table's head, each ending in a newline. */
  method FormatHeader(locationName: string) returns (message: string)
    ensures message == JoinLines(Header(locationName))
  {
    message := "Прогноз погоды для " + locationName + " на неделю:\n";
    message := message + "| День | Время | Температура | Ветер | Волны |\n";
    message := message + "|------|-------|-------------|-------|-------|\n";
    HeaderText(locationName);
  }

  /** The next day adds the rows of its entries, in ascending key order, to the rows emitted so far. */
  lemma {:induction false} DayStep(agg: Aggregate, days: seq<int>, n: int)
    requires DaysValid(agg) && 0 <= n < |days| && forall i | 0 <= i < |days| :: days[i] in agg.values
    ensures agg.values[days[n]].Valid()
    ensures var day := agg.values[days[n]];
      forall i | 0 <= i < |EntryOrder(day)| :: EntryOrder(day)[i] in day.values
    ensures var day := agg.values[days[n]];
      DaysRows(agg, days[..n + 1]) == DaysRows(agg, days[..n]) + EntryRows(days[n], ShownName(day), day, EntryOrder(day))
  {
    var d := days[n];
    assert d in agg.values;
    assert agg.values[d].Valid();
    EntryOrderMembers(agg.values[days[n]]);
    DaysRowsNext(agg, days, n);
  }

  /**
   * The entry loop of `format`: the entries `keys` of one day, one table
   * line for each entry whose key is a configured range, appended to the
   * message built so far (the lines of `rows`).
   */
  method FormatEntries(ghost header: seq<string>, ghost rows: seq<Row>, message: string, previousDay: Option<string>,
                       dayKey: int, dayName: string, dayData: OrderedMap<string, Stats>, keys: seq<string>)
    returns (message': string, previousDay': Option<string>)
    requires forall i | 0 <= i < |keys| :: keys[i] in dayData.values
    requires message == JoinLines(header + TableLines(rows))
    requires previousDay == LastName(rows)
    ensures message' == JoinLines(header + TableLines(rows + EntryRows(dayKey, dayName, dayData, keys)))
    ensures previousDay' == LastName(rows + EntryRows(dayKey, dayName, dayData, keys))
  {
    message', previousDay' := message, previousDay;
    NoEntryRowsYet(rows, dayKey, dayName, dayData, keys);
    var m := 0;
    while m < |keys|
      invariant 0 <= m <= |keys|
      invariant message' == JoinLines(header + TableLines(rows + EntryRows(dayKey, dayName, dayData, keys[..m])))
      invariant previousDay' == LastName(rows + EntryRows(dayKey, dayName, dayData, keys[..m]))
    {
      message', previousDay' := FormatEntry(header, rows, message', previousDay', dayKey, dayName, dayData, keys, m);
      m := m + 1;
    }
    AllEntryRows(dayKey, dayName, dayData, keys);
  }

  /** The next key adds its row, if it is a configured range, to the rows emitted so far. */
  lemma {:induction false} EntryStep(rows: seq<Row>, d: int, name: string, day: OrderedMap<string, Stats>, keys: seq<string>, m: int)
    requires 0 <= m < |keys| && forall i | 0 <= i < |keys| :: keys[i] in day.values
    ensures var before, after := rows + EntryRows(d, name, day, keys[..m]), rows + EntryRows(d, name, day, keys[..m + 1]);
      && (FindRange(TimeRanges, keys[m]).None? ==> after == before)
      && (FindRange(TimeRanges, keys[m]).Some? ==>
            after == before + [Row(d, name, FindRange(TimeRanges, keys[m]).value, day.values[keys[m]])])
  {
    var emitted := EntryRows(d, name, day, keys[..m]);
    EntryRowsNext(d, name, day, keys, m);
    AppendAssociates(rows, emitted, EntryRow(d, name, day, keys[m]));
    assert rows + emitted + [] == rows + emitted;
  }

  /**
   * The body of the entry loop of `format`: nothing for a key that is not a
   * configured range; otherwise the entry's table line, under the day name
   * when the previous line showed another name and under a blank cell
   * otherwise, appended to the message built so far.
   */
  method FormatEntry(ghost header: seq<string>, ghost rows: seq<Row>, message: string, previousDay: Option<string>,
                     dayKey: int, dayName: string, dayData: OrderedMap<string, Stats>, keys: seq<string>, m: int)
    returns (message': string, previousDay': Option<string>)
    requires 0 <= m < |keys| && forall i | 0 <= i < |keys| :: keys[i] in dayData.values
    requires message == JoinLines(header + TableLines(rows + EntryRows(dayKey, dayName, dayData, keys[..m])))
    requires previousDay == LastName(rows + EntryRows(dayKey, dayName, dayData, keys[..m]))
    ensures message' == JoinLines(header + TableLines(rows + EntryRows(dayKey, dayName, dayData, keys[..m + 1])))
    ensures previousDay' == LastName(rows + EntryRows(dayKey, dayName, dayData, keys[..m + 1]))
  {
    var timeRangeKey := keys[m];
    ghost var before := rows + EntryRows(dayKey, dayName, dayData, keys[..m]);
    EntryStep(rows, dayKey, dayName, dayData, keys, m);
    var found := FindRange(TimeRanges, timeRangeKey);
    if found.None? {
      return message, previousDay;
    }
    var timeRangeInfo := found.value;
    var timeData := dayData.values[timeRangeKey];
    ghost var row := Row(dayKey, dayName, timeRangeInfo, timeData);
    var temp := TempCell(timeData.temp);
    var wind := WindCell(timeData.wind);
    var wave := WaveCell(timeData.wave);
    var tail := timeRangeInfo.emoji + " " + timeRangeInfo.name + " | " + temp + " | " + wind + " | " + wave + " |";
    RowStep(header, before, row);
    var line;
    if previousDay != Some(dayName) {
      line := "| " + dayName + " | " + tail;
    } else {
      BlankCell(row);
      line := "|  | " + tail;
    }
    message' := message + line + "\n";
    previousDay' := Some(dayName);
  }

  // ---------------------------------------------------------------------
  // The day cell on a normalised forecast
  // ---------------------------------------------------------------------

  /** Every row shows the weekday name of its date when every day is named by its weekday. */
  lemma {:induction false} RowsShowWeekdays(agg: Aggregate)
    requires WellFormed(agg) && NamesWeekdays(agg)
    ensures forall i | 0 <= i < |Rows(agg)| :: ShowsWeekday(Rows(agg)[i])
  {
    forall i | 0 <= i < |Rows(agg)| ensures ShowsWeekday(Rows(agg)[i]) {
      ShownAsWeekday(agg, i);
    }
  }

  /**
   * Among rows that show the weekday names of their dates, a row's day cell
   * is blank exactly when the previous row is on the same day or on a day a
   * whole number of weeks earlier; otherwise it holds the weekday name.
   */
  lemma {:induction false} WeekdayCell(rows: seq<Row>, i: int)
    requires 0 <= i < |rows|
    requires ShowsWeekday(rows[i])
    requires i > 0 ==> ShowsWeekday(rows[i - 1])
    ensures DayCell(rows, i) == "" <==> i > 0 && (rows[i].day - rows[i - 1].day) % 7 == 0
    ensures DayCell(rows, i) != "" ==> DayCell(rows, i) == Calendar.DayName(rows[i].day)
  {
    Calendar.DayNameNonEmpty(rows[i].day);
    if i > 0 {
      Calendar.DayNameWeekly(rows[i].day, rows[i - 1].day);
    }
  }

  /** The row's shown name is the weekday name of its date. */
  predicate ShowsWeekday(row: Row) {
    row.dayName == Calendar.DayName(row.day)
  }

  /** Row i shows the weekday name of its date when every day is named by its weekday. */
  lemma {:induction false} ShownAsWeekday(agg: Aggregate, i: int)
    requires WellFormed(agg) && NamesWeekdays(agg)
    requires 0 <= i < |Rows(agg)|
    ensures ShowsWeekday(Rows(agg)[i])
  {
    var row := Rows(agg)[i];
    RowsComplete(agg, row.day, row.range.key);
    assert Has(Rows(agg), row.day, row.range.key);
  }
}
