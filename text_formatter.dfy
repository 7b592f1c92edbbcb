/**
 * The plain-text renderer: a title line and a blank line, then for every
 * day its shown name and a colon, one "- " line per shown entry, and a
 * blank line.
 */
module TextFormatter {
  import opened Wrappers
  import opened PhpArray
  import opened Text
  import opened WeatherConfig
  import opened Normalization
  import opened Rendering
  import Calendar

  /** The title line and the blank line after it. */
  function Header(location: string): seq<string> {
    ["Прогноз погоды для " + location + " на неделю:", ""]
  }

  /** The hours of a range as the message shows them, "(start:00–end:00)". */
  function RangeLabel(range: TimeRange): string {
    "(" + IntToString(range.start) + ":00–" + IntToString(range.end) + ":00)"
  }

  /** The line of one entry: a bullet, then the entry's text. */
  function EntryLine(row: Row): string {
    "- " + EntryText(row)
  }

  /** Range, hours, temperature, wind and waves of an entry. */
  function EntryText(row: Row): string {
    row.range.emoji + " " + row.range.name + " " + RangeLabel(row.range)
      + ": Температура: " + TempCell(row.stats.temp) + ", Ветер: " + WindCell(row.stats.wind)
      + ", Волны: " + WaveCell(row.stats.wave)
  }

  /** The lines of the rows, one per row, in order. */
  function EntryLines(rows: seq<Row>): (lines: seq<string>)
    ensures |lines| == |rows|
  {
    seq(|rows|, i requires 0 <= i < |rows| => EntryLine(rows[i]))
  }

  /** The heading line of a day: its shown name and a colon. */
  function DayHeading(name: string): string {
    name + ":"
  }

  /** The block of day d: its heading, the lines of its rows, then a blank line. */
  function DayBlock(d: int, day: OrderedMap<string, Stats>): seq<string>
    requires day.Valid()
  {
    [DayHeading(ShownName(day))] + EntryLines(DayRows(d, day)) + [""]
  }

  /** The blocks of the days `days`, in that order. */
  function Blocks(agg: Aggregate, days: seq<int>): seq<string>
    requires DaysValid(agg)
    requires forall i | 0 <= i < |days| :: days[i] in agg.values
  {
    if days == [] then []
    else Blocks(agg, days[..|days| - 1]) + DayBlock(days[|days| - 1], agg.values[days[|days| - 1]])
  }

  /** The lines of the message for the aggregate `agg`: the header, then the block of every day in key order. */
  function Lines(agg: Aggregate, location: string): (lines: seq<string>)
    requires WellFormed(agg)
    ensures |lines| >= 2 && lines[..2] == Header(location)
  {
    DayOrderMembers(agg);
    Header(location) + Blocks(agg, DayOrder(agg))
  }

  // ---------------------------------------------------------------------
  // `format`, line by line
  // ---------------------------------------------------------------------

  /**
   * `format`: the header, then for each day in ascending key order, the
   * day's shown name, one line for each entry, in ascending key order, whose
   * key is a configured range, and a blank line.
   */
  method Format(weatherData: Aggregate, locationName: string) returns (message: string)
    requires WellFormed(weatherData)
    ensures message == JoinLines(Lines(weatherData, locationName))
  {
    message := FormatHeader(locationName);
    var days := DayOrder(weatherData);
    assert forall i | 0 <= i < |days| :: days[i] in weatherData.values by {
      DayOrderMembers(weatherData);
    }
    message := FormatDays(Header(locationName), message, weatherData, days);
  }

  /** The title line and a blank line. */
  method FormatHeader(locationName: string) returns (message: string)
    ensures message == JoinLines(Header(locationName))
  {
    message := "Прогноз погоды для " + locationName + " на неделю:\n\n";
    HeaderText(locationName);
  }

  lemma {:induction false} HeaderText(location: string)
    ensures JoinLines(Header(location)) == "Прогноз погоды для " + location + " на неделю:\n\n"
  {
    var title := "Прогноз погоды для " + location + " на неделю:";
    JoinLinesThree(title, "", "");
    assert "Прогноз погоды для " + location + " на неделю:\n\n" == title + "\n" + "" + "\n";
  }

  /** The day loop of `format`: the block of each of the days `days`, after the lines `header`. */
  method FormatDays(ghost header: seq<string>, message: string, weatherData: Aggregate, days: seq<int>)
    returns (message': string)
    requires DaysValid(weatherData) && forall i | 0 <= i < |days| :: days[i] in weatherData.values
    requires message == JoinLines(header)
    ensures message' == JoinLines(header + Blocks(weatherData, days))
  {
    message' := message;
    NoBlocksYet(header, weatherData, days);
    var n := 0;
    while n < |days|
      invariant 0 <= n <= |days|
      invariant message' == JoinLines(header + Blocks(weatherData, days[..n]))
    {
      message' := FormatDay(header, message', weatherData, days, n);
      n := n + 1;
    }
    AllBlocks(header, weatherData, days);
  }

  /** After the last day, the blocks written are those of all the days. */
  lemma {:induction false} AllBlocks(header: seq<string>, agg: Aggregate, days: seq<int>)
    requires DaysValid(agg) && forall i | 0 <= i < |days| :: days[i] in agg.values
    ensures header + Blocks(agg, days[..|days|]) == header + Blocks(agg, days)
  {
    assert days[..|days|] == days;
  }

  /** Before the first day, the message is the header alone. */
  lemma {:induction false} NoBlocksYet(header: seq<string>, agg: Aggregate, days: seq<int>)
    requires DaysValid(agg) && forall i | 0 <= i < |days| :: days[i] in agg.values
    ensures header + Blocks(agg, days[..0]) == header
  {
    assert days[..0] == [];
  }

  /**
   * The body of the day loop of `format`: the day's shown name and a colon,
   * its entries in ascending key order, then a blank line.
   */
  method FormatDay(ghost header: seq<string>, message: string, weatherData: Aggregate, days: seq<int>, n: int)
    returns (message': string)
    requires DaysValid(weatherData) && 0 <= n < |days| && forall i | 0 <= i < |days| :: days[i] in weatherData.values
    requires message == JoinLines(header + Blocks(weatherData, days[..n]))
    ensures message' == JoinLines(header + Blocks(weatherData, days[..n + 1]))
  {
    BlocksNext(weatherData, days, n);
    var dayKey := days[n];
    assert dayKey in weatherData.values;
    var dayData := weatherData.values[dayKey];
    var dayName := ShownName(dayData);
    ghost var before := header + Blocks(weatherData, days[..n]);
    message' := message + dayName + ":\n";
    HeadingStep(before, dayName);
    var keys := EntryOrder(dayData);
    EntryOrderMembers(dayData);
    message' := FormatEntries(before + [DayHeading(dayName)], message', dayKey, dayName, dayData, keys);
    message' := message' + "\n";
    BlockEnd(header, Blocks(weatherData, days[..n]), DayHeading(dayName), EntryLines(DayRows(dayKey, dayData)));
  }

  /** A day's heading line as the source appends it. */
  lemma {:induction false} HeadingStep(lines: seq<string>, name: string)
    ensures JoinLines(lines + [DayHeading(name)]) == JoinLines(lines) + name + ":\n"
  {
    JoinLinesSnoc(lines, DayHeading(name));
    assert name + ":" + "\n" == name + ":\n";
  }

  /** The blank line that closes a day's block. */
  lemma {:induction false} BlockEnd(header: seq<string>, blocks: seq<string>, heading: string, entries: seq<string>)
    ensures JoinLines(header + (blocks + ([heading] + entries + [""])))
         == JoinLines(header + blocks + [heading] + entries) + "\n"
  {
    assert header + (blocks + ([heading] + entries + [""])) == (header + blocks + [heading] + entries) + [""];
    JoinLinesSnoc(header + blocks + [heading] + entries, "");
  }

  /** The blocks so far are those of the days seen so far plus the next day's. */
  lemma {:induction false} BlocksNext(agg: Aggregate, days: seq<int>, n: int)
    requires DaysValid(agg) && 0 <= n < |days| && forall i | 0 <= i < |days| :: days[i] in agg.values
    ensures Blocks(agg, days[..n + 1]) == Blocks(agg, days[..n]) + DayBlock(days[n], agg.values[days[n]])
  {
    assert days[..n + 1][..n] == days[..n];
  }

  /** Before the first key, a day has added no entry lines. */
  lemma {:induction false} NoEntryLinesYet(lines: seq<string>, d: int, name: string, day: OrderedMap<string, Stats>, keys: seq<string>)
    requires forall i | 0 <= i < |keys| :: keys[i] in day.values
    ensures lines + EntryLines(EntryRows(d, name, day, keys[..0])) == lines
  {
    NoEntryRowsYet([], d, name, day, keys);
    assert EntryLines([]) == [];
  }

  /**
   * The entry loop of `format`: the entries `keys` of one day, one line for
   * each entry whose key is a configured range, after the lines `lines`.
   */
  method FormatEntries(ghost lines: seq<string>, message: string,
                       dayKey: int, dayName: string, dayData: OrderedMap<string, Stats>, keys: seq<string>)
    returns (message': string)
    requires forall i | 0 <= i < |keys| :: keys[i] in dayData.values
    requires message == JoinLines(lines)
    ensures message' == JoinLines(lines + EntryLines(EntryRows(dayKey, dayName, dayData, keys)))
  {
    message' := message;
    NoEntryLinesYet(lines, dayKey, dayName, dayData, keys);
    var m := 0;
    while m < |keys|
      invariant 0 <= m <= |keys|
      invariant message' == JoinLines(lines + EntryLines(EntryRows(dayKey, dayName, dayData, keys[..m])))
    {
      message' := FormatEntry(lines, message', dayKey, dayName, dayData, keys, m);
      m := m + 1;
    }
    AllEntryRows(dayKey, dayName, dayData, keys);
  }

  /**
   * The body of the entry loop of `format`: nothing for a key that is not a
   * configured range; otherwise the entry's line.
   */
  method FormatEntry(ghost lines: seq<string>, message: string,
                     dayKey: int, dayName: string, dayData: OrderedMap<string, Stats>, keys: seq<string>, m: int)
    returns (message': string)
    requires 0 <= m < |keys| && forall i | 0 <= i < |keys| :: keys[i] in dayData.values
    requires message == JoinLines(lines + EntryLines(EntryRows(dayKey, dayName, dayData, keys[..m])))
    ensures message' == JoinLines(lines + EntryLines(EntryRows(dayKey, dayName, dayData, keys[..m + 1])))
  {
    var timeRangeKey := keys[m];
    EntryLineStep(lines, dayKey, dayName, dayData, keys, m);
    var found := FindRange(TimeRanges, timeRangeKey);
    if found.None? {
      return message;
    }
    var timeRangeInfo := found.value;
    var timeData := dayData.values[timeRangeKey];
    var emoji := timeRangeInfo.emoji;
    var timeName := timeRangeInfo.name;
    var timeRange := "(" + IntToString(timeRangeInfo.start) + ":00–" + IntToString(timeRangeInfo.end) + ":00)";
    var temp := TempCell(timeData.temp);
    var wind := WindCell(timeData.wind);
    var wave := WaveCell(timeData.wave);
    var text := emoji + " " + timeName + " " + timeRange + ": Температура: " + temp
                + ", Ветер: " + wind + ", Волны: " + wave;
    var line := "- " + text;
    message' := message + line + "\n";
  }

  /**
   * The next key adds its line, if it is a configured range, to the lines
   * written so far.
   */
  lemma {:induction false} EntryLineStep(lines: seq<string>, d: int, name: string, day: OrderedMap<string, Stats>,
                                         keys: seq<string>, m: int)
    requires 0 <= m < |keys| && forall i | 0 <= i < |keys| :: keys[i] in day.values
    ensures var before := JoinLines(lines + EntryLines(EntryRows(d, name, day, keys[..m])));
      var after := JoinLines(lines + EntryLines(EntryRows(d, name, day, keys[..m + 1])));
      && (FindRange(TimeRanges, keys[m]).None? ==> after == before)
      && (FindRange(TimeRanges, keys[m]).Some? ==>
            after == before + EntryLine(Row(d, name, FindRange(TimeRanges, keys[m]).value, day.values[keys[m]])) + "\n")
  {
    var emitted := EntryRows(d, name, day, keys[..m]);
    EntryRowsNext(d, name, day, keys, m);
    var found := FindRange(TimeRanges, keys[m]);
    if found.None? {
      assert emitted + [] == emitted;
    } else {
      var row := Row(d, name, found.value, day.values[keys[m]]);
      EntryLinesSnoc(emitted, row);
      assert lines + EntryLines(emitted + [row]) == (lines + EntryLines(emitted)) + [EntryLine(row)];
      JoinLinesSnoc(lines + EntryLines(emitted), EntryLine(row));
    }
  }

  /** A row adds its line after the lines of the rows before it. */
  lemma {:induction false} EntryLinesSnoc(rows: seq<Row>, row: Row)
    ensures EntryLines(rows + [row]) == EntryLines(rows) + [EntryLine(row)]
  {
    EntryLinesAppend(rows, [row]);
  }

  // ---------------------------------------------------------------------
  // What the message holds
  // ---------------------------------------------------------------------

  /** The message has the two header lines, two lines per day and one line per row. */
  lemma {:induction false} LineCount(agg: Aggregate, location: string)
    requires WellFormed(agg)
    ensures |Lines(agg, location)| == 2 + 2 * |agg.keys| + |Rows(agg)|
  {
    var days := DayOrder(agg);
    DayOrderMembers(agg);
    BlocksLength(agg, days);
    assert |days| == |multiset(days)| == |multiset(agg.keys)| == |agg.keys|;
  }

  lemma {:induction false} BlocksLength(agg: Aggregate, days: seq<int>)
    requires DaysValid(agg) && forall i | 0 <= i < |days| :: days[i] in agg.values
    ensures |Blocks(agg, days)| == 2 * |days| + |DaysRows(agg, days)|
  {
    if days != [] {
      BlocksLength(agg, days[..|days| - 1]);
    }
  }

  /** A line of an entry: it starts with "- ". */
  predicate IsEntryLine(line: string) {
    |line| >= 2 && line[0] == '-' && line[1] == ' '
  }

  /** The entry lines among `lines`, in order. */
  function EntryLinesIn(lines: seq<string>): (found: seq<string>)
    ensures |found| <= |lines|
    ensures forall i | 0 <= i < |found| :: IsEntryLine(found[i])
  {
    if lines == [] then []
    else
      var last := lines[|lines| - 1];
      EntryLinesIn(lines[..|lines| - 1]) + (if IsEntryLine(last) then [last] else [])
  }

  lemma {:induction false} EntryLinesInAppend(a: seq<string>, b: seq<string>)
    ensures EntryLinesIn(a + b) == EntryLinesIn(a) + EntryLinesIn(b)
  {
    if b == [] {
      assert a + b == a;
    } else {
      var init := b[..|b| - 1];
      EntryLinesInAppend(a, init);
      assert (a + b)[..|a + b| - 1] == a + init;
    }
  }

  /** A name that does not start with '-': its heading is not taken for an entry line. */
  predicate PlainName(name: string) {
    name == [] || name[0] != '-'
  }

  /** Every day of the aggregate is shown under a plain name. */
  ghost predicate PlainNames(agg: Aggregate)
    requires DaysValid(agg)
  {
    forall d | d in agg.values :: PlainName(ShownName(agg.values[d]))
  }

  /**
   * When no day is shown under a name starting with '-', the lines of the
   * message that start with "- " are exactly the entry lines of the rows,
   * one per row, in emission order: the same rows the table shows.
   */
  lemma {:induction false} EntryLinesShown(agg: Aggregate, location: string)
    requires WellFormed(agg) && PlainNames(agg)
    ensures EntryLinesIn(Lines(agg, location)) == EntryLines(Rows(agg))
  {
    var days := DayOrder(agg);
    DayOrderMembers(agg);
    var header, blocks := Header(location), Blocks(agg, days);
    assert Lines(agg, location) == header + blocks;
    EntryLinesInAppend(header, blocks);
    HeaderEntryLines(location);
    BlocksEntryLines(agg, days);
  }

  /** Neither header line is an entry line. */
  lemma {:induction false} HeaderEntryLines(location: string)
    ensures EntryLinesIn(Header(location)) == []
  {
    var title := Header(location)[0];
    var none: seq<string> := [];
    assert title[0] == 'П';
    assert [title][..0] == none && [""][..0] == none;
    assert Header(location) == [title] + [""];
    EntryLinesInAppend([title], [""]);
  }

  lemma {:induction false} BlocksEntryLines(agg: Aggregate, days: seq<int>)
    requires DaysValid(agg) && PlainNames(agg)
    requires forall i | 0 <= i < |days| :: days[i] in agg.values
    ensures EntryLinesIn(Blocks(agg, days)) == EntryLines(DaysRows(agg, days))
  {
    if days != [] {
      var init := days[..|days| - 1];
      var d := days[|days| - 1];
      assert d in agg.values;
      var day := agg.values[d];
      BlocksEntryLines(agg, init);
      EntryLinesInAppend(Blocks(agg, init), DayBlock(d, day));
      DayBlockEntryLines(d, day);
      EntryLinesAppend(DaysRows(agg, init), DayRows(d, day));
    }
  }

  /** The entry lines of a day's block are the lines of its rows. */
  lemma {:induction false} DayBlockEntryLines(d: int, day: OrderedMap<string, Stats>)
    requires day.Valid() && PlainName(ShownName(day))
    ensures EntryLinesIn(DayBlock(d, day)) == EntryLines(DayRows(d, day))
  {
    var rows := DayRows(d, day);
    EntryLinesStart(rows);
    BlockEntryLines(DayHeading(ShownName(day)), EntryLines(rows));
  }

  /** Between a heading that is not an entry line and a blank line, the filter keeps exactly the entry lines. */
  lemma {:induction false} BlockEntryLines(heading: string, entries: seq<string>)
    requires !IsEntryLine(heading)
    requires forall i | 0 <= i < |entries| :: IsEntryLine(entries[i])
    ensures EntryLinesIn([heading] + entries + [""]) == entries
  {
    var none: seq<string> := [];
    assert [heading][..0] == none && [""][..0] == none;
    assert EntryLinesIn([heading]) == none && EntryLinesIn([""]) == none;
    EntryLinesInAppend([heading], entries);
    EntryLinesInAppend([heading] + entries, [""]);
    AllEntryLinesKept(entries);
  }

  /** Every line of the rows starts with "- ". */
  lemma {:induction false} EntryLinesStart(rows: seq<Row>)
    ensures forall i | 0 <= i < |EntryLines(rows)| :: IsEntryLine(EntryLines(rows)[i])
  {
    forall i | 0 <= i < |rows| ensures IsEntryLine(EntryLines(rows)[i]) {
      EntryLineStarts(rows[i]);
    }
  }

  lemma {:induction false} EntryLineStarts(row: Row)
    ensures IsEntryLine(EntryLine(row))
  {
    var text := EntryText(row);
    assert ("- " + text)[0] == '-' && ("- " + text)[1] == ' ';
  }

  /** A filter over lines that are all entry lines keeps them all. */
  lemma {:induction false} AllEntryLinesKept(lines: seq<string>)
    requires forall i | 0 <= i < |lines| :: IsEntryLine(lines[i])
    ensures EntryLinesIn(lines) == lines
  {
    if lines != [] {
      AllEntryLinesKept(lines[..|lines| - 1]);
    }
  }

  lemma {:induction false} EntryLinesAppend(a: seq<Row>, b: seq<Row>)
    ensures EntryLines(a + b) == EntryLines(a) + EntryLines(b)
  {
    var lines, left, right := EntryLines(a + b), EntryLines(a), EntryLines(b);
    forall i | 0 <= i < |lines| ensures lines[i] == (left + right)[i] {
      if i < |a| {
        assert (a + b)[i] == a[i];
      } else {
        assert (a + b)[i] == b[i - |a|];
      }
    }
  }

  /** Every day of the aggregate has its heading line in the message. */
  lemma {:induction false} HeadingShown(agg: Aggregate, location: string, d: int)
    requires WellFormed(agg) && d in agg.values
    ensures DayHeading(ShownName(agg.values[d])) in Lines(agg, location)
  {
    var days := DayOrder(agg);
    DayOrderMembers(agg);
    var j :| 0 <= j < |days| && days[j] == d;
    HeadingInBlocks(agg, days, j, d);
    var k :| 0 <= k < |Blocks(agg, days)| && Blocks(agg, days)[k] == DayHeading(ShownName(agg.values[d]));
    assert Lines(agg, location)[2 + k] == Blocks(agg, days)[k];
  }

  lemma {:induction false} HeadingInBlocks(agg: Aggregate, days: seq<int>, j: int, d: int)
    requires DaysValid(agg) && forall i | 0 <= i < |days| :: days[i] in agg.values
    requires 0 <= j < |days| && days[j] == d && d in agg.values
    ensures exists k | 0 <= k < |Blocks(agg, days)| :: Blocks(agg, days)[k] == DayHeading(ShownName(agg.values[d]))
  {
    var init := days[..|days| - 1];
    var last := days[|days| - 1];
    assert last in agg.values;
    var before := Blocks(agg, init);
    var block := DayBlock(last, agg.values[last]);
    assert Blocks(agg, days) == before + block;
    if j < |days| - 1 {
      assert init[j] == d;
      HeadingInBlocks(agg, init, j, d);
      var k :| 0 <= k < |before| && before[k] == DayHeading(ShownName(agg.values[d]));
      assert Blocks(agg, days)[k] == before[k];
    } else {
      assert Blocks(agg, days)[|before|] == block[0];
    }
  }

  /** A normalised forecast names its days by weekday, so its entry lines are exactly those of its rows. */
  lemma {:induction false} NormalizedEntryLines(p: seq<Sample>, location: string)
    ensures WellFormed(Normalized(p))
    ensures EntryLinesIn(Lines(Normalized(p), location)) == EntryLines(Rows(Normalized(p)))
  {
    var agg := Normalized(p);
    NormalizedNamesWeekdays(p);
    forall d | d in agg.values ensures PlainName(ShownName(agg.values[d])) {
      Calendar.DayNameNonEmpty(d);
    }
    EntryLinesShown(agg, location);
  }

  /** The hours the three configured ranges show. */
  lemma {:induction false} RangeLabels()
    ensures RangeLabel(TimeRanges[0]) == "(6:00–11:00)"
    ensures RangeLabel(TimeRanges[1]) == "(11:00–16:00)"
    ensures RangeLabel(TimeRanges[2]) == "(16:00–22:00)"
  {
    MorningLabel();
    NoonLabel();
    EveningLabel();
  }

  lemma {:induction false} MorningLabel()
    ensures RangeLabel(TimeRanges[0]) == "(6:00–11:00)"
  {
    DigitStrings();
    assert "(" + "6" + ":00–" + "11" + ":00)" == "(6:00–11:00)";
  }

  lemma {:induction false} NoonLabel()
    ensures RangeLabel(TimeRanges[1]) == "(11:00–16:00)"
  {
    DigitStrings();
    assert "(" + "11" + ":00–" + "16" + ":00)" == "(11:00–16:00)";
  }

  lemma {:induction false} EveningLabel()
    ensures RangeLabel(TimeRanges[2]) == "(16:00–22:00)"
  {
    DigitStrings();
    assert "(" + "16" + ":00–" + "22" + ":00)" == "(16:00–22:00)";
  }

  lemma {:induction false} DigitStrings()
    ensures IntToString(6) == "6" && IntToString(11) == "11" && IntToString(16) == "16" && IntToString(22) == "22"
  {
    assert NatToString(1) == "1" && NatToString(2) == "2";
    assert NatToString(11) == NatToString(1) + [DigitChar(1)];
    assert NatToString(16) == NatToString(1) + [DigitChar(6)];
    assert NatToString(22) == NatToString(2) + [DigitChar(2)];
  }
}
