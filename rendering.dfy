/**
 * What the table and the text renderers share: the text of a value cell,
 * the name shown for a day, and the rows both emit, in the order they emit
 * them (days by ascending key, then a day's entries by ascending string key,
 * entries whose key is not a configured range skipped).
 */
module Rendering {
  import opened Wrappers
  import opened PhpArray
  import opened Text
  import opened Rounding
  import opened WeatherConfig
  import opened Normalization
  import Calendar

  const NotAvailable := "Н/Д"
  const UnknownDay := "Неизвестно"

  /**
   * PHP's text for `round($x)`: the nearest whole number, halves away from
   * zero. A value in (-0.5, 0) rounds to the float -0, which prints "-0".
   */
  function Whole(x: real): string {
    if -0.5 < x < 0.0 then "-0" else IntToString(RoundHalfAway(x))
  }

  /** PHP's text for `round($x, 1)`; a value in (-0.05, 0) rounds to -0 and prints "-0". */
  function Tenths(x: real): string {
    if -0.05 < x < 0.0 then "-0" else TenthsToString(RoundHalfAway(x * 10.0))
  }

  /**
   * The number a whole-number cell shows is within half a unit of the
   * value, and the cell carries a minus sign exactly when the value is
   * negative.
   */
  lemma {:induction false} WholeReadsBack(x: real)
    ensures var n := ParseInt(Whole(x)); x - 0.5 <= n as real <= x + 0.5
    ensures Whole(x)[0] == '-' <==> x < 0.0
  {
    if -0.5 < x < 0.0 {
      ParseNegative("0");
      assert "-" + "0" == "-0";
    } else {
      var n := RoundHalfAway(x);
      IntToStringRoundTrip(n);
      assert n < 0 <==> x < 0.0;
    }
  }

  /**
   * The number of tenths a one-decimal cell shows is within 0.05 of the
   * value, and the cell carries a minus sign exactly when the value is
   * negative.
   */
  lemma {:induction false} TenthsReadsBack(x: real)
    ensures IsTenthsText(Tenths(x))
    ensures var v := TenthsValue(Tenths(x)) as real / 10.0; x - 0.05 <= v <= x + 0.05
    ensures Tenths(x)[0] == '-' <==> x < 0.0
  {
    if -0.05 < x < 0.0 {
      assert ("-0")[1..] == "0";
      assert DigitsValue("0"[..0]) == 0;
    } else {
      var t := RoundHalfAway(x * 10.0);
      TenthsToStringRoundTrip(t);
      assert t < 0 <==> x < 0.0;
    }
  }

  /** A value already rounded to a whole number prints as that number. */
  lemma {:induction false} TenthsOfWhole(n: int)
    ensures Tenths(n as real) == IntToString(n)
  {
    var t := n * 10;
    assert t as real == n as real * 10.0;
    RoundHalfAwayWhole(t);
    assert n < 0 ==> n as real <= -1.0;
    assert Tenths(n as real) == TenthsToString(t);
    assert t % 10 == 0 && t / 10 == n;
  }

  /** The temperature cell: whole degrees and "°C", or "Н/Д" for null. */
  function TempCell(v: Option<real>): (c: string)
    ensures c == NotAvailable <==> v.None?
  {
    if v.Some? then
      var c := Whole(v.value) + "°C";
      assert c[|c| - 1] == 'C';
      c
    else NotAvailable
  }

  /** The wind cell: whole metres per second and " м/с", or "Н/Д" for null. */
  function WindCell(v: Option<real>): (c: string)
    ensures c == NotAvailable <==> v.None?
  {
    if v.Some? then
      var c := Whole(v.value) + " м/с";
      assert |c| > 4;
      c
    else NotAvailable
  }

  /** The wave cell: metres to one decimal and " м", or "Н/Д" for null. */
  function WaveCell(v: Option<real>): (c: string)
    ensures c == NotAvailable <==> v.None?
  {
    if v.Some? then
      var c := Tenths(v.value) + " м";
      assert c[|c| - 1] == 'м';
      c
    else NotAvailable
  }

  /** One row of either renderer: the day key, its shown name, the configured range and the entry's stats. */
  datatype Row = Row(day: int, dayName: string, range: TimeRange, stats: Stats)

  /** Both levels of the aggregate are well-formed PHP arrays. */
  ghost predicate WellFormed(agg: Aggregate) {
    agg.Valid() && DaysValid(agg)
  }

  /** Every day of the aggregate is a well-formed PHP array. */
  ghost predicate DaysValid(agg: Aggregate) {
    forall d | d in agg.values :: agg.values[d].Valid()
  }

  /** `reset($dayData)['day_name'] ?? 'Неизвестно'`: the name in the day's first entry, in insertion order. */
  function ShownName(day: OrderedMap<string, Stats>): string
    requires day.Valid()
  {
    if day.keys == [] then UnknownDay else day.values[day.keys[0]].dayName
  }

  /** `ksort($weatherData)`: the day keys, ascending. */
  function DayOrder(agg: Aggregate): (days: seq<int>)
    requires agg.Valid()
    ensures Increasing(days, IntLt)
    ensures multiset(days) == multiset(agg.keys)
  {
    IntLtIsStrictTotalOrder();
    KSort(agg, IntLt).keys
  }

  /** `ksort($dayData)`: the entry keys of a day, ascending as strings. */
  function EntryOrder(day: OrderedMap<string, Stats>): (keys: seq<string>)
    requires day.Valid()
    ensures Increasing(keys, StrLt)
    ensures multiset(keys) == multiset(day.keys)
  {
    StrLtIsStrictTotalOrder();
    KSort(day, StrLt).keys
  }

  /** The keys of a sorted day are the keys of the day. */
  lemma {:induction false} EntryOrderMembers(day: OrderedMap<string, Stats>)
    requires day.Valid()
    ensures forall i | 0 <= i < |EntryOrder(day)| :: EntryOrder(day)[i] in day.values
    ensures forall k | k in day.values :: k in EntryOrder(day)
  {
    var keys := EntryOrder(day);
    forall k ensures k in keys <==> k in day.values {
      calc {
        k in keys;
        k in multiset(keys);
        k in multiset(day.keys);
        k in day.keys;
        k in day.values;
      }
    }
  }

  /** The row of entry k of a day, if k is a configured range. */
  function EntryRow(d: int, name: string, day: OrderedMap<string, Stats>, k: string): (rows: seq<Row>)
    requires k in day.values
    ensures |rows| <= 1 && (rows != [] <==> IsConfiguredKey(k))
    ensures rows != [] ==> rows[0] == Row(d, name, FindRange(TimeRanges, k).value, day.values[k])
  {
    match FindRange(TimeRanges, k)
    case None => []
    case Some(range) => [Row(d, name, range, day.values[k])]
  }

  /** The rows of the entries `keys` of day d, shown under `name`. */
  function EntryRows(d: int, name: string, day: OrderedMap<string, Stats>, keys: seq<string>): seq<Row>
    requires forall i | 0 <= i < |keys| :: keys[i] in day.values
  {
    if keys == [] then []
    else EntryRows(d, name, day, keys[..|keys| - 1]) + EntryRow(d, name, day, keys[|keys| - 1])
  }

  /** The rows of day d, whose entries are `day`. */
  function DayRows(d: int, day: OrderedMap<string, Stats>): seq<Row>
    requires day.Valid()
  {
    var keys := EntryOrder(day);
    EntryOrderMembers(day);
    EntryRows(d, ShownName(day), day, keys)
  }

  /** The rows of the days `days`, in that order. */
  function DaysRows(agg: Aggregate, days: seq<int>): seq<Row>
    requires DaysValid(agg)
    requires forall i | 0 <= i < |days| :: days[i] in agg.values
  {
    if days == [] then []
    else DaysRows(agg, days[..|days| - 1]) + DayRows(days[|days| - 1], agg.values[days[|days| - 1]])
  }

  /** Every row either renderer emits, in emission order. */
  function Rows(agg: Aggregate): seq<Row>
    requires WellFormed(agg)
  {
    var days := DayOrder(agg);
    assert forall i | 0 <= i < |days| :: days[i] in agg.values by {
      forall i | 0 <= i < |days| ensures days[i] in agg.values {
        assert days[i] in multiset(days);
      }
    }
    DaysRows(agg, days)
  }

  // ---------------------------------------------------------------------
  // Facts about the rows
  // ---------------------------------------------------------------------

  /** Row r shows entry `r.range.key` of `day` under `name`, with the range's settings and the entry's stats. */
  predicate Shows(r: Row, day: OrderedMap<string, Stats>, name: string) {
    && r.dayName == name
    && r.range.key in day.values
    && FindRange(TimeRanges, r.range.key) == Some(r.range)
    && r.stats == day.values[r.range.key]
  }

  /** Every row is of day d and shows an entry of `day` under `name`. */
  predicate ShowDay(rows: seq<Row>, d: int, day: OrderedMap<string, Stats>, name: string) {
    forall i | 0 <= i < |rows| :: rows[i].day == d && Shows(rows[i], day, name)
  }

  /** Every configured key among `keys` has a row. */
  predicate Covers(rows: seq<Row>, keys: seq<string>) {
    forall j | 0 <= j < |keys| && IsConfiguredKey(keys[j]) :: HasKey(rows, keys[j])
  }

  /** Some row shows the entry with range key k. */
  predicate HasKey(rows: seq<Row>, k: string) {
    exists i | 0 <= i < |rows| :: rows[i].range.key == k
  }

  lemma {:induction false} HasKeyConcat(before: seq<Row>, last: seq<Row>, k: string)
    requires HasKey(before, k) || HasKey(last, k)
    ensures HasKey(before + last, k)
  {
    var rows := before + last;
    if HasKey(before, k) {
      var i :| 0 <= i < |before| && before[i].range.key == k;
      assert rows[i] == before[i];
    } else {
      var i :| 0 <= i < |last| && last[i].range.key == k;
      assert rows[|before| + i] == last[i];
    }
  }

  /** The range keys of the rows ascend as strings. */
  predicate KeysAscend(rows: seq<Row>) {
    forall i, j | 0 <= i < j < |rows| :: StrLt(rows[i].range.key, rows[j].range.key)
  }

  lemma {:induction false} EntryRowsShow(d: int, name: string, day: OrderedMap<string, Stats>, keys: seq<string>)
    requires forall i | 0 <= i < |keys| :: keys[i] in day.values
    ensures ShowDay(EntryRows(d, name, day, keys), d, day, name)
    ensures forall i | 0 <= i < |EntryRows(d, name, day, keys)| :: EntryRows(d, name, day, keys)[i].range.key in keys
  {
    if keys != [] {
      var keys' := keys[..|keys| - 1];
      var k := keys[|keys| - 1];
      var before := EntryRows(d, name, day, keys');
      var rows := EntryRows(d, name, day, keys);
      assert rows == before + EntryRow(d, name, day, k);
      EntryRowsShow(d, name, day, keys');
      forall i | 0 <= i < |rows|
        ensures rows[i].day == d && Shows(rows[i], day, name) && rows[i].range.key in keys
      {
        if i < |before| {
          assert rows[i] == before[i];
          assert forall x | x in keys' :: x in keys;
        } else {
          assert rows[i] == EntryRow(d, name, day, k)[0];
        }
      }
    }
  }

  lemma {:induction false} EntryRowsCover(d: int, name: string, day: OrderedMap<string, Stats>, keys: seq<string>)
    requires forall i | 0 <= i < |keys| :: keys[i] in day.values
    ensures Covers(EntryRows(d, name, day, keys), keys)
  {
    if keys != [] {
      var keys' := keys[..|keys| - 1];
      var last := keys[|keys| - 1];
      var before := EntryRows(d, name, day, keys');
      var rows := EntryRows(d, name, day, keys);
      assert rows == before + EntryRow(d, name, day, last);
      EntryRowsCover(d, name, day, keys');
      forall j | 0 <= j < |keys| && IsConfiguredKey(keys[j])
        ensures HasKey(rows, keys[j])
      {
        if j == |keys'| {
          var extra := EntryRow(d, name, day, last);
          assert extra[0].range.key == last;
          HasKeyConcat(before, extra, last);
        } else {
          assert keys'[j] == keys[j];
          HasKeyConcat(before, EntryRow(d, name, day, last), keys[j]);
        }
      }
    }
  }

  lemma {:induction false} EntryRowsSorted(d: int, name: string, day: OrderedMap<string, Stats>, keys: seq<string>)
    requires forall i | 0 <= i < |keys| :: keys[i] in day.values
    requires Increasing(keys, StrLt)
    ensures KeysAscend(EntryRows(d, name, day, keys))
  {
    if keys != [] {
      var keys' := keys[..|keys| - 1];
      var k := keys[|keys| - 1];
      assert Increasing(keys', StrLt);
      EntryRowsSorted(d, name, day, keys');
      EntryRowsShow(d, name, day, keys');
      var before := EntryRows(d, name, day, keys');
      var rows := EntryRows(d, name, day, keys);
      assert rows == before + EntryRow(d, name, day, k);
      forall i, j | 0 <= i < j < |rows|
        ensures StrLt(rows[i].range.key, rows[j].range.key)
      {
        assert rows[i] == before[i];
        if j < |before| {
          assert rows[j] == before[j];
        } else {
          var a :| 0 <= a < |keys'| && keys'[a] == rows[i].range.key;
          assert rows[j] == EntryRow(d, name, day, k)[0];
          assert keys[a] == keys'[a] && StrLt(keys[a], k);
        }
      }
    }
  }

  /** The rows of day d: each shows an entry of d, every configured entry has one, in ascending key order. */
  lemma {:induction false} DayRowsFacts(d: int, day: OrderedMap<string, Stats>)
    requires day.Valid()
    ensures ShowDay(DayRows(d, day), d, day, ShownName(day))
    ensures forall k | k in day.values && IsConfiguredKey(k) :: HasKey(DayRows(d, day), k)
    ensures KeysAscend(DayRows(d, day))
  {
    var keys := EntryOrder(day);
    EntryOrderMembers(day);
    EntryRowsShow(d, ShownName(day), day, keys);
    EntryRowsCover(d, ShownName(day), day, keys);
    EntryRowsSorted(d, ShownName(day), day, keys);
    var rows := DayRows(d, day);
    forall k | k in day.values && IsConfiguredKey(k)
      ensures HasKey(rows, k)
    {
      var j :| 0 <= j < |keys| && keys[j] == k;
    }
  }

  /** The rows of `days` split into those of all days but the last, then the last day's. */
  lemma {:induction false} DaysRowsSnoc(agg: Aggregate, days: seq<int>)
    requires DaysValid(agg) && days != []
    requires forall i | 0 <= i < |days| :: days[i] in agg.values
    ensures DaysRows(agg, days) == DaysRows(agg, days[..|days| - 1]) + DayRows(days[|days| - 1], agg.values[days[|days| - 1]])
  {
  }

  /** Every row is of one of `days` and shows an entry of its day under the day's shown name. */
  predicate ShowDays(rows: seq<Row>, agg: Aggregate, days: seq<int>)
    requires DaysValid(agg)
  {
    forall i | 0 <= i < |rows| ::
      && rows[i].day in days && rows[i].day in agg.values
      && Shows(rows[i], agg.values[rows[i].day], ShownName(agg.values[rows[i].day]))
  }

  lemma {:induction false} DaysRowsShow(agg: Aggregate, days: seq<int>)
    requires DaysValid(agg)
    requires forall i | 0 <= i < |days| :: days[i] in agg.values
    ensures ShowDays(DaysRows(agg, days), agg, days)
  {
    if days != [] {
      var days' := days[..|days| - 1];
      var d := days[|days| - 1];
      var before := DaysRows(agg, days');
      var last := DayRows(d, agg.values[d]);
      var rows := DaysRows(agg, days);
      DaysRowsSnoc(agg, days);
      DaysRowsShow(agg, days');
      DayRowsFacts(d, agg.values[d]);
      forall i | 0 <= i < |rows|
        ensures rows[i].day in days && rows[i].day in agg.values
        ensures Shows(rows[i], agg.values[rows[i].day], ShownName(agg.values[rows[i].day]))
      {
        if i < |before| {
          assert rows[i] == before[i];
          assert rows[i].day in days';
        } else {
          assert rows[i] == last[i - |before|];
        }
      }
    }
  }

  /** Row i shows entry k of day e. */
  predicate Has(rows: seq<Row>, e: int, k: string) {
    exists i | 0 <= i < |rows| :: rows[i].day == e && rows[i].range.key == k
  }

  lemma {:induction false} HasConcat(before: seq<Row>, last: seq<Row>, e: int, k: string)
    requires Has(before, e, k) || Has(last, e, k)
    ensures Has(before + last, e, k)
  {
    var rows := before + last;
    if Has(before, e, k) {
      var i :| 0 <= i < |before| && before[i].day == e && before[i].range.key == k;
      assert rows[i] == before[i];
    } else {
      var i :| 0 <= i < |last| && last[i].day == e && last[i].range.key == k;
      assert rows[|before| + i] == last[i];
    }
  }

  lemma {:induction false} DaysRowsCover(agg: Aggregate, days: seq<int>, j: int, k: string)
    requires DaysValid(agg)
    requires forall i | 0 <= i < |days| :: days[i] in agg.values
    requires 0 <= j < |days| && k in agg.values[days[j]].values && IsConfiguredKey(k)
    ensures Has(DaysRows(agg, days), days[j], k)
  {
    if j < |days| - 1 {
      var days' := days[..|days| - 1];
      assert days'[j] == days[j];
      DaysRowsCover(agg, days', j, k);
      HasEarlierDay(agg, days, days[j], k);
    } else {
      HasLastDay(agg, days, k);
    }
  }

  /** A row of the days but the last is a row of all the days. */
  lemma {:induction false} HasEarlierDay(agg: Aggregate, days: seq<int>, e: int, k: string)
    requires DaysValid(agg) && days != []
    requires forall i | 0 <= i < |days| :: days[i] in agg.values
    requires Has(DaysRows(agg, days[..|days| - 1]), e, k)
    ensures Has(DaysRows(agg, days), e, k)
  {
    var before := DaysRows(agg, days[..|days| - 1]);
    var i :| 0 <= i < |before| && before[i].day == e && before[i].range.key == k;
    DaysRowsSnoc(agg, days);
    assert DaysRows(agg, days)[i] == before[i];
  }

  /** Every configured entry of the last day has a row. */
  lemma {:induction false} HasLastDay(agg: Aggregate, days: seq<int>, k: string)
    requires DaysValid(agg) && days != []
    requires forall i | 0 <= i < |days| :: days[i] in agg.values
    requires k in agg.values[days[|days| - 1]].values && IsConfiguredKey(k)
    ensures Has(DaysRows(agg, days), days[|days| - 1], k)
  {
    var d := days[|days| - 1];
    DaysRowsSnoc(agg, days);
    DayRowsHas(d, agg.values[d], k);
    HasConcat(DaysRows(agg, days[..|days| - 1]), DayRows(d, agg.values[d]), d, k);
  }

  lemma {:induction false} DayRowsHas(d: int, day: OrderedMap<string, Stats>, k: string)
    requires day.Valid() && k in day.values && IsConfiguredKey(k)
    ensures Has(DayRows(d, day), d, k)
  {
    DayRowsFacts(d, day);
    var rows := DayRows(d, day);
    var i :| 0 <= i < |rows| && rows[i].range.key == k;
    assert rows[i].day == d;
  }

  /** Row a comes before row b: an earlier day, or the same day and a smaller range key. */
  predicate Ordered(a: Row, b: Row) {
    a.day < b.day || (a.day == b.day && StrLt(a.range.key, b.range.key))
  }

  /** Each row comes before every later one. */
  predicate InOrder(rows: seq<Row>) {
    forall i, j | 0 <= i < j < |rows| :: Ordered(rows[i], rows[j])
  }

  /** Rows in order, followed by the rows of a later day in ascending key order, are in order. */
  lemma {:induction false} ConcatInOrder(before: seq<Row>, last: seq<Row>, d: int)
    requires InOrder(before) && KeysAscend(last)
    requires forall i | 0 <= i < |before| :: before[i].day < d
    requires forall i | 0 <= i < |last| :: last[i].day == d
    ensures InOrder(before + last)
  {
    var rows := before + last;
    forall i, j | 0 <= i < j < |rows|
      ensures Ordered(rows[i], rows[j])
    {
      if j < |before| {
        assert rows[i] == before[i] && rows[j] == before[j];
      } else if i < |before| {
        assert rows[i] == before[i] && rows[j] == last[j - |before|];
      } else {
        assert rows[i] == last[i - |before|] && rows[j] == last[j - |before|];
      }
    }
  }

  lemma {:induction false} DaysRowsSorted(agg: Aggregate, days: seq<int>)
    requires DaysValid(agg)
    requires forall i | 0 <= i < |days| :: days[i] in agg.values
    requires Increasing(days, IntLt)
    ensures InOrder(DaysRows(agg, days))
  {
    if days != [] {
      var days' := days[..|days| - 1];
      var d := days[|days| - 1];
      var before := DaysRows(agg, days');
      var last := DayRows(d, agg.values[d]);
      DaysRowsSnoc(agg, days);
      assert Increasing(days', IntLt);
      DaysRowsSorted(agg, days');
      DaysRowsShow(agg, days');
      DayRowsFacts(d, agg.values[d]);
      forall i | 0 <= i < |before| ensures before[i].day < d {
        var a :| 0 <= a < |days'| && days'[a] == before[i].day;
        assert days[a] == days'[a];
      }
      ConcatInOrder(before, last, d);
    }
  }

  /** The sorted day keys are the day keys of the aggregate. */
  lemma {:induction false} DayOrderMembers(agg: Aggregate)
    requires agg.Valid()
    ensures forall i | 0 <= i < |DayOrder(agg)| :: DayOrder(agg)[i] in agg.values
    ensures forall d | d in agg.values :: d in DayOrder(agg)
  {
    var days := DayOrder(agg);
    forall d ensures d in days <==> d in agg.values {
      calc {
        d in days;
        d in multiset(days);
        d in multiset(agg.keys);
        d in agg.keys;
        d in agg.values;
      }
    }
  }

  /**
   * The rows come day by day in ascending day order and, within a day, in
   * ascending string order of the range key; so no entry is shown twice.
   */
  lemma {:induction false} RowsOrdered(agg: Aggregate)
    requires WellFormed(agg)
    ensures forall i, j | 0 <= i < j < |Rows(agg)| :: Ordered(Rows(agg)[i], Rows(agg)[j])
  {
    DayOrderMembers(agg);
    DaysRowsSorted(agg, DayOrder(agg));
  }

  /**
   * There is a row for entry k of day d exactly when the aggregate has that
   * entry and k is a configured range; the row carries the range's settings,
   * the entry's stats and the day's shown name.
   */
  lemma {:induction false} RowsComplete(agg: Aggregate, d: int, k: string)
    requires WellFormed(agg)
    ensures Has(Rows(agg), d, k) <==> d in agg.values && k in agg.values[d].values && IsConfiguredKey(k)
    ensures forall i | 0 <= i < |Rows(agg)| && Rows(agg)[i].day == d && Rows(agg)[i].range.key == k ::
        && d in agg.values
        && Some(Rows(agg)[i].range) == FindRange(TimeRanges, k)
        && Rows(agg)[i].stats == agg.values[d].values[k]
        && Rows(agg)[i].dayName == ShownName(agg.values[d])
  {
    var days := DayOrder(agg);
    var rows := Rows(agg);
    DayOrderMembers(agg);
    assert rows == DaysRows(agg, days);
    DaysRowsShow(agg, days);
    if Has(rows, d, k) {
      var i :| 0 <= i < |rows| && rows[i].day == d && rows[i].range.key == k;
      assert Shows(rows[i], agg.values[d], ShownName(agg.values[d]));
    }
    if d in agg.values && k in agg.values[d].values && IsConfiguredKey(k) {
      var j :| 0 <= j < |days| && days[j] == d;
      DaysRowsCover(agg, days, j, k);
    }
  }

  /**
   * A day whose entries are exactly the three configured ranges shows them
   * as evening, morning, noon: ksort orders the keys as strings, not in
   * configured order.
   */
  lemma {:induction false} ConfiguredDayOrder(d: int, day: OrderedMap<string, Stats>)
    requires day.Valid()
    requires multiset(day.keys) == multiset(["morning", "noon", "evening"])
    ensures |DayRows(d, day)| == 3
    ensures DayRows(d, day)[0].range.key == "evening"
    ensures DayRows(d, day)[1].range.key == "morning"
    ensures DayRows(d, day)[2].range.key == "noon"
  {
    ConfiguredKeysSorted(day);
    EntryOrderMembers(day);
    ThreeRows(d, ShownName(day), day, EntryOrder(day));
  }

  lemma {:induction false} ThreeRows(d: int, name: string, day: OrderedMap<string, Stats>, keys: seq<string>)
    requires keys == ["evening", "morning", "noon"]
    requires forall i | 0 <= i < |keys| :: keys[i] in day.values
    ensures |EntryRows(d, name, day, keys)| == 3
    ensures EntryRows(d, name, day, keys)[0].range.key == "evening"
    ensures EntryRows(d, name, day, keys)[1].range.key == "morning"
    ensures EntryRows(d, name, day, keys)[2].range.key == "noon"
  {
    ConfiguredKeys();
    AllConfiguredRows(d, name, day, keys);
  }

  /** When every key is a configured range, each key has its row, in the order of the keys. */
  lemma {:induction false} AllConfiguredRows(d: int, name: string, day: OrderedMap<string, Stats>, keys: seq<string>)
    requires forall i | 0 <= i < |keys| :: keys[i] in day.values && IsConfiguredKey(keys[i])
    ensures |EntryRows(d, name, day, keys)| == |keys|
    ensures forall i | 0 <= i < |keys| :: EntryRows(d, name, day, keys)[i].range.key == keys[i]
  {
    if keys != [] {
      var init := keys[..|keys| - 1];
      AllConfiguredRows(d, name, day, init);
      EntryRowsSnoc(d, name, day, keys);
      var rows, before := EntryRows(d, name, day, keys), EntryRows(d, name, day, init);
      ConfiguredRowKey(d, name, day, keys[|keys| - 1]);
      forall i | 0 <= i < |keys| ensures rows[i].range.key == keys[i] {
        if i < |init| {
          assert rows[i] == before[i] && init[i] == keys[i];
        }
      }
    }
  }

  /** A configured key has one row, under its own range. */
  lemma {:induction false} ConfiguredRowKey(d: int, name: string, day: OrderedMap<string, Stats>, k: string)
    requires k in day.values && IsConfiguredKey(k)
    ensures |EntryRow(d, name, day, k)| == 1 && EntryRow(d, name, day, k)[0].range.key == k
  {
  }

  /** The three configured keys. */
  lemma {:induction false} ConfiguredKeys()
    ensures IsConfiguredKey("evening") && IsConfiguredKey("morning") && IsConfiguredKey("noon")
  {
    assert TimeRanges[0].key == "morning" && TimeRanges[1].key == "noon" && TimeRanges[2].key == "evening";
  }

  lemma {:induction false} EntryRowsSnoc(d: int, name: string, day: OrderedMap<string, Stats>, keys: seq<string>)
    requires keys != [] && forall i | 0 <= i < |keys| :: keys[i] in day.values
    ensures EntryRows(d, name, day, keys) == EntryRows(d, name, day, keys[..|keys| - 1]) + EntryRow(d, name, day, keys[|keys| - 1])
  {
  }

  /** ksort puts the three configured keys in string order: evening, morning, noon. */
  lemma {:induction false} ConfiguredKeysSorted(day: OrderedMap<string, Stats>)
    requires day.Valid()
    requires multiset(day.keys) == multiset(["morning", "noon", "evening"])
    ensures EntryOrder(day) == ["evening", "morning", "noon"]
  {
    var expected := ["evening", "morning", "noon"];
    assert Increasing(expected, StrLt) by {
      assert StrLt("evening", "morning") && StrLt("morning", "noon") && StrLt("evening", "noon");
    }
    assert multiset(expected) == multiset(["morning", "noon", "evening"]);
    StrLtIsStrictTotalOrder();
    IncreasingUnique(EntryOrder(day), expected, StrLt);
  }

  /**
   * For a normalised forecast, the shown name of a day is the weekday name
   * of its date, since every day has an entry and every entry carries it.
   */
  lemma {:induction false} NormalizedShownName(p: seq<Sample>, d: int)
    requires d in Normalized(p).values
    ensures Normalized(p).values[d].Valid()
    ensures ShownName(Normalized(p).values[d]) == Calendar.DayName(d)
  {
    NormalizedValid(p);
    DayHasEntry(p, d);
    var day := Normalized(p).values[d];
    EntryStats(p, d, day.keys[0], Temp);
  }

  /** A day's rows are those of the keys seen so far plus the next key's row, if any. */
  lemma {:induction false} EntryRowsNext(d: int, name: string, day: OrderedMap<string, Stats>, keys: seq<string>, m: int)
    requires 0 <= m < |keys| && forall i | 0 <= i < |keys| :: keys[i] in day.values
    ensures EntryRows(d, name, day, keys[..m + 1]) == EntryRows(d, name, day, keys[..m]) + EntryRow(d, name, day, keys[m])
  {
    assert keys[..m + 1][..m] == keys[..m];
    EntryRowsSnoc(d, name, day, keys[..m + 1]);
  }

  /** Before the first key, a day has added no rows. */
  lemma {:induction false} NoEntryRowsYet(rows: seq<Row>, d: int, name: string, day: OrderedMap<string, Stats>, keys: seq<string>)
    requires forall i | 0 <= i < |keys| :: keys[i] in day.values
    ensures rows + EntryRows(d, name, day, keys[..0]) == rows
  {
    assert keys[..0] == [];
  }

  /** After the last key, the rows are those of all the keys. */
  lemma {:induction false} AllEntryRows(d: int, name: string, day: OrderedMap<string, Stats>, keys: seq<string>)
    requires forall i | 0 <= i < |keys| :: keys[i] in day.values
    ensures EntryRows(d, name, day, keys[..|keys|]) == EntryRows(d, name, day, keys)
  {
    assert keys[..|keys|] == keys;
  }

  /** After the last day, the rows are those of all the days. */
  lemma {:induction false} AllDaysRows(agg: Aggregate, days: seq<int>)
    requires DaysValid(agg) && forall i | 0 <= i < |days| :: days[i] in agg.values
    ensures DaysRows(agg, days[..|days|]) == DaysRows(agg, days)
  {
    assert days[..|days|] == days;
  }

  lemma {:induction false} NormalizedWellFormed(p: seq<Sample>)
    ensures WellFormed(Normalized(p))
  {
    NormalizedValid(p);
  }

  /** Every day of the aggregate is shown under the weekday name of its date. */
  ghost predicate NamesWeekdays(agg: Aggregate)
    requires WellFormed(agg)
  {
    forall d | d in agg.values :: ShownName(agg.values[d]) == Calendar.DayName(d)
  }

  /** A normalised forecast names every day by its weekday. */
  lemma {:induction false} NormalizedNamesWeekdays(p: seq<Sample>)
    ensures WellFormed(Normalized(p)) && NamesWeekdays(Normalized(p))
  {
    NormalizedWellFormed(p);
    forall d | d in Normalized(p).values
      ensures ShownName(Normalized(p).values[d]) == Calendar.DayName(d)
    {
      NormalizedShownName(p, d);
    }
  }
}
