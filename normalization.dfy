/**
 * The reduction both providers' `normalizeData` perform: every sample whose
 * local hour falls in a configured range is appended, field by field, to the
 * lists of its (day, range) entry; then every list is replaced by its
 * rounded mean, or null when it is empty.
 *
 * The result is the canonical aggregate: day key -> range key -> stats, both
 * levels PHP arrays in first-occurrence order.
 */
module Normalization {
  import opened Wrappers
  import opened PhpArray
  import opened WeatherConfig
  import opened Calendar
  import opened Rounding

  /** One forecast point: a Unix timestamp and whichever fields the provider gave for it. */
  datatype Sample = Sample(ts: int, temp: Option<real>, wind: Option<real>, wave: Option<real>)

  datatype Field = Temp | Wind | Wave

  function FieldOf(s: Sample, f: Field): Option<real> {
    match f
    case Temp => s.temp
    case Wind => s.wind
    case Wave => s.wave
  }

  /** An entry while samples are collected: 'temps', 'winds', 'waves', 'date', 'day_name'. */
  datatype Lists = Lists(temps: seq<real>, winds: seq<real>, waves: seq<real>, date: int, dayName: string)

  /** An entry of the result: 'date', 'day_name', 'temp', 'wind', 'wave' (null as None). */
  datatype Stats = Stats(date: int, dayName: string, temp: Option<real>, wind: Option<real>, wave: Option<real>) {
    function Field(f: Field): Option<real> {
      match f
      case Temp => temp
      case Wind => wind
      case Wave => wave
    }
  }

  type Aggregate = OrderedMap<int, OrderedMap<string, Stats>>

  /** The range key of the sample's local hour, if any (`determineTimeRange`). */
  function RangeOf(s: Sample): Option<string> {
    DetermineTimeRange(LocalHour(s.ts), TimeRanges)
  }

  /** A sample placed in the local calendar: its day key and the range of its hour. */
  datatype Placed = Placed(day: int, range: Option<string>, sample: Sample)

  function Place(s: Sample): Placed {
    Placed(LocalDay(s.ts), RangeOf(s), s)
  }

  function PlaceAll(p: seq<Sample>): (q: seq<Placed>)
    ensures |q| == |p| && forall i | 0 <= i < |p| :: q[i] == Place(p[i])
  {
    if p == [] then [] else PlaceAll(p[..|p| - 1]) + [Place(p[|p| - 1])]
  }

  lemma {:induction false} PlaceAllSnoc(p: seq<Sample>, s: Sample)
    ensures PlaceAll(p + [s]) == PlaceAll(p) + [Place(s)]
  {
    assert (p + [s])[..|p|] == p;
  }

  /** The sample belongs to entry (d, r). */
  predicate Hits(x: Placed, d: int, r: string) {
    x.day == d && x.range == Some(r)
  }

  // ---------------------------------------------------------------------
  // Reference definition, by filtering the placed samples
  // ---------------------------------------------------------------------

  /** The day of every sample that falls in some range, in sample order. */
  function Days(q: seq<Placed>): seq<int> {
    if q == [] then []
    else
      var x := q[|q| - 1];
      Days(q[..|q| - 1]) + (if x.range.Some? then [x.day] else [])
  }

  /** The range of every sample on day d that falls in some range, in sample order. */
  function RangesOn(q: seq<Placed>, d: int): seq<string> {
    if q == [] then []
    else
      var x := q[|q| - 1];
      RangesOn(q[..|q| - 1], d) + (if x.range.Some? && x.day == d then [x.range.value] else [])
  }

  /** A field's value as a list of zero or one elements. */
  function Given(v: Option<real>): seq<real> {
    if v.Some? then [v.value] else []
  }

  /** The given values of field f of the samples in entry (d, r), in sample order. */
  function Values(q: seq<Placed>, d: int, r: string, f: Field): seq<real> {
    if q == [] then []
    else
      var x := q[|q| - 1];
      Values(q[..|q| - 1], d, r, f) + (if Hits(x, d, r) then Given(FieldOf(x.sample, f)) else [])
  }

  /** The elements of s in order of first occurrence. */
  function Dedup<T(==, !new)>(s: seq<T>): (r: seq<T>)
    ensures Distinct(r)
    ensures forall x :: x in r <==> x in s
  {
    if s == [] then []
    else
      var t := Dedup(s[..|s| - 1]);
      assert forall x :: x in s <==> x in s[..|s| - 1] || x == s[|s| - 1] by {
        assert s == s[..|s| - 1] + [s[|s| - 1]];
      }
      if s[|s| - 1] in t then t else t + [s[|s| - 1]]
  }

  /** The lists entry (d, r) collects from the placed samples q. */
  function ListsOf(q: seq<Placed>, d: int, r: string): Lists {
    Lists(Values(q, d, r, Temp), Values(q, d, r, Wind), Values(q, d, r, Wave), d, DayName(d))
  }

  /** An entry's lists replaced by their rounded means, null for an empty list. */
  function StatsOf(l: Lists): Stats {
    Stats(l.date, l.dayName, Mean(l.temps), Mean(l.winds), Mean(l.waves))
  }

  function BucketStats(q: seq<Placed>, d: int, r: string): Stats {
    StatsOf(ListsOf(q, d, r))
  }

  /** The stats of the entries `keys` of day d. */
  function StatsMap(q: seq<Placed>, d: int, keys: seq<string>): (m: map<string, Stats>)
    ensures forall r :: r in m <==> r in keys
    ensures forall r | r in m :: m[r] == BucketStats(q, d, r)
  {
    if keys == [] then map[]
    else StatsMap(q, d, keys[..|keys| - 1])[keys[|keys| - 1] := BucketStats(q, d, keys[|keys| - 1])]
  }

  /** The entries of day d, in order of their first sample. */
  function DayStats(q: seq<Placed>, d: int): OrderedMap<string, Stats> {
    var keys := Dedup(RangesOn(q, d));
    OrderedMap(keys, StatsMap(q, d, keys))
  }

  /** The days `days` with their entries. */
  function DaysMap(q: seq<Placed>, days: seq<int>): (m: map<int, OrderedMap<string, Stats>>)
    ensures forall d :: d in m <==> d in days
    ensures forall d | d in m :: m[d] == DayStats(q, d)
  {
    if days == [] then map[]
    else DaysMap(q, days[..|days| - 1])[days[|days| - 1] := DayStats(q, days[|days| - 1])]
  }

  /** The aggregate of placed samples: days in order of their first sample. */
  function Aggregated(q: seq<Placed>): Aggregate {
    var days := Dedup(Days(q));
    OrderedMap(days, DaysMap(q, days))
  }

  /** What `normalizeData` returns for the samples p. */
  function Normalized(p: seq<Sample>): Aggregate {
    Aggregated(PlaceAll(p))
  }

  // ---------------------------------------------------------------------
  // Facts about the reference definition
  // ---------------------------------------------------------------------

  lemma {:induction false} DaysMembers(q: seq<Placed>, d: int)
    ensures d in Days(q) <==> exists i | 0 <= i < |q| :: q[i].range.Some? && q[i].day == d
  {
    if q != [] {
      var q' := q[..|q| - 1];
      DaysMembers(q', d);
      assert forall i | 0 <= i < |q'| :: q'[i] == q[i];
    }
  }

  lemma {:induction false} RangesOnMembers(q: seq<Placed>, d: int, r: string)
    ensures r in RangesOn(q, d) <==> exists i | 0 <= i < |q| :: Hits(q[i], d, r)
  {
    if q != [] {
      var q' := q[..|q| - 1];
      RangesOnMembers(q', d, r);
      if r in RangesOn(q, d) {
        if r in RangesOn(q', d) {
          var i :| 0 <= i < |q'| && Hits(q'[i], d, r);
          assert q[i] == q'[i];
        } else {
          assert Hits(q[|q| - 1], d, r);
        }
      }
      if exists i | 0 <= i < |q| :: Hits(q[i], d, r) {
        var i :| 0 <= i < |q| && Hits(q[i], d, r);
        if i < |q'| {
          assert q'[i] == q[i];
        }
      }
    }
  }

  /** A day no sample falls on has no ranges. */
  lemma {:induction false} NoDayNoRanges(q: seq<Placed>, d: int)
    requires d !in Days(q)
    ensures RangesOn(q, d) == []
  {
    if q != [] {
      NoDayNoRanges(q[..|q| - 1], d);
    }
  }

  /** An entry no sample falls in has no values. */
  lemma {:induction false} NoHitNoValues(q: seq<Placed>, d: int, r: string, f: Field)
    requires r !in RangesOn(q, d)
    ensures Values(q, d, r, f) == []
  {
    if q != [] {
      NoHitNoValues(q[..|q| - 1], d, r, f);
    }
  }

  lemma {:induction false} ValuesEmpty(q: seq<Placed>, d: int, r: string, f: Field)
    ensures Values(q, d, r, f) == [] <==> forall i | 0 <= i < |q| && Hits(q[i], d, r) :: FieldOf(q[i].sample, f).None?
  {
    if q != [] {
      var q' := q[..|q| - 1];
      ValuesEmpty(q', d, r, f);
      assert forall i | 0 <= i < |q'| :: q'[i] == q[i];
    }
  }

  /** Both levels of the aggregate are well-formed PHP arrays. */
  lemma {:induction false} NormalizedValid(p: seq<Sample>)
    ensures Normalized(p).Valid()
    ensures forall d | d in Normalized(p).values :: Normalized(p).values[d].Valid()
  {
  }

  /** Every day of the aggregate holds at least one entry. */
  lemma {:induction false} DayHasEntry(p: seq<Sample>, d: int)
    requires d in Normalized(p).values
    ensures Normalized(p).values[d].keys != []
  {
    var q := PlaceAll(p);
    DaysMembers(q, d);
    var i :| 0 <= i < |q| && q[i].range.Some? && q[i].day == d;
    RangesOnMembers(q, d, q[i].range.value);
  }

  /**
   * Entry (d, r) exists exactly when some sample's local hour on day d falls
   * in range r: samples outside every range create nothing.
   */
  lemma {:induction false} EntryExistsIffHit(p: seq<Sample>, d: int, r: string)
    ensures (d in Normalized(p).values && r in Normalized(p).values[d].values)
        <==> exists i | 0 <= i < |p| :: LocalDay(p[i].ts) == d && RangeOf(p[i]) == Some(r)
  {
    var q := PlaceAll(p);
    RangesOnMembers(q, d, r);
    DaysMembers(q, d);
    if exists i | 0 <= i < |p| :: LocalDay(p[i].ts) == d && RangeOf(p[i]) == Some(r) {
      var i :| 0 <= i < |p| && LocalDay(p[i].ts) == d && RangeOf(p[i]) == Some(r);
      assert Hits(q[i], d, r);
    }
    if d in Normalized(p).values && r in Normalized(p).values[d].values {
      var i :| 0 <= i < |q| && Hits(q[i], d, r);
      assert q[i] == Place(p[i]);
    }
  }

  /** Every range key of the aggregate is a configured key. */
  lemma {:induction false} RangeKeysConfigured(p: seq<Sample>, d: int, r: string)
    requires d in Normalized(p).values && r in Normalized(p).values[d].values
    ensures IsConfiguredKey(r)
  {
    EntryExistsIffHit(p, d, r);
    var i :| 0 <= i < |p| && LocalDay(p[i].ts) == d && RangeOf(p[i]) == Some(r);
    var k :| 0 <= k < |TimeRanges| && TimeRanges[k].key == r && TimeRanges[k].Holds(LocalHour(p[i].ts));
  }

  /**
   * An entry's date is its day key and its day name that day's name; each
   * field is the rounded mean of the values its samples carried, and null
   * exactly when none of its samples carried that field.
   */
  lemma {:induction false} EntryStats(p: seq<Sample>, d: int, r: string, f: Field)
    requires d in Normalized(p).values && r in Normalized(p).values[d].values
    ensures var st := Normalized(p).values[d].values[r];
      && st.date == d && st.dayName == DayName(d)
      && st.Field(f) == Mean(Values(PlaceAll(p), d, r, f))
      && (st.Field(f).None? <==>
          forall i | 0 <= i < |p| && LocalDay(p[i].ts) == d && RangeOf(p[i]) == Some(r) :: FieldOf(p[i], f).None?)
  {
    var q := PlaceAll(p);
    ValuesEmpty(q, d, r, f);
    assert forall i | 0 <= i < |p| :: Hits(q[i], d, r) <==> LocalDay(p[i].ts) == d && RangeOf(p[i]) == Some(r);
  }

  lemma {:induction false} DedupSnoc<T(!new)>(xs: seq<T>, x: T)
    ensures Dedup(xs + [x]) == if x in xs then Dedup(xs) else Dedup(xs) + [x]
  {
    assert (xs + [x])[..|xs|] == xs;
  }

  /** A sample outside every range changes no list. */
  lemma {:induction false} SnocOutOfRange(q: seq<Placed>, x: Placed)
    requires x.range.None?
    ensures Days(q + [x]) == Days(q)
    ensures forall d :: RangesOn(q + [x], d) == RangesOn(q, d)
    ensures forall d, r, f :: Values(q + [x], d, r, f) == Values(q, d, r, f)
  {
    assert (q + [x])[..|q|] == q;
  }

  /** A sample in range r on day d extends the lists of entry (d, r) only. */
  lemma {:induction false} SnocInRange(q: seq<Placed>, x: Placed)
    requires x.range.Some?
    ensures Days(q + [x]) == Days(q) + [x.day]
    ensures forall d :: RangesOn(q + [x], d) == RangesOn(q, d) + (if d == x.day then [x.range.value] else [])
    ensures forall d, r, f :: Values(q + [x], d, r, f) == Values(q, d, r, f) + (if Hits(x, d, r) then Given(FieldOf(x.sample, f)) else [])
  {
    assert (q + [x])[..|q|] == q;
  }

  /** Every listed value of entry (d, r) is the field of one of the entry's samples. */
  lemma {:induction false} ValuesMembers(q: seq<Placed>, d: int, r: string, f: Field, v: real)
    requires v in Values(q, d, r, f)
    ensures exists i | 0 <= i < |q| :: Hits(q[i], d, r) && FieldOf(q[i].sample, f) == Some(v)
  {
    var q' := q[..|q| - 1];
    if v in Values(q', d, r, f) {
      ValuesMembers(q', d, r, f, v);
      var i :| 0 <= i < |q'| && Hits(q'[i], d, r) && FieldOf(q'[i].sample, f) == Some(v);
      assert q[i] == q'[i];
    } else {
      assert Hits(q[|q| - 1], d, r) && FieldOf(q[|q| - 1].sample, f) == Some(v);
    }
  }

  /** When every sample carries all three fields, an entry's three lists stay in step. */
  lemma {:induction false} FullSamplesInStep(q: seq<Placed>, d: int, r: string)
    requires forall i | 0 <= i < |q| :: q[i].sample.temp.Some? && q[i].sample.wind.Some? && q[i].sample.wave.Some?
    ensures |Values(q, d, r, Temp)| == |Values(q, d, r, Wind)| == |Values(q, d, r, Wave)|
    ensures |Values(q, d, r, Temp)| > 0 <==> r in RangesOn(q, d)
  {
    if q != [] {
      var q' := q[..|q| - 1];
      FullSamplesInStep(q', d, r);
    }
  }

  /** q and q' place their samples in the same entries, one for one. */
  ghost predicate SameLayout(q: seq<Placed>, q': seq<Placed>) {
    |q| == |q'| && forall i | 0 <= i < |q| :: q[i].day == q'[i].day && q[i].range == q'[i].range
  }

  /** Samples placed alike give the same days and ranges. */
  lemma {:induction false} SameLayoutKeys(q: seq<Placed>, q': seq<Placed>)
    requires SameLayout(q, q')
    ensures Days(q) == Days(q')
    ensures forall d :: RangesOn(q, d) == RangesOn(q', d)
  {
    if q != [] {
      SameLayoutKeys(q[..|q| - 1], q'[..|q'| - 1]);
    }
  }

  /** Samples placed alike and agreeing on field f give the same lists of f. */
  lemma {:induction false} SameLayoutValues(q: seq<Placed>, q': seq<Placed>, d: int, r: string, f: Field)
    requires SameLayout(q, q')
    requires forall i | 0 <= i < |q| :: FieldOf(q[i].sample, f) == FieldOf(q'[i].sample, f)
    ensures Values(q, d, r, f) == Values(q', d, r, f)
  {
    if q != [] {
      SameLayoutValues(q[..|q| - 1], q'[..|q'| - 1], d, r, f);
    }
  }

  /**
   * Samples with the same timestamps give aggregates with the same days and
   * entries, in the same order; where they also agree on field f, every
   * entry's f is the same. One field never influences another.
   */
  lemma {:induction false} SameTimestamps(p: seq<Sample>, p': seq<Sample>, f: Field)
    requires |p| == |p'| && forall i | 0 <= i < |p| :: p[i].ts == p'[i].ts
    requires forall i | 0 <= i < |p| :: FieldOf(p[i], f) == FieldOf(p'[i], f)
    ensures Normalized(p).keys == Normalized(p').keys
    ensures forall d | d in Normalized(p).values ::
      && d in Normalized(p').values
      && Normalized(p).values[d].keys == Normalized(p').values[d].keys
      && forall r | r in Normalized(p).values[d].values ::
        Normalized(p).values[d].values[r].Field(f) == Normalized(p').values[d].values[r].Field(f)
  {
    var q, q' := PlaceAll(p), PlaceAll(p');
    assert SameLayout(q, q');
    SameLayoutKeys(q, q');
    forall d, r | d in Normalized(p).values && r in Normalized(p).values[d].values
      ensures Normalized(p).values[d].values[r].Field(f) == Normalized(p').values[d].values[r].Field(f)
    {
      SameLayoutValues(q, q', d, r, f);
    }
  }

  // ---------------------------------------------------------------------
  // The two loops of normalizeData
  // ---------------------------------------------------------------------

  /** The collected lists of day d after the placed samples q. */
  ghost predicate DayCollected(entries: OrderedMap<string, Lists>, q: seq<Placed>, d: int) {
    && entries.Valid()
    && entries.keys == Dedup(RangesOn(q, d))
    && forall r | r in entries.values :: entries.values[r] == ListsOf(q, d, r)
  }

  /** The collected lists after the placed samples q: the reference entries, with lists instead of means. */
  ghost predicate Collected(acc: OrderedMap<int, OrderedMap<string, Lists>>, q: seq<Placed>) {
    && acc.Valid()
    && acc.keys == Dedup(Days(q))
    && forall d | d in acc.values :: DayCollected(acc.values[d], q, d)
  }

  /** A sample outside every range leaves the collected lists as they are. */
  lemma {:induction false} CollectSkip(acc: OrderedMap<int, OrderedMap<string, Lists>>, q: seq<Placed>, x: Placed)
    requires Collected(acc, q) && x.range.None?
    ensures Collected(acc, q + [x])
  {
    SnocOutOfRange(q, x);
  }

  /** The entries of the sample's day before it is added, created empty if the day is new. */
  lemma {:induction false} HitEntries(acc: OrderedMap<int, OrderedMap<string, Lists>>, q: seq<Placed>, x: Placed,
                   entries: OrderedMap<string, Lists>)
    requires Collected(acc, q) && x.range.Some?
    requires entries == if x.day in acc.values then acc.values[x.day] else OrderedMap([], map[])
    ensures DayCollected(entries, q, x.day)
  {
    if x.day !in acc.values {
      NoDayNoRanges(q, x.day);
    }
  }

  /** The sample's entry after it is added: created empty if new, then each given field appended. */
  lemma {:induction false} HitEntry(entries: OrderedMap<string, Lists>, q: seq<Placed>, x: Placed, entry: Lists)
    requires x.range.Some? && DayCollected(entries, q, x.day)
    requires var base := if x.range.value in entries.values then entries.values[x.range.value]
                         else Lists([], [], [], x.day, DayName(x.day));
      entry == Lists(base.temps + Given(x.sample.temp), base.winds + Given(x.sample.wind),
                     base.waves + Given(x.sample.wave), base.date, base.dayName)
    ensures entry == ListsOf(q + [x], x.day, x.range.value)
  {
    var d0, r0 := x.day, x.range.value;
    SnocInRange(q, x);
    if r0 !in entries.values {
      NoHitNoValues(q, d0, r0, Temp);
      NoHitNoValues(q, d0, r0, Wind);
      NoHitNoValues(q, d0, r0, Wave);
    }
  }

  /** Storing the sample's entry in its day's entries. */
  lemma {:induction false} HitDay(entries: OrderedMap<string, Lists>, q: seq<Placed>, x: Placed, entry: Lists)
    requires x.range.Some? && DayCollected(entries, q, x.day)
    requires entry == ListsOf(q + [x], x.day, x.range.value)
    ensures DayCollected(entries.Put(x.range.value, entry), q + [x], x.day)
  {
    var d0, r0 := x.day, x.range.value;
    SnocInRange(q, x);
    DedupSnoc(RangesOn(q, d0), r0);
    var day := entries.Put(r0, entry);
    forall r | r in day.values
      ensures day.values[r] == ListsOf(q + [x], d0, r)
    {
      if r != r0 {
        OtherEntry(q, x, d0, r);
      }
    }
  }

  /** Storing the sample's day in the collected lists. */
  lemma {:induction false} HitAcc(acc: OrderedMap<int, OrderedMap<string, Lists>>, q: seq<Placed>, x: Placed,
               day: OrderedMap<string, Lists>)
    requires Collected(acc, q) && x.range.Some?
    requires DayCollected(day, q + [x], x.day)
    ensures Collected(acc.Put(x.day, day), q + [x])
  {
    var d0 := x.day;
    SnocInRange(q, x);
    DedupSnoc(Days(q), d0);
    var acc' := acc.Put(d0, day);
    forall d | d in acc'.values && d != d0
      ensures DayCollected(acc'.values[d], q + [x], d)
    {
      OtherDay(acc.values[d], q, x, d);
    }
  }

  /** A sample on another day leaves a day's collected lists as they are. */
  lemma {:induction false} OtherDay(entries: OrderedMap<string, Lists>, q: seq<Placed>, x: Placed, d: int)
    requires DayCollected(entries, q, d) && d != x.day
    ensures DayCollected(entries, q + [x], d)
  {
    assert (q + [x])[..|q|] == q;
    assert RangesOn(q + [x], d) == RangesOn(q, d);
    forall r | r in entries.values
      ensures entries.values[r] == ListsOf(q + [x], d, r)
    {
      OtherEntry(q, x, d, r);
    }
  }

  /** A sample outside entry (d, r) leaves its lists as they are. */
  lemma {:induction false} OtherEntry(q: seq<Placed>, x: Placed, d: int, r: string)
    requires !Hits(x, d, r)
    ensures ListsOf(q + [x], d, r) == ListsOf(q, d, r)
  {
    assert (q + [x])[..|q|] == q;
  }

  /**
   * A sample in range r on day d: the day and the entry are created if they
   * are missing, and the entry's lists get the fields the sample carries.
   */
  lemma {:induction false} CollectHit(acc: OrderedMap<int, OrderedMap<string, Lists>>, q: seq<Placed>, x: Placed,
                   entries: OrderedMap<string, Lists>, entry: Lists)
    requires Collected(acc, q) && x.range.Some?
    requires entries == if x.day in acc.values then acc.values[x.day] else OrderedMap([], map[])
    requires var base := if x.range.value in entries.values then entries.values[x.range.value]
                         else Lists([], [], [], x.day, DayName(x.day));
      entry == Lists(base.temps + Given(x.sample.temp), base.winds + Given(x.sample.wind),
                     base.waves + Given(x.sample.wave), base.date, base.dayName)
    ensures entries.Valid()
    ensures Collected(acc.Put(x.day, entries.Put(x.range.value, entry)), q + [x])
  {
    HitEntries(acc, q, x, entries);
    HitEntry(entries, q, x, entry);
    HitDay(entries, q, x, entry);
    HitAcc(acc, q, x, entries.Put(x.range.value, entry));
  }

  /**
   * First loop: skip samples outside every range, create the (day, range)
   * entry on first use, and append each field the sample carries.
   */
  method Collect(samples: seq<Sample>) returns (acc: OrderedMap<int, OrderedMap<string, Lists>>)
    ensures Collected(acc, PlaceAll(samples))
  {
    acc := OrderedMap([], map[]);
    for i := 0 to |samples|
      invariant Collected(acc, PlaceAll(samples[..i]))
    {
      ghost var q := PlaceAll(samples[..i]);
      var s := samples[i];
      var range := RangeOf(s);
      var day := LocalDay(s.ts);
      ghost var x := Placed(day, range, s);
      assert samples[..i + 1] == samples[..i] + [s];
      PlaceAllSnoc(samples[..i], s);
      if range.None? {
        CollectSkip(acc, q, x);
        continue;
      }
      var r := range.value;
      var entries := if day in acc.values then acc.values[day] else OrderedMap([], map[]);
      var entry := if r in entries.values then entries.values[r] else Lists([], [], [], day, DayName(day));
      // each field the sample carries is appended to its list
      entry := entry.(temps := entry.temps + Given(s.temp));
      entry := entry.(winds := entry.winds + Given(s.wind));
      entry := entry.(waves := entry.waves + Given(s.wave));
      CollectHit(acc, q, x, entries, entry);
      acc := acc.Put(day, entries.Put(r, entry));
    }
    assert samples[..|samples|] == samples;
  }

  /** The entries `keys` of m, each averaged (keys m lacks are skipped). */
  function AverageEntries(m: map<string, Lists>, keys: seq<string>): (out: map<string, Stats>)
    ensures forall r :: r in out <==> r in keys && r in m
    ensures forall r | r in out :: out[r] == StatsOf(m[r])
  {
    if keys == [] then map[]
    else
      var r := keys[|keys| - 1];
      var rest := AverageEntries(m, keys[..|keys| - 1]);
      if r in m then rest[r := StatsOf(m[r])] else rest
  }

  /** The day `d` of m with its entries averaged in the same key order. */
  function AverageDayOf(m: map<int, OrderedMap<string, Lists>>, d: int): OrderedMap<string, Stats>
    requires d in m
  {
    OrderedMap(m[d].keys, AverageEntries(m[d].values, m[d].keys))
  }

  /** The days `days` of m, each with its entries averaged (days m lacks are skipped). */
  function AverageDays(m: map<int, OrderedMap<string, Lists>>, days: seq<int>): (out: map<int, OrderedMap<string, Stats>>)
    ensures forall d :: d in out <==> d in days && d in m
    ensures forall d | d in out :: out[d] == AverageDayOf(m, d)
  {
    if days == [] then map[]
    else
      var d := days[|days| - 1];
      var rest := AverageDays(m, days[..|days| - 1]);
      if d in m then rest[d := AverageDayOf(m, d)] else rest
  }

  lemma {:induction false} AverageEntriesNext(m: map<string, Lists>, keys: seq<string>, j: int)
    requires 0 <= j < |keys| && keys[j] in m
    ensures keys[..j + 1] == keys[..j] + [keys[j]]
    ensures AverageEntries(m, keys[..j + 1]) == AverageEntries(m, keys[..j])[keys[j] := StatsOf(m[keys[j]])]
  {
    assert keys[..j + 1][..j] == keys[..j];
  }

  lemma {:induction false} AverageDaysNext(m: map<int, OrderedMap<string, Lists>>, days: seq<int>, i: int)
    requires 0 <= i < |days| && days[i] in m
    ensures days[..i + 1] == days[..i] + [days[i]]
    ensures AverageDays(m, days[..i + 1]) == AverageDays(m, days[..i])[days[i] := AverageDayOf(m, days[i])]
  {
    assert days[..i + 1][..i] == days[..i];
  }

  /** Second loop, one day: each entry's lists replaced by their means, in the same key order. */
  method AverageDay(entries: OrderedMap<string, Lists>) returns (out: OrderedMap<string, Stats>)
    requires forall r | r in entries.keys :: r in entries.values
    ensures out == OrderedMap(entries.keys, AverageEntries(entries.values, entries.keys))
  {
    out := OrderedMap([], map[]);
    for j := 0 to |entries.keys|
      invariant out.keys == entries.keys[..j]
      invariant out.values == AverageEntries(entries.values, entries.keys[..j])
    {
      var r := entries.keys[j];
      AverageEntriesNext(entries.values, entries.keys, j);
      var lists := entries.values[r];
      var stats := Stats(lists.date, lists.dayName, Mean(lists.temps), Mean(lists.winds), Mean(lists.waves));
      out := OrderedMap(out.keys + [r], out.values[r := stats]);
    }
    assert entries.keys[..|entries.keys|] == entries.keys;
  }

  /**
   * Second loop: every entry's lists replaced by their rounded means, null
   * for an empty list; keys keep their order.
   */
  method Average(acc: OrderedMap<int, OrderedMap<string, Lists>>) returns (agg: Aggregate)
    requires forall d | d in acc.keys :: d in acc.values && forall r | r in acc.values[d].keys :: r in acc.values[d].values
    ensures agg == OrderedMap(acc.keys, AverageDays(acc.values, acc.keys))
  {
    agg := OrderedMap([], map[]);
    for i := 0 to |acc.keys|
      invariant agg.keys == acc.keys[..i]
      invariant agg.values == AverageDays(acc.values, acc.keys[..i])
    {
      var day := acc.keys[i];
      AverageDaysNext(acc.values, acc.keys, i);
      var out := AverageDay(acc.values[day]);
      agg := OrderedMap(agg.keys + [day], agg.values[day := out]);
    }
    assert acc.keys[..|acc.keys|] == acc.keys;
  }

  /** Averaging the lists collected from q for one day gives that day's reference entries. */
  lemma {:induction false} AverageDayCollected(acc: OrderedMap<int, OrderedMap<string, Lists>>, q: seq<Placed>, d: int)
    requires Collected(acc, q) && d in acc.values
    ensures AverageDayOf(acc.values, d) == DayStats(q, d)
  {
    var e := acc.values[d];
    var a := AverageEntries(e.values, e.keys);
    var b := StatsMap(q, d, e.keys);
    assert forall r :: r in a <==> r in b;
    forall r | r in a
      ensures a[r] == b[r]
    {
      assert e.values[r] == ListsOf(q, d, r);
    }
    assert a == b;
  }

  /** Averaging the collected days `days` gives their reference entries. */
  lemma {:induction false} AverageDaysCollected(acc: OrderedMap<int, OrderedMap<string, Lists>>, q: seq<Placed>, days: seq<int>)
    requires Collected(acc, q) && forall d | d in days :: d in acc.values
    ensures AverageDays(acc.values, days) == DaysMap(q, days)
  {
    if days != [] {
      var d := days[|days| - 1];
      AverageDaysCollected(acc, q, days[..|days| - 1]);
      AverageDayCollected(acc, q, d);
    }
  }

  /** Averaging the lists collected from q gives the reference aggregate of q. */
  lemma {:induction false} AverageCollected(acc: OrderedMap<int, OrderedMap<string, Lists>>, q: seq<Placed>)
    requires Collected(acc, q)
    ensures OrderedMap(acc.keys, AverageDays(acc.values, acc.keys)) == Aggregated(q)
  {
    AverageDaysCollected(acc, q, acc.keys);
  }

  /** `normalizeData` over the samples a provider's payload yields. */
  method Normalize(samples: seq<Sample>) returns (agg: Aggregate)
    ensures agg == Normalized(samples)
  {
    var acc := Collect(samples);
    agg := Average(acc);
    AverageCollected(acc, PlaceAll(samples));
  }
}
