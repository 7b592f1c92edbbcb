/**
 * The Windy adapter: its point-forecast payload of parallel arrays, the
 * samples it feeds to the shared reduction, and its `getForecast` over the
 * HTTP client's outcome.
 */
module Windy {
  import opened Wrappers
  import opened PhpArray
  import opened Normalization
  import opened Exceptions

  /**
   * A decoded response that is an array: `ts`, `temp-surface`, `wind-surface` and `waves`,
   * each None when the key is absent or null; a value inside an array may
   * itself be null.
   */
  datatype Payload = Payload(
    ts: Option<seq<int>>,
    tempSurface: Option<seq<Option<real>>>,
    windSurface: Option<seq<Option<real>>>,
    waves: Option<seq<Option<real>>>)

  const Api := "Windy API"

  /** `$apiData[$key] ?? []`. */
  function OrEmpty<T>(a: Option<seq<T>>): seq<T> {
    if a.Some? then a.value else []
  }

  /** `isset($values[$index])`: the index exists and its value is not null. */
  function At(values: seq<Option<real>>, index: int): (v: Option<real>)
    ensures v.Some? <==> 0 <= index < |values| && values[index].Some?
    ensures v.Some? ==> v == values[index]
  {
    if 0 <= index < |values| then values[index] else None
  }

  /** The sample at position i of `ts`: each field taken from its own array at i, if set. */
  function SampleAt(payload: Payload, i: int): Sample
    requires 0 <= i < |OrEmpty(payload.ts)|
  {
    Sample(OrEmpty(payload.ts)[i],
      At(OrEmpty(payload.tempSurface), i), At(OrEmpty(payload.windSurface), i), At(OrEmpty(payload.waves), i))
  }

  /** One sample per position of `ts`. */
  function Samples(payload: Payload): (s: seq<Sample>)
    ensures |s| == |OrEmpty(payload.ts)|
    ensures forall i | 0 <= i < |s| :: s[i] == SampleAt(payload, i)
  {
    seq(|OrEmpty(payload.ts)|, i requires 0 <= i < |OrEmpty(payload.ts)| => SampleAt(payload, i))
  }

  /** `normalizeData`. */
  method NormalizeData(apiData: Payload) returns (result: Aggregate)
    ensures result == Normalized(Samples(apiData))
  {
    var timestamps := OrEmpty(apiData.ts);
    var samples := seq(|timestamps|, i requires 0 <= i < |timestamps| => SampleAt(apiData, i));
    assert samples == Samples(apiData);
    result := Normalize(samples);
  }

  /**
   * `getForecast`: the normalised payload of a 2xx response whose body is
   * an array; any other outcome fails as `Fetched` has it.
   */
  method GetForecast(outcome: HttpOutcome<Payload>) returns (r: Result<Aggregate, Throwable>)
    ensures r == Fetched(outcome, Api, (p: Payload) => Normalized(Samples(p)))
  {
    if outcome.Response? && Successful(outcome.status) && outcome.body.Array? {
      var result := NormalizeData(outcome.body.value);
      r := Success(result);
    } else {
      var error := FailedFetch(outcome, Api, (p: Payload) => Normalized(Samples(p)));
      r := Failure(error);
    }
  }

  /** A payload without `ts` gives an empty forecast, whatever else it holds. */
  lemma {:induction false} NoTimestampsNoForecast(payload: Payload)
    requires payload.ts.None?
    ensures Normalized(Samples(payload)) == OrderedMap([], map[])
  {
    assert Samples(payload) == [];
    assert PlaceAll([]) == [];
  }

  /** `a` cut to its first n values. */
  function Truncated(a: Option<seq<Option<real>>>, n: nat): Option<seq<Option<real>>> {
    if a.Some? && |a.value| > n then Some(a.value[..n]) else a
  }

  /** Values at positions past the end of `ts` are never read. */
  lemma {:induction false} IgnoresValuesPastTimestamps(payload: Payload)
    ensures var n := |OrEmpty(payload.ts)|;
      var cut := Payload(payload.ts, Truncated(payload.tempSurface, n),
                         Truncated(payload.windSurface, n), Truncated(payload.waves, n));
      Samples(cut) == Samples(payload)
  {
  }

  /**
   * Each field of every entry depends only on `ts` and that field's own
   * array: changing the wind never moves a wave, and waves are taken as
   * given. The days and entries depend on `ts` alone.
   */
  lemma {:induction false} FieldsIndependent(payload: Payload, other: Payload, f: Field)
    requires payload.ts == other.ts
    requires f == Temp ==> payload.tempSurface == other.tempSurface
    requires f == Wind ==> payload.windSurface == other.windSurface
    requires f == Wave ==> payload.waves == other.waves
    ensures var a, b := Normalized(Samples(payload)), Normalized(Samples(other));
      && a.keys == b.keys
      && forall d | d in a.values ::
        && d in b.values
        && a.values[d].keys == b.values[d].keys
        && forall r | r in a.values[d].values :: a.values[d].values[r].Field(f) == b.values[d].values[r].Field(f)
  {
    SameTimestamps(Samples(payload), Samples(other), f);
  }

  /**
   * A timestamp in a range creates its entry even when no field is set at
   * its position; an entry none of whose positions has field f set has f
   * null, and otherwise f is the rounded mean of the values set.
   */
  lemma {:induction false} EntryFromTimestamps(payload: Payload, d: int, r: string, f: Field)
    ensures var a := Normalized(Samples(payload));
      (d in a.values && r in a.values[d].values) <==>
        exists i | 0 <= i < |OrEmpty(payload.ts)| :: HitAt(payload, i, d, r)
    ensures var a := Normalized(Samples(payload));
      d in a.values && r in a.values[d].values ==>
        (a.values[d].values[r].Field(f).None? <==>
          forall i | 0 <= i < |OrEmpty(payload.ts)| && HitAt(payload, i, d, r) :: FieldOf(SampleAt(payload, i), f).None?)
  {
    EntryFromHit(payload, d, r);
    var a := Normalized(Samples(payload));
    if d in a.values && r in a.values[d].values {
      FieldFromHits(payload, d, r, f);
    }
  }

  /** Position i of `ts` is a timestamp of day d that falls in range r. */
  predicate HitAt(payload: Payload, i: int, d: int, r: string)
    requires 0 <= i < |OrEmpty(payload.ts)|
  {
    Calendar.LocalDay(OrEmpty(payload.ts)[i]) == d && RangeOf(SampleAt(payload, i)) == Some(r)
  }

  lemma {:induction false} EntryFromHit(payload: Payload, d: int, r: string)
    ensures var a := Normalized(Samples(payload));
      (d in a.values && r in a.values[d].values) <==> exists i | 0 <= i < |OrEmpty(payload.ts)| :: HitAt(payload, i, d, r)
  {
    var p := Samples(payload);
    EntryExistsIffHit(p, d, r);
    if exists i | 0 <= i < |p| :: Calendar.LocalDay(p[i].ts) == d && RangeOf(p[i]) == Some(r) {
      var i :| 0 <= i < |p| && Calendar.LocalDay(p[i].ts) == d && RangeOf(p[i]) == Some(r);
      assert p[i] == SampleAt(payload, i);
      assert HitAt(payload, i, d, r);
    }
    if exists i | 0 <= i < |OrEmpty(payload.ts)| :: HitAt(payload, i, d, r) {
      var i :| 0 <= i < |OrEmpty(payload.ts)| && HitAt(payload, i, d, r);
      assert p[i] == SampleAt(payload, i);
      assert Calendar.LocalDay(p[i].ts) == d && RangeOf(p[i]) == Some(r);
    }
  }

  lemma {:induction false} FieldFromHits(payload: Payload, d: int, r: string, f: Field)
    requires var a := Normalized(Samples(payload)); d in a.values && r in a.values[d].values
    ensures var a := Normalized(Samples(payload));
      a.values[d].values[r].Field(f).None? <==>
        forall i | 0 <= i < |OrEmpty(payload.ts)| && HitAt(payload, i, d, r) :: FieldOf(SampleAt(payload, i), f).None?
  {
    var p := Samples(payload);
    EntryStats(p, d, r, f);
    if forall i | 0 <= i < |OrEmpty(payload.ts)| && HitAt(payload, i, d, r) :: FieldOf(SampleAt(payload, i), f).None? {
      forall i | 0 <= i < |p| && Calendar.LocalDay(p[i].ts) == d && RangeOf(p[i]) == Some(r) ensures FieldOf(p[i], f).None? {
        assert p[i] == SampleAt(payload, i);
        assert HitAt(payload, i, d, r);
      }
    }
    if forall i | 0 <= i < |p| && Calendar.LocalDay(p[i].ts) == d && RangeOf(p[i]) == Some(r) :: FieldOf(p[i], f).None? {
      forall i | 0 <= i < |OrEmpty(payload.ts)| && HitAt(payload, i, d, r) ensures FieldOf(SampleAt(payload, i), f).None? {
        assert p[i] == SampleAt(payload, i);
      }
    }
  }
}
