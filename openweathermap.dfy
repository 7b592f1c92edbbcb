/**
 * The OpenWeatherMap adapter: its `/forecast` payload, the wave height it
 * estimates from the wind, the samples it feeds to the shared reduction,
 * and its `getForecast` over the HTTP client's outcome.
 */
module OpenWeatherMap {
  import opened Wrappers
  import opened PhpArray
  import opened Rounding
  import opened Normalization
  import opened Exceptions

  /** One record of `list`: `dt`, `main.temp` (°C) and `wind.speed` (m/s). */
  datatype Forecast = Forecast(dt: int, temp: real, windSpeed: real)

  /** A decoded response that is an array; `list` is None when the key is absent or null. */
  datatype Payload = Payload(list: Option<seq<Forecast>>)

  const Api := "OpenWeatherMap API"

  /** `estimateWaveHeight`: one fifth of the wind speed, but never below 0.1 m. */
  function EstimateWaveHeight(windSpeed: real): (h: real)
    ensures h >= 0.1 && h >= windSpeed * 0.2
    ensures h == 0.1 || h == windSpeed * 0.2
  {
    if 0.1 >= windSpeed * 0.2 then 0.1 else windSpeed * 0.2
  }

  /** A stronger wind never gives a lower wave. */
  lemma {:induction false} EstimateWaveHeightMonotone(w: real, w': real)
    requires w <= w'
    ensures EstimateWaveHeight(w) <= EstimateWaveHeight(w')
  {
  }

  /** 5 m/s gives 1 m; calm gives the 0.1 m floor. */
  lemma {:induction false} EstimateWaveHeightExamples()
    ensures EstimateWaveHeight(5.0) == 1.0
    ensures EstimateWaveHeight(0.0) == 0.1
  {
  }

  /** A record as a sample: temperature, wind and estimated wave are all present. */
  function SampleOf(f: Forecast): Sample {
    Sample(f.dt, Some(f.temp), Some(f.windSpeed), Some(EstimateWaveHeight(f.windSpeed)))
  }

  /** `$apiData['list'] ?? []`, record by record. */
  function Samples(payload: Payload): (s: seq<Sample>)
    ensures payload.list.None? ==> s == []
    ensures payload.list.Some? ==>
      && |s| == |payload.list.value|
      && forall i | 0 <= i < |s| :: s[i] == SampleOf(payload.list.value[i])
  {
    var forecasts := if payload.list.Some? then payload.list.value else [];
    seq(|forecasts|, i requires 0 <= i < |forecasts| => SampleOf(forecasts[i]))
  }

  /** `normalizeData`. */
  method NormalizeData(apiData: Payload) returns (result: Aggregate)
    ensures result == Normalized(Samples(apiData))
  {
    var forecasts := if apiData.list.Some? then apiData.list.value else [];
    var samples := seq(|forecasts|, i requires 0 <= i < |forecasts| => SampleOf(forecasts[i]));
    result := Normalize(samples);
  }

  /**
   * `getForecast`: the normalised payload of a 2xx response whose body is
   * an array; any other outcome fails as `Fetched` has it.
   */
  method GetForecast(outcome: HttpOutcome<Payload>) returns (r: Result<Aggregate, Throwable>)
    ensures r == Fetched(outcome, Api, (p: Payload) => Normalized(Samples(p)))
  {
    if outcome.Response? && Successful(outcome.status) && outcome.body.Array? {
      var result := NormalizeData(outcome.body.value);
      r := Success(result);
    } else {
      var error := FailedFetch(outcome, Api, (p: Payload) => Normalized(Samples(p)));
      r := Failure(error);
    }
  }

  /** A payload without `list` gives an empty forecast. */
  lemma {:induction false} NoListNoForecast(payload: Payload)
    requires payload.list.None?
    ensures Normalized(Samples(payload)) == OrderedMap([], map[])
  {
    assert Samples(payload) == [];
    assert PlaceAll([]) == [];
  }

  /**
   * Every record in a range adds one temperature, one wind and one wave to
   * its entry, so the three lists have the same, non-zero length, and no
   * field of any entry is ever null.
   */
  lemma {:induction false} PlacedSamples(payload: Payload)
    ensures var q := PlaceAll(Samples(payload));
      forall i | 0 <= i < |q| ::
        && q[i].sample.temp.Some? && q[i].sample.wind.Some? && q[i].sample.wave.Some?
        && q[i].sample.wave.value >= 0.1
  {
    var p := Samples(payload);
    var q := PlaceAll(p);
    forall i | 0 <= i < |q|
      ensures q[i].sample.temp.Some? && q[i].sample.wind.Some? && q[i].sample.wave.Some?
      ensures q[i].sample.wave.value >= 0.1
    {
      assert q[i].sample == p[i] == SampleOf(payload.list.value[i]);
    }
  }

  lemma {:induction false} FieldsNeverNull(payload: Payload, d: int, r: string)
    requires d in Normalized(Samples(payload)).values && r in Normalized(Samples(payload)).values[d].values
    ensures var q := PlaceAll(Samples(payload));
      |Values(q, d, r, Temp)| == |Values(q, d, r, Wind)| == |Values(q, d, r, Wave)| > 0
    ensures var st := Normalized(Samples(payload)).values[d].values[r];
      st.temp.Some? && st.wind.Some? && st.wave.Some?
  {
    var p := Samples(payload);
    var q := PlaceAll(p);
    PlacedSamples(payload);
    FullSamplesInStep(q, d, r);
    EntryStats(p, d, r, Temp);
    EntryStats(p, d, r, Wind);
    EntryStats(p, d, r, Wave);
  }

  /** Every entry's wave is at least the 0.1 m floor of the estimate. */
  lemma {:induction false} WaveAtLeastFloor(payload: Payload, d: int, r: string)
    requires d in Normalized(Samples(payload)).values && r in Normalized(Samples(payload)).values[d].values
    ensures var wave := Normalized(Samples(payload)).values[d].values[r].wave;
      wave.Some? && wave.value >= 0.1
  {
    var p := Samples(payload);
    var q := PlaceAll(p);
    FieldsNeverNull(payload, d, r);
    EntryStats(p, d, r, Wave);
    PlacedSamples(payload);
    MeanWaveAtLeastFloor(q, d, r);
  }

  lemma {:induction false} MeanWaveAtLeastFloor(q: seq<Placed>, d: int, r: string)
    requires forall i | 0 <= i < |q| :: q[i].sample.wave.Some? && q[i].sample.wave.value >= 0.1
    requires Values(q, d, r, Wave) != []
    ensures Mean(Values(q, d, r, Wave)).value >= 0.1
  {
    var waves := Values(q, d, r, Wave);
    forall k | 0 <= k < |waves|
      ensures 0.1 <= waves[k]
    {
      ValuesMembers(q, d, r, Wave, waves[k]);
    }
    MeanAtLeast(waves, 0.1);
    Round1Tenth();
  }
}
