/**
 * The weather service: Windy first, OpenWeatherMap as the fallback, one
 * aggregate error when both fail; and the check that some provider has a
 * key configured.
 */
module WeatherService {
  import opened Wrappers
  import opened Normalization
  import opened Exceptions
  import OpenWeatherMap
  import Windy

  const AllApisUnavailable := "Не удалось получить прогноз погоды. Все API недоступны."

  /**
   * `getForecast`, given what each adapter's `getForecast` returns or
   * throws. Only a `WeatherApiException` from Windy leads to
   * OpenWeatherMap, and only a `WeatherApiException` from OpenWeatherMap
   * becomes the aggregate error, which chains it; any other exception
   * propagates as it is.
   */
  function GetForecast(windy: Result<Aggregate, Throwable>, openWeatherMap: Result<Aggregate, Throwable>)
    : (r: Result<Aggregate, Throwable>)
    ensures windy.Success? ==> r == windy
    ensures windy.Failure? && !windy.error.WeatherApiException? ==> r == windy
    ensures windy.Failure? && windy.error.WeatherApiException? ==>
      r == if openWeatherMap.Failure? && openWeatherMap.error.WeatherApiException?
           then Failure(WeatherApiException(AllApisUnavailable, Some(openWeatherMap.error)))
           else openWeatherMap
  {
    match windy
    case Success(_) => windy
    case Failure(e) =>
      if !e.WeatherApiException? then windy
      else
        match openWeatherMap
        case Success(_) => openWeatherMap
        case Failure(e2) =>
          if e2.WeatherApiException? then Failure(WeatherApiException(AllApisUnavailable, Some(e2)))
          else openWeatherMap
  }

  /** When Windy answers, OpenWeatherMap's outcome does not matter: it is never asked. */
  lemma {:induction false} WindyAnswerWins(forecast: Aggregate, o1: Result<Aggregate, Throwable>, o2: Result<Aggregate, Throwable>)
    ensures GetForecast(Success(forecast), o1) == GetForecast(Success(forecast), o2) == Success(forecast)
  {
  }

  /** What the Windy adapter returns for the client's outcome, as written. */
  function WindyResult(outcome: HttpOutcome<Windy.Payload>): Result<Aggregate, Throwable> {
    Fetched(outcome, Windy.Api, (p: Windy.Payload) => Normalized(Windy.Samples(p)))
  }

  /** What the OpenWeatherMap adapter returns for the client's outcome, as written. */
  function OpenWeatherMapResult(outcome: HttpOutcome<OpenWeatherMap.Payload>): Result<Aggregate, Throwable> {
    Fetched(outcome, OpenWeatherMap.Api, (p: OpenWeatherMap.Payload) => Normalized(OpenWeatherMap.Samples(p)))
  }

  /**
   * Over the two adapters as written: Windy's answer wins; a throwable
   * that escapes Windy's catch (a 2xx body that is not an array) is
   * returned unchanged and OpenWeatherMap is never asked; otherwise
   * OpenWeatherMap's answer or escaping throwable is returned, and when
   * both fail with a `WeatherApiException` the aggregate error chains
   * OpenWeatherMap's.
   */
  lemma {:induction false} FallbackOverAdapters(windy: HttpOutcome<Windy.Payload>, openWeatherMap: HttpOutcome<OpenWeatherMap.Payload>)
    ensures var w, o := WindyResult(windy), OpenWeatherMapResult(openWeatherMap);
      var r := GetForecast(w, o);
      && (w.Success? ==> r == w)
      && (Escapes(windy) ==> r == w && r.Failure? && !IsException(r.error))
      && (w.Failure? && !Escapes(windy) && (o.Success? || Escapes(openWeatherMap)) ==> r == o)
      && (!Escapes(windy) && !Escapes(openWeatherMap) ==>
            && (r.Failure? <==> w.Failure? && o.Failure?)
            && (r.Failure? ==> r.error == WeatherApiException(AllApisUnavailable, Some(o.error))))
  {
  }

  /**
   * As written, a 2xx Windy response with an empty body is a failure of
   * the whole service although OpenWeatherMap would have answered.
   */
  lemma {:induction false} WindyEmptyBodyNoFallback()
    ensures var r := GetForecast(WindyResult(Response(200, NotArray("null"))),
                                 OpenWeatherMapResult(Response(200, Array(OpenWeatherMap.Payload(None)))));
      r.Failure? && r.error == NotArrayError("null")
  {
    var w := WindyResult(Response(200, NotArray("null")));
    assert w == Failure(NotArrayError("null"));
  }

  /**
   * Over adapters that catch every throwable, as their `@throws` promise:
   * the service fails exactly when both providers fail, always with the
   * aggregate `WeatherApiException` chaining OpenWeatherMap's error.
   */
  lemma {:induction false} FallbackOverCorrectedAdapters(windy: HttpOutcome<Windy.Payload>, openWeatherMap: HttpOutcome<OpenWeatherMap.Payload>)
    ensures var w := FetchedCatchingAll(windy, Windy.Api, (p: Windy.Payload) => Normalized(Windy.Samples(p)));
      var o := FetchedCatchingAll(openWeatherMap, OpenWeatherMap.Api, (p: OpenWeatherMap.Payload) => Normalized(OpenWeatherMap.Samples(p)));
      var r := GetForecast(w, o);
      && (w.Success? ==> r == w)
      && (w.Failure? && o.Success? ==> r == o)
      && (r.Failure? <==> w.Failure? && o.Failure?)
      && (r.Failure? ==> r.error == WeatherApiException(AllApisUnavailable, Some(o.error)))
  {
  }

  /** PHP `empty()` on a configured key: missing (null), "" and "0" are empty. */
  predicate Empty(key: Option<string>) {
    key.None? || key.value == "" || key.value == "0"
  }

  /**
   * `isAnyApiAvailable`: some provider has a non-empty key, Windy's looked
   * at first. Reading the two keys cannot throw here, so the catch branch
   * that answers false is never taken.
   */
  function IsAnyApiAvailable(windyKey: Option<string>, openWeatherMapKey: Option<string>): (available: bool)
    ensures available <==> !Empty(windyKey) || !Empty(openWeatherMapKey)
  {
    if !Empty(windyKey) then true
    else if !Empty(openWeatherMapKey) then true
    else false
  }

  /** A key of "0" counts as missing, as `empty()` has it. */
  lemma {:induction false} ZeroKeyIsMissing()
    ensures !IsAnyApiAvailable(Some("0"), None)
    ensures !IsAnyApiAvailable(Some(""), Some("0"))
    ensures IsAnyApiAvailable(None, Some("00"))
  {
  }
}
