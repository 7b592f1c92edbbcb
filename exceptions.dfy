/**
 * What a provider request can end in: the throwables the adapters and the
 * service raise, and the outcome of the HTTP client they call.
 */
module Exceptions {
  import opened Wrappers
  import opened Text

  /**
   * A thrown value. `WeatherApiException`, with its message and the
   * throwable it chains, and `OtherException` (a connection error, a
   * timeout) are `\Exception`s. `TypeError` is an `\Error`: no
   * `catch (\Exception $e)` catches it.
   */
  datatype Throwable =
    | WeatherApiException(message: string, previous: Option<Throwable>)
    | OtherException(message: string)
    | TypeError(message: string)

  /** An `\Exception`, as opposed to an `\Error`. */
  predicate IsException(e: Throwable) {
    !e.TypeError?
  }

  /**
   * A response body as `$response->json()` decodes it: an array, read as
   * the adapter's payload, or any other value (null for an empty or
   * non-JSON body, or a scalar), named by its PHP type.
   */
  datatype Json<Body> = Array(value: Body) | NotArray(typeName: string)

  /**
   * What the HTTP client hands back after its retries: a response with its
   * status code and decoded body, or the throwable it raised.
   */
  datatype HttpOutcome<Body> = Response(status: int, body: Json<Body>) | Thrown(error: Throwable)

  /** `$response->successful()`: a 2xx status. */
  predicate Successful(status: int) {
    200 <= status < 300
  }

  /**
   * The `TypeError` PHP raises when `normalizeData(array $apiData)` is
   * called with a value of type `typeName`.
   */
  function NotArrayError(typeName: string): (e: Throwable)
    ensures !IsException(e)
  {
    TypeError("normalizeData(): Argument #1 ($apiData) must be of type array, " + typeName + " given")
  }

  /**
   * What leaves the try block of an adapter's `getForecast` when `e` is
   * thrown inside it. `catch (\Exception $e)` rethrows a
   * `WeatherApiException` as it is and turns any other `\Exception` into
   * a `WeatherApiException` whose message is `prefix` followed by the
   * original message and which chains the original; an `\Error` is not
   * caught and leaves unchanged.
   */
  function Wrapped(e: Throwable, prefix: string): (w: Throwable)
    ensures IsException(e) <==> w.WeatherApiException?
    ensures e.WeatherApiException? || !IsException(e) ==> w == e
    ensures e.OtherException? ==>
      && w.previous == Some(e)
      && |w.message| == |prefix| + |e.message|
      && w.message[..|prefix|] == prefix && w.message[|prefix|..] == e.message
  {
    if e.OtherException? then WeatherApiException(prefix + e.message, Some(e)) else e
  }

  /** The prefix of the message an adapter wraps a client error in. */
  function RequestErrorPrefix(api: string): string {
    "Ошибка при запросе к " + api + ": "
  }

  /** The message of the exception raised for a non-2xx status. */
  function StatusMessage(api: string, status: int): string {
    api + " вернул ошибку: " + IntToString(status)
  }

  /**
   * The outcomes whose throwable escapes an adapter's catch: a 2xx
   * response whose body is not an array, or an `\Error` from the client.
   */
  predicate Escapes<Body>(outcome: HttpOutcome<Body>) {
    match outcome
    case Response(status, body) => Successful(status) && body.NotArray?
    case Thrown(e) => !IsException(e)
  }

  /**
   * An adapter's `getForecast` over the client's outcome, for the provider
   * named `api`, as written: a 2xx response is normalised, any other
   * status raises "<api> вернул ошибку: <status>", and what is thrown
   * inside the try block leaves it through `Wrapped`. A 2xx body that is
   * not an array makes `normalizeData` raise a `TypeError`, which escapes.
   */
  function Fetched<Body, Data>(outcome: HttpOutcome<Body>, api: string, normalize: Body -> Data): (r: Result<Data, Throwable>)
    ensures r.Success? <==> outcome.Response? && Successful(outcome.status) && outcome.body.Array?
    ensures r.Success? ==> r.value == normalize(outcome.body.value)
    ensures r.Failure? ==> (r.error.WeatherApiException? <==> !Escapes(outcome))
    ensures outcome.Response? && Successful(outcome.status) && outcome.body.NotArray? ==>
      r == Failure(NotArrayError(outcome.body.typeName))
    ensures outcome.Response? && !Successful(outcome.status) ==>
      r == Failure(WeatherApiException(StatusMessage(api, outcome.status), None))
  {
    match outcome
    case Response(status, body) =>
      if !Successful(status) then Failure(WeatherApiException(StatusMessage(api, status), None))
      else if body.NotArray? then Failure(Wrapped(NotArrayError(body.typeName), RequestErrorPrefix(api)))
      else Success(normalize(body.value))
    case Thrown(e) => Failure(Wrapped(e, RequestErrorPrefix(api)))
  }

  /**
   * An adapter's `getForecast` as its `@throws WeatherApiException` has
   * it: the same, with every throwable caught (`catch (\Throwable $e)`),
   * so that nothing but a `WeatherApiException` ever leaves it.
   */
  function FetchedCatchingAll<Body, Data>(outcome: HttpOutcome<Body>, api: string, normalize: Body -> Data): (r: Result<Data, Throwable>)
    ensures r.Success? <==> outcome.Response? && Successful(outcome.status) && outcome.body.Array?
    ensures r.Success? ==> r == Fetched(outcome, api, normalize)
    ensures r.Failure? ==> r.error.WeatherApiException?
    ensures !Escapes(outcome) ==> r == Fetched(outcome, api, normalize)
  {
    match outcome
    case Response(status, body) =>
      if !Successful(status) then Failure(WeatherApiException(StatusMessage(api, status), None))
      else if body.NotArray? then
        var e := NotArrayError(body.typeName);
        Failure(WeatherApiException(RequestErrorPrefix(api) + e.message, Some(e)))
      else Success(normalize(body.value))
    case Thrown(e) =>
      if e.WeatherApiException? then Failure(e)
      else Failure(WeatherApiException(RequestErrorPrefix(api) + e.message, Some(e)))
  }

  /**
   * The body of an adapter's `getForecast` once the response is known to
   * be a 2xx array: every other outcome fails as `Fetched` says.
   */
  method FailedFetch<Body, Data>(outcome: HttpOutcome<Body>, api: string, ghost normalize: Body -> Data)
    returns (error: Throwable)
    requires !(outcome.Response? && Successful(outcome.status) && outcome.body.Array?)
    ensures Fetched(outcome, api, normalize) == Failure(error)
  {
    match outcome
    case Response(status, body) =>
      if !Successful(status) {
        error := WeatherApiException(StatusMessage(api, status), None);
      } else {
        error := Wrapped(NotArrayError(body.typeName), RequestErrorPrefix(api));
      }
    case Thrown(e) =>
      error := Wrapped(e, RequestErrorPrefix(api));
  }
}
