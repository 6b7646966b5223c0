/** The response step of a request: given the cancellation flag, the raw
    answer of one transmission, the retry counter and the request's
    configuration, it abandons the answer, restarts the request, or delivers a
    success or an error to the registered callbacks. */
module Dispatch {
  import opened Basics
  import opened Status
  import opened Decoding
  import opened ServerMessage

  /** The header fields of a response, carried through untouched. */
  type Headers = map<string, string>

  /** Foundation's error code for a request that timed out. */
  const UrlErrorTimedOut: int := -1001

  /** A transport error, reduced to its error code. */
  datatype TransportError = TransportError(code: int)

  /** The HTTP part of an answer: the wire status code and the header fields. */
  datatype HttpResponse = HttpResponse(statusCode: int, headers: Headers)

  /** The raw outcome of one transmission: an optional HTTP response, an
      optional body, an optional transport error, and the total duration of
      the call in milliseconds. */
  datatype Answer = Answer(
    response: Option<HttpResponse>,
    data: Option<Bytes>,
    error: Option<TransportError>,
    totalDuration: int)

  /** Which of the request's optional callbacks are registered. */
  datatype Callbacks = Callbacks(
    success: bool,           // `successCallback`
    successExtended: bool,   // `successCallbackExtended`
    flatten: bool,           // `flattenSuccessHandler`
    notAuthorized: bool,     // `notAuthorizedCallback`
    timeout: bool)           // `timeoutCallback`

  /** The per-request configuration the response step reads. Durations are in
      milliseconds. */
  datatype Request<D> = Request(
    host: string,
    endpoint: string,
    shape: ExpectedShape,
    successStatusCodes: seq<StatusCode>,
    retryCondition: seq<StatusCode>,
    retryAttempts: int,
    additionalTimeout: int,
    dateStrategy: Option<D>,
    callbacks: Callbacks)

  /** The process-wide configuration: which global hooks are registered and
      the global date-decoding strategy. */
  datatype Shared<D> = Shared(
    successResponseHandler: bool,
    unauthorizedHandler: bool,
    dateStrategy: Option<D>)

  /** Everything the response step depends on outside the request itself. */
  datatype Env<V, !D> = Env(
    table: StatusTable,
    shared: Shared<D>,
    defaultDateStrategy: D,
    decoders: Decoders<V, D>,
    reader: JsonReader)

  /** One callback invocation. */
  datatype Event<V> =
    | GlobalSuccess(host: string, endpoint: string)
    | Success(body: Body<V>)
    | SuccessExtended(headers: Headers, status: StatusCode, bodyData: Bytes, body: Body<V>)
    | Flatten
    | ParseError(status: StatusCode, error: Option<TransportError>, data: Option<Bytes>, message: string)
    | GlobalUnauthorized
    | NotAuthorized
    | TimeoutFired

  /** Callbacks run now, or scheduled to run after `delay` milliseconds. */
  datatype Delivery<V> =
    | Immediate(events: seq<Event<V>>)
    | Deferred(delay: int, events: seq<Event<V>>)

  /** The effect of one response step: what is delivered, the new retry
      counter, and whether the request is started again. */
  datatype StepResult<V> = StepResult(delivery: Delivery<V>, counter: nat, restart: bool)

  /** An event that delivers through the error channel or one of the
      callbacks that replace it. */
  predicate IsErrorDelivery<V>(e: Event<V>)
  {
    e.ParseError? || e.NotAuthorized? || e.TimeoutFired?
  }

  /** An event of the success family. */
  predicate IsSuccessCallback<V>(e: Event<V>)
  {
    e.GlobalSuccess? || e.Success? || e.SuccessExtended? || e.Flatten?
  }

  /** The number of error-channel deliveries among some events. */
  function ErrorDeliveries<V>(events: seq<Event<V>>): nat
  {
    if events == [] then 0
    else (if IsErrorDelivery(events[0]) then 1 else 0) + ErrorDeliveries(events[1..])
  }

  /** A step with no effect at all. */
  function Abandon<V>(counter: nat): StepResult<V>
  {
    StepResult(Immediate([]), counter, false)
  }

  /** A step that restarts the request without delivering anything. */
  function Restart<V>(counter: nat): StepResult<V>
  {
    StepResult(Immediate([]), counter + 1, true)
  }

  /** The event of a callback that fires only when it is registered. */
  function IfRegistered<V>(registered: bool, e: Event<V>): seq<Event<V>>
  {
    if registered then [e] else []
  }

  /** Runs the callbacks at once when the remaining latency floor `diff` is
      not positive, and defers them by `diff` otherwise. */
  function DelayedResponse<V>(diff: int, events: seq<Event<V>>): (r: Delivery<V>)
    ensures r.events == events
    ensures r.Deferred? <==> diff > 0
    ensures r.Deferred? ==> r.delay == diff
  {
    if diff > 0 then Deferred(diff, events) else Immediate(events)
  }

  /** The success callbacks, in the order they run: the global success hook,
      the success callback, the extended success callback, the flatten hook. */
  function SuccessEvents<V, D>(env: Env<V, D>, req: Request<D>, headers: Headers, status: StatusCode, data: Bytes, body: Body<V>): seq<Event<V>>
  {
    IfRegistered(env.shared.successResponseHandler, GlobalSuccess(req.host, req.endpoint))
    + IfRegistered(req.callbacks.success, Success(body))
    + IfRegistered(req.callbacks.successExtended, SuccessExtended(headers, status, data, body))
    + IfRegistered(req.callbacks.flatten, Flatten)
  }

  /** The error reported when a success response cannot be decoded. */
  function UndecodableError<V>(table: StatusTable, answer: Answer): Event<V>
  {
    ParseError(table.undecodable, answer.error, answer.data, GenericMessage)
  }

  /** The date-decoding strategy given to the JSON decoder for this request. */
  function DateStrategyFor<V, D>(env: Env<V, D>, req: Request<D>): D
  {
    ResolveDateStrategy(req.dateStrategy, env.shared.dateStrategy, env.defaultDateStrategy)
  }

  /** A status among the success codes: decode the body for the expected shape
      and deliver it through the latency floor, or report it undecodable. */
  function OnSuccessStatus<V, D>(env: Env<V, D>, req: Request<D>, answer: Answer, response: HttpResponse, diff: int): Delivery<V>
  {
    var status := env.table.fromRaw(response.statusCode);
    match answer.data
    case None => Immediate([UndecodableError(env.table, answer)])
    case Some(data) =>
      match DecodeBody(req.shape, env.decoders, DateStrategyFor(env, req), data)
      case Some(body) => DelayedResponse(diff, SuccessEvents(env, req, response.headers, status, data, body))
      case None => Immediate([UndecodableError(env.table, answer)])
  }

  /** Status 401: the global unauthorized hook, then the request's own
      not-authorized callback if it has one, else an unauthorized error. */
  function OnUnauthorized<V, D>(env: Env<V, D>, req: Request<D>, answer: Answer): seq<Event<V>>
  {
    IfRegistered(env.shared.unauthorizedHandler, GlobalUnauthorized)
    + if req.callbacks.notAuthorized then [NotAuthorized]
      else [ParseError(Unauthorized, answer.error, answer.data, "Not authorized")]
  }

  /** Any other status: one error under the classified status, carrying the
      server's message when the body has one. */
  function OnOtherStatus<V, D>(env: Env<V, D>, answer: Answer, response: HttpResponse): seq<Event<V>>
  {
    [ParseError(env.table.fromRaw(response.statusCode), answer.error, answer.data, ErrorMessage(env.reader, answer.data))]
  }

  /** An answer with an HTTP response. The retry test on the status comes
      first, before the success, 401 and other-status branches. */
  function OnResponse<V, D>(env: Env<V, D>, req: Request<D>, answer: Answer, response: HttpResponse, counter: nat): StepResult<V>
  {
    var diff := req.additionalTimeout - answer.totalDuration;
    if RetriesOnStatus(req.retryCondition, env.table.fromRaw(response.statusCode), counter, req.retryAttempts) then
      Restart(counter)
    else if IsSuccessCode(req.successStatusCodes, response.statusCode) then
      StepResult(OnSuccessStatus(env, req, answer, response, diff), counter, false)
    else if response.statusCode == Unauthorized.rawValue then
      StepResult(Immediate(OnUnauthorized(env, req, answer)), counter, false)
    else
      StepResult(Immediate(OnOtherStatus(env, answer, response)), counter, false)
  }

  /** The answer reports a timeout of the transport. */
  predicate IsTimeout(answer: Answer)
  {
    answer.error.Some? && answer.error.value.code == UrlErrorTimedOut
  }

  /** The one delivery of a timeout: the timeout callback if registered, else
      a timeout error. */
  function TimeoutNotice<V, D>(env: Env<V, D>, req: Request<D>, answer: Answer): Event<V>
  {
    if req.callbacks.timeout then TimeoutFired
    else ParseError(env.table.connectionTimedOut, answer.error, answer.data, "Connection timeout")
  }

  /** An answer without an HTTP response. Only a timeout has an effect: the
      timeout callback or a timeout error, and after that possibly a restart. */
  function OnNoResponse<V, D>(env: Env<V, D>, req: Request<D>, answer: Answer, counter: nat): StepResult<V>
  {
    if !IsTimeout(answer) then
      Abandon(counter)
    else
      var events := [TimeoutNotice(env, req, answer)];
      if RetriesOnTimeout(env.table, req.retryCondition, counter, req.retryAttempts) then
        StepResult(Immediate(events), counter + 1, true)
      else
        StepResult(Immediate(events), counter, false)
  }

  /** The response step. Cancellation is read once, on entry. A restart
      happens only below the retry ceiling and adds exactly one to the
      counter; otherwise the counter is unchanged. Only a success delivery can
      be deferred. */
  function ParseResponse<V, D>(env: Env<V, D>, req: Request<D>, cancelled: bool, answer: Answer, counter: nat): (r: StepResult<V>)
    ensures cancelled ==> r.delivery == Immediate([]) && r.counter == counter && !r.restart
    ensures r.restart ==> counter < req.retryAttempts && r.counter == counter + 1
    ensures !r.restart ==> r.counter == counter
    ensures r.delivery.Deferred? ==>
              && answer.response.Some?
              && IsSuccessCode(req.successStatusCodes, answer.response.value.statusCode)
              && r.delivery.delay == req.additionalTimeout - answer.totalDuration > 0
  {
    if cancelled then
      Abandon(counter)
    else
      match answer.response
      case Some(response) => OnResponse(env, req, answer, response, counter)
      case None => OnNoResponse(env, req, answer, counter)
  }
}
