/** Properties of the response step, one per branch of the source, and the
    exclusivity of its deliveries over all inputs. */
module ResponseProperties {
  import opened Basics
  import opened Status
  import opened Decoding
  import opened ServerMessage
  import opened Dispatch

  /** No event of the success family occurs. */
  ghost predicate NoSuccessCallbacks<V>(events: seq<Event<V>>)
  {
    forall i :: 0 <= i < |events| ==> !IsSuccessCallback(events[i])
  }

  /** The count of error-channel deliveries adds up over concatenation. */
  lemma {:induction false} ErrorDeliveriesAppend<V>(a: seq<Event<V>>, b: seq<Event<V>>)
    ensures ErrorDeliveries(a + b) == ErrorDeliveries(a) + ErrorDeliveries(b)
    decreases |a|
  {
    if a == [] {
      assert a + b == b;
    } else {
      assert (a + b)[1..] == a[1..] + b;
      ErrorDeliveriesAppend(a[1..], b);
    }
  }

  /** Success events contain no error-channel delivery. */
  lemma SuccessEventsDeliverNoError<V, D>(env: Env<V, D>, req: Request<D>, headers: Headers, status: StatusCode, data: Bytes, body: Body<V>)
    ensures ErrorDeliveries(SuccessEvents(env, req, headers, status, data, body)) == 0
  {
    var g := IfRegistered(env.shared.successResponseHandler, GlobalSuccess(req.host, req.endpoint));
    var s := IfRegistered(req.callbacks.success, Success(body));
    var x := IfRegistered(req.callbacks.successExtended, SuccessExtended(headers, status, data, body));
    var f := IfRegistered(req.callbacks.flatten, Flatten);
    ErrorDeliveriesAppend(g, s);
    ErrorDeliveriesAppend(g + s, x);
    ErrorDeliveriesAppend(g + s + x, f);
  }

  /** A retry on the status happens exactly when the classified status is a
      retry condition and the counter is below the ceiling, whatever the
      success codes are; it delivers nothing and adds one to the counter. */
  lemma StatusRetryPrecedesDelivery<V, D>(env: Env<V, D>, req: Request<D>, answer: Answer, counter: nat)
    requires answer.response.Some?
    ensures var r := ParseResponse(env, req, false, answer, counter);
            && (r.restart <==> env.table.fromRaw(answer.response.value.statusCode) in req.retryCondition
                               && counter < req.retryAttempts)
            && (r.restart ==> r.delivery == Immediate([]) && r.counter == counter + 1)
  {
  }

  /** A decoded success is delivered as the registered success callbacks in
      their fixed order, through the latency floor, with no error. */
  lemma SuccessDelivery<V, D>(env: Env<V, D>, req: Request<D>, answer: Answer, counter: nat, body: Body<V>)
    requires answer.response.Some? && answer.data.Some?
    requires !RetriesOnStatus(req.retryCondition, env.table.fromRaw(answer.response.value.statusCode), counter, req.retryAttempts)
    requires IsSuccessCode(req.successStatusCodes, answer.response.value.statusCode)
    requires DecodeBody(req.shape, env.decoders, DateStrategyFor(env, req), answer.data.value) == Some(body)
    ensures var r := ParseResponse(env, req, false, answer, counter);
            && r.delivery.events == SuccessEvents(env, req, answer.response.value.headers,
                                                  env.table.fromRaw(answer.response.value.statusCode),
                                                  answer.data.value, body)
            && ErrorDeliveries(r.delivery.events) == 0
            && !r.restart && r.counter == counter
            && (r.delivery.Deferred? <==> req.additionalTimeout - answer.totalDuration > 0)
  {
    SuccessEventsDeliverNoError(env, req, answer.response.value.headers,
                                env.table.fromRaw(answer.response.value.statusCode), answer.data.value, body);
  }

  /** With every callback registered, a decoded success fires exactly the
      global success hook, the success callback, the extended success callback
      and the flatten hook, in that order; raw data is handed over unchanged. */
  lemma SuccessDeliveryAllRegistered<V, D>(env: Env<V, D>, req: Request<D>, answer: Answer, counter: nat)
    requires answer.response.Some? && answer.data.Some?
    requires !RetriesOnStatus(req.retryCondition, env.table.fromRaw(answer.response.value.statusCode), counter, req.retryAttempts)
    requires IsSuccessCode(req.successStatusCodes, answer.response.value.statusCode)
    requires DecodeBody(req.shape, env.decoders, DateStrategyFor(env, req), answer.data.value).Some?
    requires env.shared.successResponseHandler && req.callbacks.success
    requires req.callbacks.successExtended && req.callbacks.flatten
    ensures var r := ParseResponse(env, req, false, answer, counter);
            var body := DecodeBody(req.shape, env.decoders, DateStrategyFor(env, req), answer.data.value).value;
            && r.delivery.events == [GlobalSuccess(req.host, req.endpoint),
                                     Success(body),
                                     SuccessExtended(answer.response.value.headers,
                                                     env.table.fromRaw(answer.response.value.statusCode),
                                                     answer.data.value, body),
                                     Flatten]
            && (req.shape.RawData? ==> body == DataBody(answer.data.value))
            && (req.shape.Nothing? ==> body == NothingBody)
  {
  }

  /** A success status whose body is missing or does not decode gives exactly
      one undecodable error, at once, and no success callback. */
  lemma UndecodableDelivery<V, D>(env: Env<V, D>, req: Request<D>, answer: Answer, counter: nat)
    requires answer.response.Some?
    requires !RetriesOnStatus(req.retryCondition, env.table.fromRaw(answer.response.value.statusCode), counter, req.retryAttempts)
    requires IsSuccessCode(req.successStatusCodes, answer.response.value.statusCode)
    requires answer.data.None?
             || DecodeBody(req.shape, env.decoders, DateStrategyFor(env, req), answer.data.value).None?
    ensures var r := ParseResponse(env, req, false, answer, counter);
            && r.delivery == Immediate([ParseError(env.table.undecodable, answer.error, answer.data, "Something went wrong...")])
            && !r.restart && r.counter == counter
  {
  }

  /** Decoding fails only for the primitive and structured shapes, and only
      when their decoder fails; a missing body is undecodable for every shape. */
  lemma UndecodableOnlyWhenDecoderFails<V, D>(env: Env<V, D>, req: Request<D>, data: Bytes)
    ensures DecodeBody(req.shape, env.decoders, DateStrategyFor(env, req), data).None?
            <==> (req.shape.Primitive? && env.decoders.primitive(data).None?)
                 || (req.shape.Structured? && env.decoders.json(DateStrategyFor(env, req), data).None?)
  {
  }

  /** A step defers its delivery exactly when it delivers a decoded success
      and the latency floor has time left; every other path, the error and
      retry paths included, runs at once. */
  lemma DelayDecision<V, D>(env: Env<V, D>, req: Request<D>, cancelled: bool, answer: Answer, counter: nat)
    ensures ParseResponse(env, req, cancelled, answer, counter).delivery.Deferred?
            <==> && !cancelled
                 && answer.response.Some?
                 && !RetriesOnStatus(req.retryCondition, env.table.fromRaw(answer.response.value.statusCode), counter, req.retryAttempts)
                 && IsSuccessCode(req.successStatusCodes, answer.response.value.statusCode)
                 && answer.data.Some?
                 && DecodeBody(req.shape, env.decoders, DateStrategyFor(env, req), answer.data.value).Some?
                 && req.additionalTimeout - answer.totalDuration > 0
  {
  }

  /** Status 401 outside the success codes and not retried: the global
      unauthorized hook fires first, then either the not-authorized callback
      or an unauthorized error, never both. */
  lemma UnauthorizedDelivery<V, D>(env: Env<V, D>, req: Request<D>, answer: Answer, counter: nat)
    requires answer.response.Some? && answer.response.value.statusCode == 401
    requires !RetriesOnStatus(req.retryCondition, env.table.fromRaw(401), counter, req.retryAttempts)
    requires !IsSuccessCode(req.successStatusCodes, 401)
    ensures var r := ParseResponse(env, req, false, answer, counter);
            var ev := r.delivery.events;
            && r.delivery.Immediate? && !r.restart && r.counter == counter
            && |ev| >= 1
            && ev[..|ev| - 1] == (if env.shared.unauthorizedHandler then [GlobalUnauthorized] else [])
            && ev[|ev| - 1] == (if req.callbacks.notAuthorized then NotAuthorized
                                else ParseError(Unauthorized, answer.error, answer.data, "Not authorized"))
            && ErrorDeliveries(ev) == 1
  {
    var ev := OnUnauthorized(env, req, answer);
    var hook: seq<Event<V>> := IfRegistered(env.shared.unauthorizedHandler, GlobalUnauthorized);
    var last: Event<V> := if req.callbacks.notAuthorized then NotAuthorized
                          else ParseError(Unauthorized, answer.error, answer.data, "Not authorized");
    assert ev == hook + [last];
    ErrorDeliveriesAppend(hook, [last]);
  }

  /** Any other status gives exactly one error, under the classified status,
      carrying the message the body supplies, else the generic one. */
  lemma OtherStatusDelivery<V, D>(env: Env<V, D>, req: Request<D>, answer: Answer, counter: nat)
    requires answer.response.Some?
    requires !RetriesOnStatus(req.retryCondition, env.table.fromRaw(answer.response.value.statusCode), counter, req.retryAttempts)
    requires !IsSuccessCode(req.successStatusCodes, answer.response.value.statusCode)
    requires answer.response.value.statusCode != 401
    ensures var r := ParseResponse(env, req, false, answer, counter);
            && r.delivery == Immediate([ParseError(env.table.fromRaw(answer.response.value.statusCode),
                                                   answer.error, answer.data, ErrorMessage(env.reader, answer.data))])
            && !r.restart && r.counter == counter
  {
  }

  /** Without a response, an answer that is not a timeout has no effect. */
  lemma NonTimeoutIsDropped<V, D>(env: Env<V, D>, req: Request<D>, answer: Answer, counter: nat)
    requires answer.response.None? && !IsTimeout(answer)
    ensures var r := ParseResponse(env, req, false, answer, counter);
            r.delivery == Immediate([]) && r.counter == counter && !r.restart
  {
  }

  /** A timeout delivers exactly one of the timeout callback and a timeout
      error, and only then restarts; it restarts exactly when the counter is
      below the ceiling and every retry condition is a timeout code. */
  lemma TimeoutDelivery<V, D>(env: Env<V, D>, req: Request<D>, answer: Answer, counter: nat)
    requires answer.response.None? && IsTimeout(answer)
    ensures var r := ParseResponse(env, req, false, answer, counter);
            && r.delivery.Immediate?
            && r.delivery.events == [if req.callbacks.timeout then TimeoutFired
                                     else ParseError(env.table.connectionTimedOut, answer.error, answer.data, "Connection timeout")]
            && (r.restart <==> counter < req.retryAttempts
                               && (set c | c in req.retryCondition) <= {env.table.timedOut, env.table.requestTimeout})
  {
    TimeoutRetryIsSubsetTest(env.table, req.retryCondition, counter, req.retryAttempts);
  }

  /** At most one error-channel delivery, and none together with a success
      callback. */
  ghost predicate Exclusive<V>(events: seq<Event<V>>)
  {
    && ErrorDeliveries(events) <= 1
    && (ErrorDeliveries(events) == 1 ==> NoSuccessCallbacks(events))
  }

  /** A lone error-channel delivery is exclusive. */
  lemma SingleErrorIsExclusive<V>(e: Event<V>)
    requires IsErrorDelivery(e)
    ensures Exclusive([e])
  {
    assert [e][1..] == [];
  }

  /** The 401 branch is exclusive. */
  lemma UnauthorizedIsExclusive<V, D>(env: Env<V, D>, req: Request<D>, answer: Answer)
    ensures Exclusive(OnUnauthorized(env, req, answer))
  {
    var hook: seq<Event<V>> := IfRegistered(env.shared.unauthorizedHandler, GlobalUnauthorized);
    var last: Event<V> := if req.callbacks.notAuthorized then NotAuthorized
                          else ParseError(Unauthorized, answer.error, answer.data, "Not authorized");
    assert OnUnauthorized(env, req, answer) == hook + [last];
    ErrorDeliveriesAppend(hook, [last]);
    assert [last][1..] == [];
  }

  /** The success-status branch is exclusive. */
  lemma SuccessStatusIsExclusive<V, D>(env: Env<V, D>, req: Request<D>, answer: Answer, response: HttpResponse, diff: int)
    ensures Exclusive(OnSuccessStatus(env, req, answer, response, diff).events)
  {
    var undecodable: Event<V> := UndecodableError(env.table, answer);
    SingleErrorIsExclusive(undecodable);
    if answer.data.Some? {
      var decoded := DecodeBody(req.shape, env.decoders, DateStrategyFor(env, req), answer.data.value);
      if decoded.Some? {
        SuccessEventsDeliverNoError(env, req, response.headers, env.table.fromRaw(response.statusCode),
                                    answer.data.value, decoded.value);
      }
    }
  }

  /** For every input, at most one error-channel delivery happens, never
      together with a success callback, and only a timeout both delivers and
      restarts. */
  lemma DeliveryIsExclusive<V, D>(env: Env<V, D>, req: Request<D>, cancelled: bool, answer: Answer, counter: nat)
    ensures var r := ParseResponse(env, req, cancelled, answer, counter);
            && Exclusive(r.delivery.events)
            && (r.restart && r.delivery.events != [] ==> answer.response.None? && IsTimeout(answer))
  {
    var empty: seq<Event<V>> := [];
    assert Exclusive(empty);
    if !cancelled {
      match answer.response
      case None =>
        SingleErrorIsExclusive(TimeoutNotice(env, req, answer));
      case Some(response) =>
        var diff := req.additionalTimeout - answer.totalDuration;
        SuccessStatusIsExclusive(env, req, answer, response, diff);
        UnauthorizedIsExclusive(env, req, answer);
        SingleErrorIsExclusive(OnOtherStatus(env, answer, response)[0]);
        assert OnOtherStatus(env, answer, response) == [OnOtherStatus(env, answer, response)[0]];
    }
  }

  /** Once the counter has reached the ceiling, the retry conditions no
      longer matter: the step is that of the same request with none. */
  lemma ExhaustedRetriesIgnoreRetryCondition<V, D>(env: Env<V, D>, req: Request<D>, cancelled: bool, answer: Answer, counter: nat)
    requires counter >= req.retryAttempts
    ensures ParseResponse(env, req, cancelled, answer, counter)
            == ParseResponse(env, req.(retryCondition := []), cancelled, answer, counter)
  {
  }
}
