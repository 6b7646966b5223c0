# CodyFire response resolution, modelled in Dafny

This project models the response step of a CodyFire request: `APIRequest.parseResponse`
and its helper `delayedResponse`. The step receives the raw answer of one transmission
(an optional HTTP response, an optional body, an optional transport error and the call's
duration), the request's cancellation flag, its retry counter and its configuration.
It does exactly one of these things:

- it abandons the answer with no effect;
- it restarts the request and adds one to the retry counter;
- it delivers a decoded success to the registered success callbacks, possibly after a
  delay that enforces a minimum latency;
- it delivers an error through `parseError`, or through a dedicated callback instead;
- on a connection timeout, it delivers the timeout and then possibly restarts.

The step is the pure function `Dispatch.ParseResponse`. It returns the callbacks that fire,
in order, as a `Delivery`, together with the new counter and a `restart` flag that
stands for the call to `start()`. `Retrying.Run` chains steps over successive answers to
model repeated restarts.

Files and modules:

- `basics.dfy` (`Basics`): `Option`, bytes.
- `status.dfy` (`Status`): status codes compared by raw value, the success-code test, and
  the two retry tests, one on a status and one on a timeout.
- `decoding.dfy` (`Decoding`): the expected result shape (`Nothing`, raw `Data`, primitive,
  structured) as an explicit tag, the date-strategy precedence, and body decoding.
- `server_message.dfy` (`ServerMessage`): extracting the server's message from an error body.
- `dispatch.dfy` (`Dispatch`): answers, configuration, callback events, `DelayedResponse` and
  `ParseResponse`.
- `properties.dfy` (`ResponseProperties`): one lemma per branch, plus exclusivity of
  deliveries over all inputs.
- `retrying.dfy` (`Retrying`): successive attempts, bounded retries, repeated timeouts.

Foreign collaborators are parameters (`Env`). They are: the status classification
`StatusCode.from`, the named codes `timedOut`, `requestTimeout`, `_timedOut` and
`_undecodable`, the primitive decoder, the JSON decoder (which takes the resolved date
strategy), and the two JSON readers used for error messages. An unregistered optional
callback produces no event.

Three behaviours of the code that are easy to misread, and that the model keeps as written:

- The timeout retry test (line 122) is `retryCondition.allSatisfy([timedOut, requestTimeout].contains)`.
  That is a subset test: every configured condition must be one of the two timeout codes,
  and an empty condition list passes. It is not a requirement that both codes be configured.
- A timeout delivers its callback or error (lines 116-121) before the retry decision, so a
  timeout that restarts still delivers. Each timed-out attempt delivers once
  (`Retrying.RepeatedTimeouts`).
- Cancellation is read once, on entry (line 13). The deferred success closure does not
  check it again, so a cancellation during the latency delay does not suppress delivery.

## Model

| member | source | states |
|---|---|---|
| Dispatch.ParseResponse | CodyFire/Classes/APIRequest+ParseResponse.swift:12-129 | A cancelled request has no effect. A restart happens only while the counter is below `retryAttempts`, and it adds exactly one. Otherwise the counter is unchanged. Only a success on a configured success code is ever deferred, and then by exactly `additionalTimeout - totalDuration > 0`. |
| Dispatch.DelayedResponse | CodyFire/Classes/APIRequest+ParseResponse.swift:131-137 | The callbacks are passed on unchanged. They are deferred exactly when `diff > 0`, and then by `diff`; otherwise they run at once. |
| Decoding.ResolveDateStrategy | CodyFire/Classes/APIRequest+ParseResponse.swift:28-31 | The request's date strategy wins. Without one, the global strategy is used, and without that, the library default. |
| Decoding.DecodeBody | CodyFire/Classes/APIRequest+ParseResponse.swift:33-88 | A decoded body always has the form its shape requires. `Nothing` and raw data always decode, and raw data comes back as the same bytes. A primitive or structured body decodes exactly when its decoder succeeds, and the value is the decoder's own. |
| ServerMessage.ObjectMessage | CodyFire/Classes/APIRequest+ParseResponse.swift:103 | A message exists exactly when the body parses as a JSON object whose "message" entry is a string, and the message is that string. |
| ServerMessage.SoleArrayString | CodyFire/Classes/APIRequest+ParseResponse.swift:105-108 | A message exists exactly when the body parses as a one-element JSON array holding a string, and the message is that string. |
| ServerMessage.ErrorMessage | CodyFire/Classes/APIRequest+ParseResponse.swift:102-109 | With no body, the message is "Something went wrong...". A "message" string in a JSON object wins. Without one, the single string of a one-element JSON array is used. Only when both lookups fail is the generic text used. Any non-generic message is a string found in the body. |
| Status.TimeoutRetryIsSubsetTest | CodyFire/Classes/APIRequest+ParseResponse.swift:122 | A timeout retries exactly when the counter is below the ceiling and the set of retry conditions is a subset of {timedOut, requestTimeout}. |
| Status.OneTimeoutConditionSuffices | CodyFire/Classes/APIRequest+ParseResponse.swift:122 | Below the ceiling, configuring only `timedOut`, or only `requestTimeout`, is enough to retry a timeout. |
| Status.NoConditionRetriesTimeouts | CodyFire/Classes/APIRequest+ParseResponse.swift:122 | With an empty retry-condition list, a timeout retries exactly when the counter is below the ceiling. |
| Status.OtherConditionBlocksTimeoutRetry | CodyFire/Classes/APIRequest+ParseResponse.swift:122 | Any non-timeout retry condition disables timeout retries, even when both timeout codes are configured as well. |
| ResponseProperties.StatusRetryPrecedesDelivery | CodyFire/Classes/APIRequest+ParseResponse.swift:20-25 | With a response present, the step restarts exactly when the classified status is a retry condition and the counter is below the ceiling. This holds even for success codes. A restart emits nothing and adds one to the counter. |
| ResponseProperties.SuccessDelivery | CodyFire/Classes/APIRequest+ParseResponse.swift:33-85 | A decoded success fires the registered success callbacks in a fixed order and no error. It does not restart, it leaves the counter unchanged, and it is deferred exactly when the latency floor has time left. |
| ResponseProperties.SuccessEventsDeliverNoError | CodyFire/Classes/APIRequest+ParseResponse.swift:35-79 | The success callbacks contain no error-channel delivery. |
| ResponseProperties.SuccessDeliveryAllRegistered | CodyFire/Classes/APIRequest+ParseResponse.swift:33-85 | With every callback registered, the events are exactly the global success hook(host, endpoint), success(v), extended success(headers, status, data, v) and flatten. `Nothing` yields the unit body, and raw data yields the unchanged bytes. |
| ResponseProperties.UndecodableDelivery | CodyFire/Classes/APIRequest+ParseResponse.swift:32-92 | A success code with a missing body or a failed decode fires exactly one immediate `parseError(_undecodable, "Something went wrong...")` and no success callback. |
| ResponseProperties.UndecodableOnlyWhenDecoderFails | CodyFire/Classes/APIRequest+ParseResponse.swift:54-88 | A present body fails to decode exactly when the shape is primitive or structured and that shape's decoder fails. |
| ResponseProperties.DelayDecision | CodyFire/Classes/APIRequest+ParseResponse.swift:131-137 | A step is deferred exactly when it is a non-cancelled, non-retried, decoded success whose `additionalTimeout - totalDuration` is positive. Error and retry paths run at once. |
| ResponseProperties.UnauthorizedDelivery | CodyFire/Classes/APIRequest+ParseResponse.swift:93-100 | For a 401 that is neither retried nor a success code, the global unauthorized hook fires first, if registered. Then exactly one of the not-authorized callback or `parseError(unauthorized, "Not authorized")` fires. |
| ResponseProperties.OtherStatusDelivery | CodyFire/Classes/APIRequest+ParseResponse.swift:101-113 | Any other status fires exactly one `parseError`, under the classified status, carrying the message extracted from the body. |
| ResponseProperties.NonTimeoutIsDropped | CodyFire/Classes/APIRequest+ParseResponse.swift:114-115 | With no response and no timeout error, the step has no effect. |
| ResponseProperties.TimeoutDelivery | CodyFire/Classes/APIRequest+ParseResponse.swift:114-127 | A timeout fires exactly one event: the timeout callback or `parseError(_timedOut, "Connection timeout")`. It then restarts exactly when the counter is below the ceiling and the retry conditions are a subset of the two timeout codes. |
| ResponseProperties.DeliveryIsExclusive | CodyFire/Classes/APIRequest+ParseResponse.swift:12-129 | For every input, at most one error-channel delivery happens, and never alongside a success callback. Only a timeout both delivers and restarts. |
| ResponseProperties.ExhaustedRetriesIgnoreRetryCondition | CodyFire/Classes/APIRequest+ParseResponse.swift:20-127 | Once the counter has reached `retryAttempts`, the step is the same as for the request with no retry conditions. |
| Retrying.Run | CodyFire/Classes/APIRequest+ParseResponse.swift:20-127 | Over successive answers, each restart adds one to the counter, and the restarts never exceed `retryAttempts - counter`. Once more answers arrive than that budget, the run ends with no restart pending. |
| Retrying.RunCounterBounded | CodyFire/Classes/APIRequest+ParseResponse.swift:20-25 | A counter that starts at or below `retryAttempts` never passes it. |
| Retrying.PersistentRetryStatus | CodyFire/Classes/APIRequest+ParseResponse.swift:20-25 | A retried status restarts silently until the ceiling. The next such answer is then resolved as it would be with no retry condition. |
| Retrying.RepeatedTimeouts | CodyFire/Classes/APIRequest+ParseResponse.swift:114-127 | With timeout-only retry conditions and repeated timeouts, the request restarts until the ceiling. Every attempt delivers its own timeout notice. |

## Left out

- Alamofire's response, `HTTPURLResponse` and `NSError` are reduced to the `Answer` record. A transport timeout is an error with code -1001 (`NSURLErrorTimedOut`); the error domain is not checked, and the source does not check it either.
- Real timing and `DispatchQueue.main.asyncAfter`: only the decision between delayed and immediate delivery is modelled, and the delay. Durations are integer milliseconds, not `TimeInterval` doubles.
- `JSONDecoder`, `PrimitiveTypeDecoder`, `parseJSON` and `parseJSONAsArray` are not part of this model. They are oracle parameters.
- The status enumeration (`StatusCode.from(raw:)`, `StatusCode.from(_:)` and the raw values of `timedOut`, `requestTimeout`, `_timedOut`, `_undecodable`) is not part of this model. One classification function stands for both `from(raw:)` and `from(_:)`, and the named codes are parameters. Only `unauthorized` = 401 is fixed.
- `log` and `logError` are side effects that do not affect control flow, so they are left out.
- `start()` is represented only by the `restart` flag. The next transmission is modelled by the next answer fed to `Retrying.Run`.
- `parseError` itself is not part of this model. Its call is recorded as one event carrying its arguments.
- The force casts (`as!`) are replaced by the `Body` datatype. Header fields are carried as an opaque map.
- Global hooks and the global date strategy are read-only configuration, as the step reads them; their later mutation is not modelled.
- Callback registration during the latency delay: the deferred success closure reads the request's `successCallback`, `successCallbackExtended` and `flattenSuccessHandler`, and the global success hook, when it runs after the delay. The model fixes which of them are registered when the step runs, so registrations changed during the delay are not modelled.
