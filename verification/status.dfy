/** Status codes as the response step sees them, and the two retry tests it
    applies: one to a wire status and one to a connection timeout. */
module Status {

  /** A status code, compared by its raw integer value wherever the response
      step compares configured codes with the code on the wire. */
  datatype StatusCode = StatusCode(rawValue: int)

  /** HTTP 401, the only status the response step names by its raw value. */
  const Unauthorized: StatusCode := StatusCode(401)

  /** The library's classification of a wire code (`StatusCode.from`) and the
      named codes the response step refers to. Their definitions belong to the
      status enumeration, which is not part of this model, so they are
      parameters here. */
  datatype StatusTable = StatusTable(
    fromRaw: int -> StatusCode,
    timedOut: StatusCode,            // `StatusCode.timedOut`
    requestTimeout: StatusCode,      // `StatusCode.requestTimeout`
    connectionTimedOut: StatusCode,  // `._timedOut`, reported for a transport timeout
    undecodable: StatusCode)         // `._undecodable`, reported for a decode failure

  /** The wire code is one of the configured success codes, compared by raw value. */
  predicate IsSuccessCode(successCodes: seq<StatusCode>, code: int)
  {
    exists i :: 0 <= i < |successCodes| && successCodes[i].rawValue == code
  }

  /** Retry on a wire status: the classified status is a retry condition and
      the retry counter is still below the configured number of attempts. */
  predicate RetriesOnStatus(retryCondition: seq<StatusCode>, status: StatusCode, counter: nat, retryAttempts: int)
  {
    status in retryCondition && counter < retryAttempts
  }

  /** Every configured retry condition is one of the two timeout codes. This
      holds vacuously when no retry condition is configured. */
  predicate OnlyTimeoutConditions(table: StatusTable, retryCondition: seq<StatusCode>)
  {
    forall i :: 0 <= i < |retryCondition| ==>
      retryCondition[i] == table.timedOut || retryCondition[i] == table.requestTimeout
  }

  /** Retry after a connection timeout. */
  predicate RetriesOnTimeout(table: StatusTable, retryCondition: seq<StatusCode>, counter: nat, retryAttempts: int)
  {
    counter < retryAttempts && OnlyTimeoutConditions(table, retryCondition)
  }

  /** The timeout test asks whether the configured conditions form a SUBSET of
      the two timeout codes. */
  lemma TimeoutRetryIsSubsetTest(table: StatusTable, retryCondition: seq<StatusCode>, counter: nat, retryAttempts: int)
    ensures RetriesOnTimeout(table, retryCondition, counter, retryAttempts)
        <==> counter < retryAttempts
             && (set c | c in retryCondition) <= {table.timedOut, table.requestTimeout}
  {
    var conditions := set c | c in retryCondition;
    if OnlyTimeoutConditions(table, retryCondition) {
      forall c | c in conditions
        ensures c in {table.timedOut, table.requestTimeout}
      {
        var i :| 0 <= i < |retryCondition| && retryCondition[i] == c;
      }
    }
    if conditions <= {table.timedOut, table.requestTimeout} {
      forall i | 0 <= i < |retryCondition|
        ensures retryCondition[i] == table.timedOut || retryCondition[i] == table.requestTimeout
      {
        assert retryCondition[i] in conditions;
      }
    }
  }

  /** A single timeout condition is enough to retry timeouts: the two timeout
      codes are not both required. */
  lemma OneTimeoutConditionSuffices(table: StatusTable, counter: nat, retryAttempts: int)
    requires counter < retryAttempts
    ensures RetriesOnTimeout(table, [table.timedOut], counter, retryAttempts)
    ensures RetriesOnTimeout(table, [table.requestTimeout], counter, retryAttempts)
  {
  }

  /** With no retry condition at all, every timeout below the ceiling is retried. */
  lemma NoConditionRetriesTimeouts(table: StatusTable, counter: nat, retryAttempts: int)
    ensures RetriesOnTimeout(table, [], counter, retryAttempts) <==> counter < retryAttempts
  {
  }

  /** A retry condition that is not a timeout code turns timeout retries off,
      even when both timeout codes are configured as well. */
  lemma OtherConditionBlocksTimeoutRetry(table: StatusTable, other: StatusCode, counter: nat, retryAttempts: int)
    requires other != table.timedOut && other != table.requestTimeout
    ensures !RetriesOnTimeout(table, [table.timedOut, table.requestTimeout, other], counter, retryAttempts)
  {
    var rc := [table.timedOut, table.requestTimeout, other];
    assert !(rc[2] == table.timedOut || rc[2] == table.requestTimeout);
  }
}
