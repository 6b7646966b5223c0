/** Successive attempts of one request. Each restart of the response step
    starts the request again, and the next transmission's answer is fed back
    into the step with the raised counter. */
module Retrying {
  import opened Basics
  import opened Status
  import opened Dispatch
  import opened ResponseProperties

  /** One transmission: its answer and whether the request was cancelled by
      the time the answer arrived. */
  datatype Attempt = Attempt(cancelled: bool, answer: Answer)

  /** The deliveries of the attempts processed, the final counter, the number
      of restarts, and whether the last step restarted the request and so
      still waits for another answer. */
  datatype RunResult<V> = RunResult(deliveries: seq<Delivery<V>>, counter: nat, restarts: nat, pending: bool)

  /** How many more restarts the retry ceiling allows. */
  function RetryBudget(retryAttempts: int, counter: nat): nat
  {
    if counter < retryAttempts then retryAttempts - counter else 0
  }

  /** Feeds the answers, in order, to the response step for as long as it
      keeps restarting the request. The counter grows by one per restart,
      the restarts never exceed the budget, and once more answers are
      available than the budget, the run ends without a pending restart. */
  function Run<V, D>(env: Env<V, D>, req: Request<D>, attempts: seq<Attempt>, counter: nat): (r: RunResult<V>)
    ensures r.counter == counter + r.restarts
    ensures r.restarts <= RetryBudget(req.retryAttempts, counter)
    ensures |r.deliveries| == r.restarts + (if r.pending then 0 else 1)
    ensures |attempts| > RetryBudget(req.retryAttempts, counter) ==> !r.pending
    decreases |attempts|
  {
    if attempts == [] then
      RunResult([], counter, 0, true)
    else
      var step := ParseResponse(env, req, attempts[0].cancelled, attempts[0].answer, counter);
      if step.restart then
        var rest := Run(env, req, attempts[1..], step.counter);
        RunResult([step.delivery] + rest.deliveries, rest.counter, rest.restarts + 1, rest.pending)
      else
        RunResult([step.delivery], step.counter, 0, false)
  }

  /** The counter never passes the ceiling it started below. */
  lemma RunCounterBounded<V, D>(env: Env<V, D>, req: Request<D>, attempts: seq<Attempt>, counter: nat)
    requires counter <= req.retryAttempts
    ensures Run(env, req, attempts, counter).counter <= req.retryAttempts
  {
  }

  /** An answer the step restarts on. */
  predicate RetriedStatus<D>(table: StatusTable, req: Request<D>, a: Attempt)
  {
    !a.cancelled && a.answer.response.Some?
    && table.fromRaw(a.answer.response.value.statusCode) in req.retryCondition
  }

  /** A status the request retries on keeps being retried, silently, until
      the counter reaches the ceiling; the next such answer is then resolved
      as if no retry condition were configured. */
  lemma {:induction false} PersistentRetryStatus<V, D>(env: Env<V, D>, req: Request<D>, attempts: seq<Attempt>, counter: nat)
    requires forall i :: 0 <= i < |attempts| ==> RetriedStatus(env.table, req, attempts[i])
    requires |attempts| > RetryBudget(req.retryAttempts, counter)
    ensures var r := Run(env, req, attempts, counter);
            var n := RetryBudget(req.retryAttempts, counter);
            && r.restarts == n
            && (forall k :: 0 <= k < n ==> r.deliveries[k] == Immediate([]))
            && r.deliveries[n] == ParseResponse(env, req.(retryCondition := []), false, attempts[n].answer, counter + n).delivery
    decreases |attempts|
  {
    var a := attempts[0];
    var n := RetryBudget(req.retryAttempts, counter);
    if counter < req.retryAttempts {
      var rest := attempts[1..];
      forall i | 0 <= i < |rest|
        ensures RetriedStatus(env.table, req, rest[i])
      {
        assert rest[i] == attempts[i + 1];
      }
      PersistentRetryStatus(env, req, rest, counter + 1);
      assert rest[n - 1] == attempts[n];
    } else {
      ExhaustedRetriesIgnoreRetryCondition(env, req, false, a.answer, counter);
    }
  }

  /** An answer that timed out, in a request not cancelled. */
  predicate TimedOutAttempt(a: Attempt)
  {
    !a.cancelled && a.answer.response.None? && IsTimeout(a.answer)
  }

  /** When every retry condition is a timeout code and every answer times
      out, the request restarts until the ceiling, and EVERY attempt,
      the restarted ones included, delivers its timeout notice. */
  lemma {:induction false} RepeatedTimeouts<V, D>(env: Env<V, D>, req: Request<D>, attempts: seq<Attempt>, counter: nat)
    requires OnlyTimeoutConditions(env.table, req.retryCondition)
    requires forall i :: 0 <= i < |attempts| ==> TimedOutAttempt(attempts[i])
    requires |attempts| > RetryBudget(req.retryAttempts, counter)
    ensures var r := Run(env, req, attempts, counter);
            && r.restarts == RetryBudget(req.retryAttempts, counter)
            && !r.pending
            && forall k :: 0 <= k < |r.deliveries| ==>
                 r.deliveries[k] == Immediate([TimeoutNotice(env, req, attempts[k].answer)])
    decreases |attempts|
  {
    if counter < req.retryAttempts {
      var rest := attempts[1..];
      forall i | 0 <= i < |rest|
        ensures TimedOutAttempt(rest[i])
      {
        assert rest[i] == attempts[i + 1];
      }
      RepeatedTimeouts(env, req, rest, counter + 1);
      var r := Run(env, req, attempts, counter);
      var tail := Run(env, req, rest, counter + 1);
      forall k | 1 <= k < |r.deliveries|
        ensures r.deliveries[k] == Immediate([TimeoutNotice(env, req, attempts[k].answer)])
      {
        assert r.deliveries[k] == tail.deliveries[k - 1];
        assert rest[k - 1] == attempts[k];
      }
    }
  }
}
