/** The relay client's request loop: which answers are retried, how often, and after what delay. */
module ClientRetry {
  import opened Wrappers
  import opened Backoff

  datatype RetryClass = Never | Safe | Deduplicated

  // `initial <= maximum` and `1 <= attempts <= 10` are checked when the client is built.
  datatype RetryConfig = RetryConfig(attempts: nat, initial: nat, maximum: nat)

  predicate ValidConfig(c: RetryConfig) {
    1 <= c.attempts <= 10 && c.initial <= c.maximum <= DURATION_MAX
  }

  datatype Decoded = Value | ApiError(retryable: bool) | TransportError(retryable: bool) | OtherError

  // What one attempt meets: no permit, a response, or an error before any response.
  datatype Answer = NoPermit | Response(status: nat, result: Decoded) | NoResponse(retryable: bool)

  // How the loop ends, naming the attempt (from zero) whose answer the caller sees.
  datatype Outcome = ClientBusy | Returned(attempt: nat) | RetryExhausted(attempts: nat, last: nat)

  function Attempts(c: RetryConfig, cls: RetryClass): nat {
    if cls == Never then 1 else c.attempts
  }

  // An answer that counts as retryable, and one after which another attempt is really made.
  predicate Retryable(a: Answer) {
    || (a.Response? && a.result.ApiError? && a.result.retryable)
    || (a.Response? && a.result.TransportError? && a.result.retryable)
    || (a.NoResponse? && a.retryable)
  }

  predicate TriedAgain(a: Answer) {
    Retryable(a) && (a.Response? && a.result.ApiError? ==> a.status == 429 || a.status == 503 || a.status == 500)
  }

  ghost function Expected(a: Answer, last: nat, attempts: nat): Outcome {
    if a.NoPermit? then ClientBusy
    else if last + 1 == attempts && attempts > 1 && Retryable(a) then RetryExhausted(attempts, last)
    else Returned(last)
  }

  // `execute_inner`.  The attempts made are the shortest prefix that ends in an answer that is not
  // tried again, cut at the bound; the sleeps between them are the iterated backoff.
  method Execute(config: RetryConfig, cls: RetryClass, answers: nat -> Answer)
    returns (outcome: Outcome, calls: nat, sleeps: seq<nat>)
    requires ValidConfig(config)
    ensures 1 <= calls <= if cls == Never then 1 else config.attempts
    ensures forall i :: 0 <= i < calls - 1 ==> TriedAgain(answers(i))
    ensures calls == Attempts(config, cls) || !TriedAgain(answers(calls - 1))
    ensures outcome == Expected(answers(calls - 1), calls - 1, Attempts(config, cls))
    ensures |sleeps| == calls - 1
    ensures forall i :: 0 <= i < |sleeps| ==> sleeps[i] == Iterated(config.initial, config.maximum, i)
  {
    var attempts := Attempts(config, cls);
    var backoff := config.initial;
    var attempt := 1;
    sleeps := [];
    while true
      invariant 1 <= attempt <= attempts && |sleeps| == attempt - 1
      invariant backoff == Iterated(config.initial, config.maximum, attempt - 1)
      invariant forall i :: 0 <= i < attempt - 1 ==> TriedAgain(answers(i))
      invariant forall i :: 0 <= i < |sleeps| ==> sleeps[i] == Iterated(config.initial, config.maximum, i)
      decreases attempts - attempt
    {
      var answer := answers(attempt - 1);
      calls := attempt;
      match answer {
        case NoPermit => return ClientBusy, calls, sleeps;
        case Response(status, result) =>
          var retryableApi := result.ApiError? && result.retryable;
          var retryable := retryableApi || (result.TransportError? && result.retryable);
          if retryable && attempt == attempts && attempts > 1 {
            return RetryExhausted(attempts, attempt - 1), calls, sleeps;
          }
          if !retryable || attempt == attempts {
            return Returned(attempt - 1), calls, sleeps;
          }
          if retryableApi && !(status == 429 || status == 503 || status == 500) {
            return Returned(attempt - 1), calls, sleeps;
          }
        case NoResponse(retryable) =>
          if attempt == attempts && attempts > 1 && retryable {
            return RetryExhausted(attempts, attempt - 1), calls, sleeps;
          }
          if attempt == attempts || !retryable {
            return Returned(attempt - 1), calls, sleeps;
          }
      }
      sleeps := sleeps + [backoff];
      backoff := Doubled(backoff, config.maximum);
      attempt := attempt + 1;
    }
  }
}
