/**
 * The bounded retry loop that wraps one prompt call in the summarize-email,
 * refine-draft and summarize-resume flows. The prompt is an oracle: the
 * caller supplies what it answers on each attempt, in order. Waiting is an
 * event in a trace, not a clock.
 */
module Retry {
  import opened Outcomes
  import Text

  /** At most this many prompt calls per invocation. */
  const MaxRetries: nat := 3
  /** The pause between a retryable failure and the next attempt. */
  const RetryDelayMs: nat := 2000

  /** What one invocation does, in order: a prompt call for attempt n, or a wait. */
  datatype Event = Call(attempt: nat) | Delay(ms: nat)

  /** How the catch block ends an invocation: throw the caught value as it is,
      or throw a new `Error` whose message is `prefix` and the caught text. */
  datatype FinalError = Rethrow | WrapWith(prefix: string)

  /** The per-flow parts of the loop: the final throw, and the message of the
      fallback throw after the loop. */
  datatype FlowConfig = FlowConfig(onFinal: FinalError, fallbackMessage: string)

  /** The result of an invocation together with what it did on the way. */
  datatype Run<T> = Run(result: Outcome<T>, trace: seq<Event>)

  /** The transient-failure test: the message contains "503", or its
      lower-cased form contains "overload" or "service unavailable". */
  predicate IsRetryableMessage(msg: string)
    ensures IsRetryableMessage(msg) <==>
      || (exists i :: Text.OccursAt(msg, "503", i))
      || (exists i :: Text.OccursAt(Text.Lower(msg), "overload", i))
      || (exists i :: Text.OccursAt(Text.Lower(msg), "service unavailable", i))
  {
    Text.Contains(msg, "503")
    || Text.Contains(Text.Lower(msg), "overload")
    || Text.Contains(Text.Lower(msg), "service unavailable")
  }

  /** The branch the catch block takes after attempt `attempt` answered `o`:
      wait and try again. */
  predicate RetriesAfter<T>(o: Outcome<T>, attempt: nat)
    ensures o.Success? ==> !RetriesAfter(o, attempt)
    ensures attempt >= MaxRetries ==> !RetriesAfter(o, attempt)
    ensures o.Failure? && attempt < MaxRetries ==>
      (RetriesAfter(o, attempt) <==> IsRetryableMessage(ErrorText(o.error)))
  {
    o.Failure? && IsRetryableMessage(ErrorText(o.error)) && attempt < MaxRetries
  }

  /** The value thrown when the catch block gives up on `e`. */
  function FinalThrow(onFinal: FinalError, e: Thrown): (t: Thrown)
    ensures onFinal.Rethrow? ==> t == e
    ensures onFinal.WrapWith? ==>
      && t.ErrorObject?
      && onFinal.prefix <= t.message
      && t.message[|onFinal.prefix|..] == ErrorText(e)
  {
    match onFinal
    case Rethrow => e
    case WrapWith(prefix) => ErrorObject(prefix + ErrorText(e))
  }

  /** How an invocation ends on an attempt that is not retried: a success is
      returned as it is, a failure goes through the final throw. */
  function Settle<T>(o: Outcome<T>, onFinal: FinalError): (r: Outcome<T>)
    ensures o.Success? <==> r.Success?
    ensures o.Success? ==> r.output == o.output
  {
    match o
    case Success(x) => Success(x)
    case Failure(e) => Failure(FinalThrow(onFinal, e))
  }

  /** The first 0-based attempt at or after `i` that is not retried. */
  function StopFrom<T>(outcomes: seq<Outcome<T>>, i: nat): (k: nat)
    requires |outcomes| >= MaxRetries && i < MaxRetries
    ensures i <= k < MaxRetries
    ensures forall j :: i <= j < k ==> RetriesAfter(outcomes[j], j + 1)
    ensures !RetriesAfter(outcomes[k], k + 1)
    decreases MaxRetries - i
  {
    if RetriesAfter(outcomes[i], i + 1) then StopFrom(outcomes, i + 1) else i
  }

  /** The 0-based index of the attempt that ends the invocation. */
  function StopIndex<T>(outcomes: seq<Outcome<T>>): (k: nat)
    requires |outcomes| >= MaxRetries
    ensures k < MaxRetries
  {
    StopFrom(outcomes, 0)
  }

  /** The events of an invocation that ends on 0-based attempt `k`:
      call 1, wait, call 2, ..., call k + 1. */
  function AttemptTrace(k: nat): (r: seq<Event>)
  {
    if k == 0 then [Call(1)] else AttemptTrace(k - 1) + [Delay(RetryDelayMs), Call(k + 1)]
  }

  /** What an invocation does when the prompt answers `outcomes`. */
  function Expected<T>(outcomes: seq<Outcome<T>>, config: FlowConfig): (r: Run<T>)
    requires |outcomes| >= MaxRetries
  {
    var k := StopIndex(outcomes);
    Run(Settle(outcomes[k], config.onFinal), AttemptTrace(k))
  }

  /** The loop of the three flows: attempt 1, 2, 3; return the first success;
      on a failure either wait and go on, or give up with the final throw. */
  method RunWithRetry<T>(outcomes: seq<Outcome<T>>, config: FlowConfig)
    returns (result: Outcome<T>, trace: seq<Event>)
    requires |outcomes| >= MaxRetries
    ensures Run(result, trace) == Expected(outcomes, config)
  {
    trace := [];
    var attempt := 1;
    while attempt <= MaxRetries
      invariant 1 <= attempt <= MaxRetries
      invariant forall j :: 0 <= j < attempt - 1 ==> RetriesAfter(outcomes[j], j + 1)
      invariant trace == if attempt == 1 then [] else AttemptTrace(attempt - 2) + [Delay(RetryDelayMs)]
    {
      trace := trace + [Call(attempt)];
      match outcomes[attempt - 1] {
        case Success(output) =>
          result := Success(output);
          assert StopIndex(outcomes) == attempt - 1;
          return;
        case Failure(error) =>
          var errorMessage := ErrorText(error);
          if IsRetryableMessage(errorMessage) && attempt < MaxRetries {
            trace := trace + [Delay(RetryDelayMs)];
          } else {
            result := Failure(FinalThrow(config.onFinal, error));
            assert StopIndex(outcomes) == attempt - 1;
            return;
          }
      }
      attempt := attempt + 1;
    }
    // The loop only exits through a return: the last attempt never retries.
    assert false;
    result := Failure(ErrorObject(config.fallbackMessage));
  }

  function CountCalls(trace: seq<Event>): (r: nat)
  {
    if trace == [] then 0 else CountCalls(trace[..|trace| - 1]) + (if trace[|trace| - 1].Call? then 1 else 0)
  }

  function CountDelays(trace: seq<Event>): (r: nat)
  {
    if trace == [] then 0 else CountDelays(trace[..|trace| - 1]) + (if trace[|trace| - 1].Delay? then 1 else 0)
  }

  /** An invocation ending on 0-based attempt `k` calls the prompt k + 1
      times and waits k times: one wait between consecutive calls. */
  lemma {:induction false} AttemptTraceCounts(k: nat)
    ensures CountCalls(AttemptTrace(k)) == k + 1
    ensures CountDelays(AttemptTrace(k)) == k
  {
    if k > 0 {
      AttemptTraceCounts(k - 1);
      var t := AttemptTrace(k);
      assert t[..|t| - 1] == AttemptTrace(k - 1) + [Delay(RetryDelayMs)];
      assert t[..|t| - 1][..|t| - 2] == AttemptTrace(k - 1);
    }
  }

  /** Calls and waits alternate: the calls are attempts 1, 2, ... in order and
      every wait is the fixed 2000 ms; the trace ends with a call. */
  lemma {:induction false} AttemptTraceShape(k: nat)
    ensures |AttemptTrace(k)| == 2 * k + 1
    ensures forall j :: 0 <= j <= k ==> AttemptTrace(k)[2 * j] == Call(j + 1)
    ensures forall j :: 0 <= j < k ==> AttemptTrace(k)[2 * j + 1] == Delay(RetryDelayMs)
  {
    if k > 0 {
      AttemptTraceShape(k - 1);
    }
  }

  /** Every invocation calls the prompt at least once and at most three times,
      and waits exactly one time fewer than it calls. */
  lemma CallBounds<T>(outcomes: seq<Outcome<T>>, config: FlowConfig)
    requires |outcomes| >= MaxRetries
    ensures var t := Expected(outcomes, config).trace;
      1 <= CountCalls(t) <= MaxRetries && CountDelays(t) == CountCalls(t) - 1
  {
    AttemptTraceCounts(StopIndex(outcomes));
  }

  /** The invocation ends on attempt n + 1 exactly when attempts 1..n each
      failed retryably and attempt n + 1 is not retried. */
  lemma StopIndexIff<T>(outcomes: seq<Outcome<T>>, n: nat)
    requires |outcomes| >= MaxRetries && n < MaxRetries
    ensures StopIndex(outcomes) == n <==>
      (forall j :: 0 <= j < n ==> RetriesAfter(outcomes[j], j + 1)) && !RetriesAfter(outcomes[n], n + 1)
  {
  }

  /** A success on attempt n + 1, after n retryable failures, is returned
      unchanged and the prompt is not called again. */
  lemma SuccessEndsInvocation<T>(outcomes: seq<Outcome<T>>, config: FlowConfig, n: nat)
    requires |outcomes| >= MaxRetries && n < MaxRetries
    requires forall j :: 0 <= j < n ==> RetriesAfter(outcomes[j], j + 1)
    requires outcomes[n].Success?
    ensures Expected(outcomes, config).result == Success(outcomes[n].output)
    ensures CountCalls(Expected(outcomes, config).trace) == n + 1
    ensures Expected(outcomes, config).trace[|Expected(outcomes, config).trace| - 1] == Call(n + 1)
  {
    StopIndexIff(outcomes, n);
    AttemptTraceCounts(n);
    AttemptTraceShape(n);
  }

  /** A failure that does not match the transient test ends the invocation on
      the attempt it happens, whatever the attempt number. */
  lemma FatalFailureEndsInvocation<T>(outcomes: seq<Outcome<T>>, config: FlowConfig, n: nat)
    requires |outcomes| >= MaxRetries && n < MaxRetries
    requires forall j :: 0 <= j < n ==> RetriesAfter(outcomes[j], j + 1)
    requires outcomes[n].Failure? && !IsRetryableMessage(ErrorText(outcomes[n].error))
    ensures Expected(outcomes, config).result == Failure(FinalThrow(config.onFinal, outcomes[n].error))
    ensures Expected(outcomes, config).trace == AttemptTrace(n)
  {
    StopIndexIff(outcomes, n);
  }

  /** A non-matching failure on the first attempt: one call, no wait. */
  lemma FatalFirstAttempt<T>(outcomes: seq<Outcome<T>>, config: FlowConfig)
    requires |outcomes| >= MaxRetries
    requires outcomes[0].Failure? && !IsRetryableMessage(ErrorText(outcomes[0].error))
    ensures Expected(outcomes, config) == Run(Failure(FinalThrow(config.onFinal, outcomes[0].error)), [Call(1)])
  {
    FatalFailureEndsInvocation(outcomes, config, 0);
  }

  /** Three transient failures in a row: three calls, two waits, and the third
      failure goes through the final throw. */
  lemma ThreeTransientFailures<T>(outcomes: seq<Outcome<T>>, config: FlowConfig)
    requires |outcomes| >= MaxRetries
    requires forall j :: 0 <= j < 3 ==> outcomes[j].Failure? && IsRetryableMessage(ErrorText(outcomes[j].error))
    ensures Expected(outcomes, config) ==
      Run(Failure(FinalThrow(config.onFinal, outcomes[2].error)),
          [Call(1), Delay(2000), Call(2), Delay(2000), Call(3)])
  {
    StopIndexIff(outcomes, 2);
  }

  /** A transient failure followed by a success: the success is returned after
      exactly one wait. */
  lemma TransientThenSuccess<T>(outcomes: seq<Outcome<T>>, config: FlowConfig)
    requires |outcomes| >= MaxRetries
    requires outcomes[0].Failure? && IsRetryableMessage(ErrorText(outcomes[0].error))
    requires outcomes[1].Success?
    ensures Expected(outcomes, config) ==
      Run(Success(outcomes[1].output), [Call(1), Delay(2000), Call(2)])
  {
    StopIndexIff(outcomes, 1);
  }

  /** The test is case-insensitive as a whole: "503" has no letters, so
      lower-casing the message before looking for it changes nothing. */
  lemma RetryableIgnoresCase(msg: string)
    ensures IsRetryableMessage(msg) <==> IsRetryableMessage(Text.Lower(msg))
  {
    Text.DigitsSurviveLowering(msg);
    Text.LowerIdempotent(msg);
  }
}
