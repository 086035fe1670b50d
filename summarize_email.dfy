/** The summarize-email flow: the retry loop, with the final error rethrown
    as it was caught. */
module SummarizeEmail {
  import opened Outcomes
  import Retry

  datatype SummarizeEmailOutput = SummarizeEmailOutput(summary: string)

  const Config := Retry.FlowConfig(Retry.Rethrow, "Failed to summarize email after multiple retries.")

  /** `summarizeEmailFlow`: `answers[i]` is what the prompt does on attempt i + 1. */
  method SummarizeEmailFlow(answers: seq<Outcome<SummarizeEmailOutput>>)
    returns (result: Outcome<SummarizeEmailOutput>, trace: seq<Retry.Event>)
    requires |answers| >= Retry.MaxRetries
    ensures Retry.Run(result, trace) == Retry.Expected(answers, Config)
    ensures result.Failure? ==> answers[Retry.StopIndex(answers)] == Failure(result.error)
    ensures result.Success? ==> answers[Retry.StopIndex(answers)] == result
  {
    result, trace := Retry.RunWithRetry(answers, Config);
  }

  /** A failure the flow gives up on is thrown as it was caught, and it is
      the failure of the last attempt made. */
  lemma {:induction false} RethrowsLastError(answers: seq<Outcome<SummarizeEmailOutput>>)
    requires |answers| >= Retry.MaxRetries
    ensures var run := Retry.Expected(answers, Config);
      run.result.Failure? ==>
        answers[|run.trace| / 2] == Failure(run.result.error)
  {
    Retry.AttemptTraceShape(Retry.StopIndex(answers));
  }

  /** A non-matching failure on attempt 1 is rethrown after exactly one call
      and no wait. */
  lemma NonRetryableFirstFailure(answers: seq<Outcome<SummarizeEmailOutput>>)
    requires |answers| >= Retry.MaxRetries
    requires answers[0].Failure? && !Retry.IsRetryableMessage(ErrorText(answers[0].error))
    ensures Retry.Expected(answers, Config) == Retry.Run(answers[0], [Retry.Call(1)])
  {
    Retry.FatalFirstAttempt(answers, Config);
  }

  /** Three transient failures: three calls, two waits, the third error rethrown. */
  lemma ThreeRetryableFailures(answers: seq<Outcome<SummarizeEmailOutput>>)
    requires |answers| >= Retry.MaxRetries
    requires forall j :: 0 <= j < 3 ==> answers[j].Failure? && Retry.IsRetryableMessage(ErrorText(answers[j].error))
    ensures Retry.Expected(answers, Config).result == answers[2]
    ensures Retry.CountCalls(Retry.Expected(answers, Config).trace) == 3
    ensures Retry.CountDelays(Retry.Expected(answers, Config).trace) == 2
  {
    Retry.ThreeTransientFailures(answers, Config);
    Retry.AttemptTraceCounts(2);
  }
}
