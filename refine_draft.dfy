/** The refine-draft-with-instruction flow: the retry loop, with the final
    error rethrown as it was caught. */
module RefineDraft {
  import opened Outcomes
  import Retry

  datatype RefineDraftOutput = RefineDraftOutput(refinedDraft: string)

  const Config := Retry.FlowConfig(Retry.Rethrow, "Failed to refine draft with instruction after multiple retries.")

  /** `refineDraftWithInstructionFlow`: `answers[i]` is what the prompt does on
      attempt i + 1. */
  method RefineDraftWithInstructionFlow(answers: seq<Outcome<RefineDraftOutput>>)
    returns (result: Outcome<RefineDraftOutput>, trace: seq<Retry.Event>)
    requires |answers| >= Retry.MaxRetries
    ensures Retry.Run(result, trace) == Retry.Expected(answers, Config)
    ensures result == answers[Retry.StopIndex(answers)]
    ensures |trace| <= 2 * Retry.MaxRetries - 1
  {
    result, trace := Retry.RunWithRetry(answers, Config);
    Retry.AttemptTraceShape(Retry.StopIndex(answers));
  }

  /** A transient failure and then a success: the success after one wait. */
  lemma RetryThenSuccess(answers: seq<Outcome<RefineDraftOutput>>)
    requires |answers| >= Retry.MaxRetries
    requires answers[0].Failure? && Retry.IsRetryableMessage(ErrorText(answers[0].error))
    requires answers[1].Success?
    ensures Retry.Expected(answers, Config).result == answers[1]
    ensures Retry.CountDelays(Retry.Expected(answers, Config).trace) == 1
    ensures Retry.CountCalls(Retry.Expected(answers, Config).trace) == 2
  {
    Retry.TransientThenSuccess(answers, Config);
    Retry.AttemptTraceCounts(1);
  }

  /** A failure that does not match the transient test is rethrown unchanged
      on the attempt where it first happens. */
  lemma NonMatchingRethrown(answers: seq<Outcome<RefineDraftOutput>>, n: nat)
    requires |answers| >= Retry.MaxRetries && n < Retry.MaxRetries
    requires forall j :: 0 <= j < n ==> Retry.RetriesAfter(answers[j], j + 1)
    requires answers[n].Failure? && !Retry.IsRetryableMessage(ErrorText(answers[n].error))
    ensures Retry.Expected(answers, Config).result == answers[n]
    ensures Retry.CountCalls(Retry.Expected(answers, Config).trace) == n + 1
  {
    Retry.FatalFailureEndsInvocation(answers, Config, n);
    Retry.AttemptTraceCounts(n);
  }
}
