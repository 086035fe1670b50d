/** The summarize-resume flow: the retry loop, with the final error wrapped
    in a new `Error` that names the operation. */
module SummarizeResume {
  import opened Outcomes
  import Retry

  datatype SummarizeResumeOutput = SummarizeResumeOutput(summary: string)

  const FailurePrefix := "Failed to summarize resume: "

  const Config := Retry.FlowConfig(Retry.WrapWith(FailurePrefix), "Failed to summarize resume after multiple retries.")

  /** `resummarizerFlow`: `answers[i]` is what the prompt does on attempt i + 1. */
  method ResummarizerFlow(answers: seq<Outcome<SummarizeResumeOutput>>)
    returns (result: Outcome<SummarizeResumeOutput>, trace: seq<Retry.Event>)
    requires |answers| >= Retry.MaxRetries
    ensures Retry.Run(result, trace) == Retry.Expected(answers, Config)
    ensures result.Success? ==> result == answers[Retry.StopIndex(answers)]
    ensures result.Failure? ==>
      answers[Retry.StopIndex(answers)].Failure? &&
      result.error == ErrorObject(FailurePrefix + ErrorText(answers[Retry.StopIndex(answers)].error))
  {
    result, trace := Retry.RunWithRetry(answers, Config);
  }

  /** The terminal failure is always an `Error` whose message is the prefix
      followed by the text of the last failure: an `Error`'s message, or
      `String(value)` for anything else thrown. */
  lemma TerminalMessage(answers: seq<Outcome<SummarizeResumeOutput>>)
    requires |answers| >= Retry.MaxRetries
    ensures var r := Retry.Expected(answers, Config).result;
      r.Failure? ==>
        && r.error.ErrorObject?
        && FailurePrefix <= r.error.message
        && r.error.message[|FailurePrefix|..] == ErrorText(answers[Retry.StopIndex(answers)].error)
  {
  }

  /** A non-retryable failure on attempt 1 ends the flow after one call, with
      the wrapped message. */
  lemma NonRetryableWrapped(answers: seq<Outcome<SummarizeResumeOutput>>)
    requires |answers| >= Retry.MaxRetries
    requires answers[0].Failure? && !Retry.IsRetryableMessage(ErrorText(answers[0].error))
    ensures Retry.Expected(answers, Config) ==
      Retry.Run(Failure(ErrorObject(FailurePrefix + ErrorText(answers[0].error))), [Retry.Call(1)])
  {
    Retry.FatalFirstAttempt(answers, Config);
  }

  /** At most three calls and at most two waits. */
  lemma CallAndDelayBounds(answers: seq<Outcome<SummarizeResumeOutput>>)
    requires |answers| >= Retry.MaxRetries
    ensures Retry.CountCalls(Retry.Expected(answers, Config).trace) <= 3
    ensures Retry.CountDelays(Retry.Expected(answers, Config).trace) <= 2
  {
    Retry.CallBounds(answers, Config);
  }
}
