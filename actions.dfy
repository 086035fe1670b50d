/**
 * The server actions behind the main form: schema checks on the submitted
 * fields, one call downstream, and a result object that carries either an
 * error message or the result.
 */
module Actions {
  import opened Outcomes
  import Text
  import ReplySuggestions

  /** The modes `PrimaryContentSchema` accepts. "rewriteMessage" is not one of
      them, and "applyToJob" is, although the flow it forwards to rejects it. */
  const ActionModes: set<string> := {"reply", "jobPosting", "casualMessage", "applyToJob"}

  const PrimaryContentMin: nat := 10
  const DraftMin: nat := 5
  const ReceivedEmailMin: nat := 10
  const ReplyMin: nat := 5

  const PrimaryContentTooShort := "Input content must be at least 10 characters long."
  const InvalidMode := "Invalid mode selected."
  const DraftTooShort := "Draft must be at least 5 characters long."
  /** zod's default messages for `.min(10)` and `.min(5)` on a string. */
  const ReceivedEmailTooShort := "String must contain at least 10 character(s)"
  const ReplyTooShort := "String must contain at least 5 character(s)"

  /** `issues[0]?.message || ""`: only the first issue is reported. */
  function FirstIssue(issues: seq<string>): (m: string)
    ensures |issues| > 0 ==> m == issues[0]
    ensures |issues| == 0 ==> m == ""
  {
    if |issues| > 0 then issues[0] else ""
  }

  /** The issues `PrimaryContentSchema` reports, in field order. Lengths are
      JavaScript's `length`, in UTF-16 code units. */
  function PrimaryContentIssues(primaryContent: string, selectedMode: string): (issues: seq<string>)
    ensures issues == [] <==> Text.JsLength(primaryContent) >= PrimaryContentMin && selectedMode in ActionModes
  {
    (if Text.JsLength(primaryContent) < PrimaryContentMin then [PrimaryContentTooShort] else [])
    + (if selectedMode !in ActionModes then [InvalidMode] else [])
  }

  datatype GenerateRepliesState = GenerateRepliesState(error: Option<string>, suggestions: seq<string>)

  /** The returned state and the input the flow was called with, if it was. */
  datatype GenerateRepliesRun = GenerateRepliesRun(
    state: GenerateRepliesState,
    flowCall: Option<ReplySuggestions.RawFlowInput>)

  /** `generateRepliesAction`: `schemaError` and `answer` stand for what the
      flow's input check and its prompt do. */
  function GenerateRepliesAction(
    primaryContent: string, selectedMode: string,
    schemaError: Thrown, answer: Outcome<ReplySuggestions.Output>): (r: GenerateRepliesRun)
    ensures r.flowCall.Some? <==> PrimaryContentIssues(primaryContent, selectedMode) == []
    ensures r.flowCall.Some? ==> r.flowCall.value == ReplySuggestions.RawFlowInput(primaryContent, selectedMode)
    ensures r.state.error.Some? ==> r.state.suggestions == []
    ensures r.state.error.None? ==>
      && r.flowCall.Some?
      && ReplySuggestions.GenerateReplySuggestions(r.flowCall.value, schemaError, answer).result
           == Success(ReplySuggestions.Output(r.state.suggestions))
  {
    var issues := PrimaryContentIssues(primaryContent, selectedMode);
    if issues != [] then
      GenerateRepliesRun(GenerateRepliesState(Some("Invalid input. " + FirstIssue(issues)), []), None)
    else
      var input := ReplySuggestions.RawFlowInput(primaryContent, selectedMode);
      var flow := ReplySuggestions.GenerateReplySuggestions(input, schemaError, answer);
      match flow.result
      case Success(output) =>
        GenerateRepliesRun(GenerateRepliesState(None, output.suggestions), Some(input))
      case Failure(e) =>
        GenerateRepliesRun(
          GenerateRepliesState(Some("Failed to generate suggestions: " + ErrorText(e) + ". Please try again."), []),
          Some(input))
  }

  /** Content shorter than 10 characters is rejected before any call, with an
      error that starts "Invalid input. " and no suggestions. */
  lemma ShortContentRejected(primaryContent: string, selectedMode: string, schemaError: Thrown, answer: Outcome<ReplySuggestions.Output>)
    requires Text.JsLength(primaryContent) < PrimaryContentMin
    ensures var r := GenerateRepliesAction(primaryContent, selectedMode, schemaError, answer);
      && r.flowCall.None?
      && r.state == GenerateRepliesState(Some("Invalid input. " + PrimaryContentTooShort), [])
  {
  }

  /** A mode outside the action's enum, such as "rewriteMessage", is rejected
      with "Invalid mode selected." when the content is long enough. */
  lemma UnknownModeRejected(primaryContent: string, selectedMode: string, schemaError: Thrown, answer: Outcome<ReplySuggestions.Output>)
    requires Text.JsLength(primaryContent) >= PrimaryContentMin && selectedMode !in ActionModes
    ensures var r := GenerateRepliesAction(primaryContent, selectedMode, schemaError, answer);
      && r.flowCall.None?
      && r.state == GenerateRepliesState(Some("Invalid input. " + InvalidMode), [])
  {
  }

  /** When both fields are bad only the content's message is reported. */
  lemma OnlyFirstIssueReported(primaryContent: string, selectedMode: string, schemaError: Thrown, answer: Outcome<ReplySuggestions.Output>)
    requires Text.JsLength(primaryContent) < PrimaryContentMin && selectedMode !in ActionModes
    ensures |PrimaryContentIssues(primaryContent, selectedMode)| == 2
    ensures GenerateRepliesAction(primaryContent, selectedMode, schemaError, answer).state.error
      == Some("Invalid input. " + PrimaryContentTooShort)
  {
  }

  /** "applyToJob" passes the action's check and is then rejected by the
      flow's own enum, whatever the prompt would have answered. */
  lemma ApplyToJobAlwaysFails(primaryContent: string, schemaError: Thrown, answer: Outcome<ReplySuggestions.Output>)
    requires Text.JsLength(primaryContent) >= PrimaryContentMin
    ensures var r := GenerateRepliesAction(primaryContent, "applyToJob", schemaError, answer);
      && r.flowCall.Some?
      && r.state == GenerateRepliesState(
           Some("Failed to generate suggestions: " + ErrorText(schemaError) + ". Please try again."), [])
  {
  }

  /** For a mode both enums accept, the prompt's suggestions come back as
      they are, or its failure as a message. */
  lemma FlowModesPassThrough(primaryContent: string, mode: ReplySuggestions.FlowMode, schemaError: Thrown, answer: Outcome<ReplySuggestions.Output>)
    requires Text.JsLength(primaryContent) >= PrimaryContentMin
    ensures var r := GenerateRepliesAction(primaryContent, ReplySuggestions.FlowModeName(mode), schemaError, answer);
      && (answer.Success? ==> r.state == GenerateRepliesState(None, answer.output.suggestions))
      && (answer.Failure? ==> r.state == GenerateRepliesState(
           Some("Failed to generate suggestions: " + ErrorText(answer.error) + ". Please try again."), []))
  {
  }

  datatype ImproveDraftState = ImproveDraftState(error: Option<string>, refinedDraft: Option<string>)

  datatype ImprovedDraft = ImprovedDraft(refinedDraft: string)

  /** `improveDraftAction`: `answer` stands for the draft-improvement flow. The
      returned `called` says whether that flow was invoked. */
  function ImproveDraftAction(draft: string, answer: Outcome<ImprovedDraft>): (r: (ImproveDraftState, bool))
    ensures r.1 <==> Text.JsLength(draft) >= DraftMin
    ensures r.0.error.Some? <==> r.0.refinedDraft.None?
    ensures r.0.refinedDraft.Some? ==> answer.Success? && r.0.refinedDraft.value == answer.output.refinedDraft && r.1
    ensures Text.JsLength(draft) < DraftMin ==> r.0.error == Some("Invalid draft content. " + DraftTooShort)
    ensures Text.JsLength(draft) >= DraftMin && answer.Success? ==>
      r.0 == ImproveDraftState(None, Some(answer.output.refinedDraft))
    ensures Text.JsLength(draft) >= DraftMin && answer.Failure? ==>
      r.0 == ImproveDraftState(Some("Failed to improve draft: " + ErrorText(answer.error) + ". Please try again."), None)
  {
    if Text.JsLength(draft) < DraftMin then
      (ImproveDraftState(Some("Invalid draft content. " + FirstIssue([DraftTooShort])), None), false)
    else
      match answer
      case Success(out) => (ImproveDraftState(None, Some(out.refinedDraft)), true)
      case Failure(e) =>
        (ImproveDraftState(Some("Failed to improve draft: " + ErrorText(e) + ". Please try again."), None), true)
  }

  datatype SaveInteractionState = SaveInteractionState(error: Option<string>, success: bool)

  /** `saveInteractionAction`: validation only; the "save" is a log line, so
      valid input always succeeds. */
  function SaveInteractionAction(receivedEmail: string, reply: string): (r: SaveInteractionState)
    ensures r.success <==> Text.JsLength(receivedEmail) >= ReceivedEmailMin && Text.JsLength(reply) >= ReplyMin
    ensures r.success <==> r.error.None?
    ensures Text.JsLength(receivedEmail) < ReceivedEmailMin ==> r.error == Some("Invalid data for saving. " + ReceivedEmailTooShort)
    ensures Text.JsLength(receivedEmail) >= ReceivedEmailMin && Text.JsLength(reply) < ReplyMin ==> r.error == Some("Invalid data for saving. " + ReplyTooShort)
  {
    var issues := (if Text.JsLength(receivedEmail) < ReceivedEmailMin then [ReceivedEmailTooShort] else [])
      + (if Text.JsLength(reply) < ReplyMin then [ReplyTooShort] else []);
    if issues != [] then SaveInteractionState(Some("Invalid data for saving. " + FirstIssue(issues)), false)
    else SaveInteractionState(None, true)
  }

  /** Five characters outside the Basic Multilingual Plane are ten code
      units, so they meet the ten-character minimum. */
  lemma AstralContentAccepted(selectedMode: string)
    requires selectedMode in ActionModes
    ensures |"\U{1F600}\U{1F600}\U{1F600}\U{1F600}\U{1F600}"| == 5
    ensures PrimaryContentIssues("\U{1F600}\U{1F600}\U{1F600}\U{1F600}\U{1F600}", selectedMode) == []
  {
    var c := "\U{1F600}";
    assert Text.JsLength(c) == 2;
    Text.JsLengthAppend(c, c);
    Text.JsLengthAppend(c + c, c);
    Text.JsLengthAppend(c + c + c, c);
    Text.JsLengthAppend(c + c + c + c, c);
    assert c + c + c + c + c == "\U{1F600}\U{1F600}\U{1F600}\U{1F600}\U{1F600}";
  }
}
