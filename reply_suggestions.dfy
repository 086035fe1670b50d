/**
 * The generate-reply-suggestions flow: the input schema's mode enum, the
 * prompt payload with one boolean flag per mode, the template's if/else-if
 * chain over those flags, and the pass-through of the prompt's output.
 * There is no retry here: a prompt failure propagates.
 */
module ReplySuggestions {
  import opened Outcomes

  /** The modes the flow's input schema accepts. */
  datatype FlowMode = Reply | JobPosting | CasualMessage

  function FlowModeName(m: FlowMode): (r: string)
  {
    match m
    case Reply => "reply"
    case JobPosting => "jobPosting"
    case CasualMessage => "casualMessage"
  }

  /** The schema's `z.enum(['reply', 'jobPosting', 'casualMessage'])`. */
  function ParseFlowMode(s: string): (r: Option<FlowMode>)
    ensures r.Some? <==> s in {"reply", "jobPosting", "casualMessage"}
    ensures r.Some? ==> FlowModeName(r.value) == s
  {
    if s == "reply" then Some(Reply)
    else if s == "jobPosting" then Some(JobPosting)
    else if s == "casualMessage" then Some(CasualMessage)
    else None
  }

  lemma FlowModeRoundTrip(m: FlowMode)
    ensures ParseFlowMode(FlowModeName(m)) == Some(m)
  {
  }

  /** The caller's input as it arrives, before the schema checks the mode. */
  datatype RawFlowInput = RawFlowInput(emailContent: string, selectedMode: string)

  /** The prompt's input payload. */
  datatype PromptPayload = PromptPayload(
    emailContent: string,
    selectedMode: FlowMode,
    isReplyMode: bool,
    isJobPostingMode: bool,
    isCasualMessageMode: bool)

  datatype Output = Output(suggestions: seq<string>)

  function FlagCount(p: PromptPayload): (r: nat)
  {
    (if p.isReplyMode then 1 else 0)
    + (if p.isJobPostingMode then 1 else 0)
    + (if p.isCasualMessageMode then 1 else 0)
  }

  /** The mode a payload's flags announce, when exactly one is set. */
  function ModeOfFlags(p: PromptPayload): (r: Option<FlowMode>)
  {
    if FlagCount(p) != 1 then None
    else if p.isReplyMode then Some(Reply)
    else if p.isJobPostingMode then Some(JobPosting)
    else Some(CasualMessage)
  }

  /** `promptPayload`: content and mode copied, one equality test per flag. */
  function BuildPayload(emailContent: string, mode: FlowMode): (p: PromptPayload)
    ensures p.emailContent == emailContent && p.selectedMode == mode
    ensures FlagCount(p) == 1
    ensures ModeOfFlags(p) == Some(mode)
  {
    PromptPayload(emailContent, mode, mode == Reply, mode == JobPosting, mode == CasualMessage)
  }

  /** Each flag is set exactly when the mode is the one it names. */
  lemma FlagsMatchMode(emailContent: string, mode: FlowMode)
    ensures var p := BuildPayload(emailContent, mode);
      && (p.isReplyMode <==> FlowModeName(mode) == "reply")
      && (p.isJobPostingMode <==> FlowModeName(mode) == "jobPosting")
      && (p.isCasualMessageMode <==> FlowModeName(mode) == "casualMessage")
  {
  }

  /** The branches of the prompt template. */
  datatype TemplateBranch = ReplyTemplate | JobPostingTemplate | CasualMessageTemplate | GenericTemplate

  /** `{{#if isReplyMode}} … {{else if isJobPostingMode}} … {{else if
      isCasualMessageMode}} … {{else}} … {{/if}}`. */
  function SelectTemplate(p: PromptPayload): (b: TemplateBranch)
    ensures b == GenericTemplate <==> !p.isReplyMode && !p.isJobPostingMode && !p.isCasualMessageMode
    ensures ModeOfFlags(p).Some? ==> b == BranchFor(ModeOfFlags(p).value)
  {
    if p.isReplyMode then ReplyTemplate
    else if p.isJobPostingMode then JobPostingTemplate
    else if p.isCasualMessageMode then CasualMessageTemplate
    else GenericTemplate
  }

  function BranchFor(m: FlowMode): (r: TemplateBranch)
  {
    match m
    case Reply => ReplyTemplate
    case JobPosting => JobPostingTemplate
    case CasualMessage => CasualMessageTemplate
  }

  /** A payload the flow builds selects the branch for its mode; the generic
      `else` branch is never taken. */
  lemma TemplateMatchesMode(emailContent: string, mode: FlowMode)
    ensures SelectTemplate(BuildPayload(emailContent, mode)) == BranchFor(mode)
    ensures SelectTemplate(BuildPayload(emailContent, mode)) != GenericTemplate
  {
  }

  /** One invocation: the result, and the payload the prompt was called with
      (none when the input schema rejected the input). */
  datatype FlowRun = FlowRun(result: Outcome<Output>, promptCall: Option<PromptPayload>)

  /** `generateReplySuggestions`: the flow's input schema checks the mode
      (rejecting with `schemaError`), then the prompt is called once with the
      payload and its answer is returned as it is. */
  function GenerateReplySuggestions(input: RawFlowInput, schemaError: Thrown, answer: Outcome<Output>): (r: FlowRun)
    ensures r.promptCall.Some? <==> ParseFlowMode(input.selectedMode).Some?
    ensures r.promptCall.Some? ==>
      && r.result == answer
      && r.promptCall.value.emailContent == input.emailContent
      && FlowModeName(r.promptCall.value.selectedMode) == input.selectedMode
      && FlagCount(r.promptCall.value) == 1
      && ModeOfFlags(r.promptCall.value) == Some(r.promptCall.value.selectedMode)
    ensures r.promptCall.None? ==> r.result == Failure(schemaError)
  {
    match ParseFlowMode(input.selectedMode)
    case None => FlowRun(Failure(schemaError), None)
    case Some(mode) =>
      var payload := BuildPayload(input.emailContent, mode);
      // The job-posting check after the call has an empty body: the output
      // is returned as the prompt produced it for every mode.
      FlowRun(answer, Some(payload))
  }
}
