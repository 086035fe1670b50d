/**
 * The decision logic of the main input form: the five UI modes and their
 * configuration table, the tone multi-select, the fields written into the
 * submitted form, and when generated suggestions are handed to the page.
 */
module EmailInput {
  import opened Outcomes
  import Text
  import Actions
  import ReplySuggestions

  /** The modes the UI offers. */
  datatype SelectedMode = Reply | JobPosting | CasualMessage | ApplyToJob | RewriteMessage

  function ModeName(m: SelectedMode): (r: string)
  {
    match m
    case Reply => "reply"
    case JobPosting => "jobPosting"
    case CasualMessage => "casualMessage"
    case ApplyToJob => "applyToJob"
    case RewriteMessage => "rewriteMessage"
  }

  function ParseSelectedMode(s: string): (r: Option<SelectedMode>)
    ensures r.Some? ==> ModeName(r.value) == s
  {
    if s == "reply" then Some(Reply)
    else if s == "jobPosting" then Some(JobPosting)
    else if s == "casualMessage" then Some(CasualMessage)
    else if s == "applyToJob" then Some(ApplyToJob)
    else if s == "rewriteMessage" then Some(RewriteMessage)
    else None
  }

  /** Mode names are distinct: the name a form carries identifies the mode. */
  lemma ModeNameRoundTrip(m: SelectedMode)
    ensures ParseSelectedMode(ModeName(m)) == Some(m)
  {
  }

  /** One row of `modeConfigs`: the card title, the submit button's text and
      whether the tone and length options are shown. The description,
      placeholder and icon are display text only. */
  datatype ModeConfig = ModeConfig(title: string, buttonText: string, hasToneAndLimitOptions: bool)

  /** `modeConfigs`: every mode shows the tone and length options. */
  function ModeConfigFor(m: SelectedMode): (c: ModeConfig)
    ensures c.hasToneAndLimitOptions
  {
    match m
    case Reply => ModeConfig("Your Received Email", "Generate Replies", true)
    case JobPosting => ModeConfig("Job Posting Details", "Draft Job Posting Email", true)
    case ApplyToJob => ModeConfig("Apply to Job Posting", "Draft Application Email", true)
    case CasualMessage => ModeConfig("Casual Job Inquiry", "Draft Casual Inquiry", true)
    case RewriteMessage => ModeConfig("Your Text to Rewrite", "Rewrite Text", true)
  }

  /** The ids of `allToneOptions`, in display order. */
  const AllToneIds: seq<string> := ["formal", "casual", "friendly", "professional", "concise",
    "detailed", "confident", "empathetic", "humorous", "urgent"]

  predicate NoDuplicates(s: seq<string>)
  {
    forall i, j :: 0 <= i < j < |s| ==> s[i] != s[j]
  }

  /** `prev.filter(t => t !== x)`. */
  function Without(prev: seq<string>, x: string): (r: seq<string>)
    ensures |r| <= |prev|
    ensures x in prev ==> |r| < |prev|
    ensures forall t :: t in r <==> t in prev && t != x
  {
    if prev == [] then []
    else if prev[0] == x then Without(prev[1..], x)
    else [prev[0]] + Without(prev[1..], x)
  }

  /** `handleToneChange`'s update: remove the tone if it is selected,
      otherwise append it at the end. */
  function ToggleTone(prev: seq<string>, toneId: string): (r: seq<string>)
    ensures toneId in r <==> toneId !in prev
    ensures forall t :: t != toneId ==> (t in r <==> t in prev)
    ensures toneId !in prev ==> r == prev + [toneId]
    ensures toneId in prev ==> |r| < |prev|
  {
    if toneId in prev then Without(prev, toneId) else prev + [toneId]
  }

  lemma {:induction false} WithoutAbsent(s: seq<string>, x: string)
    requires x !in s
    ensures Without(s, x) == s
  {
    if s != [] {
      WithoutAbsent(s[1..], x);
    }
  }

  lemma {:induction false} WithoutAppend(s: seq<string>, y: string, x: string)
    ensures Without(s + [y], x) == Without(s, x) + (if y == x then [] else [y])
  {
    if s == [] {
      assert s + [y] == [y];
    } else {
      assert (s + [y])[1..] == s[1..] + [y];
      WithoutAppend(s[1..], y, x);
    }
  }

  lemma {:induction false} WithoutKeepsNoDuplicates(s: seq<string>, x: string)
    requires NoDuplicates(s)
    ensures NoDuplicates(Without(s, x))
  {
    if s != [] {
      WithoutKeepsNoDuplicates(s[1..], x);
      if s[0] != x {
        assert s[0] !in s[1..];
      }
    }
  }

  /** Selecting a tone and then deselecting it restores the selection. */
  lemma ToggleTwiceRestores(prev: seq<string>, toneId: string)
    requires toneId !in prev
    ensures ToggleTone(ToggleTone(prev, toneId), toneId) == prev
  {
    WithoutAppend(prev, toneId, toneId);
    WithoutAbsent(prev, toneId);
  }

  /** Deselecting a tone and selecting it again moves it to the end. */
  lemma ToggleTwiceMovesToEnd(prev: seq<string>, toneId: string)
    requires toneId in prev
    ensures ToggleTone(ToggleTone(prev, toneId), toneId) == Without(prev, toneId) + [toneId]
  {
  }

  /** The selection never holds a tone twice. */
  lemma ToggleKeepsNoDuplicates(prev: seq<string>, toneId: string)
    requires NoDuplicates(prev)
    ensures NoDuplicates(ToggleTone(prev, toneId))
  {
    if toneId in prev {
      WithoutKeepsNoDuplicates(prev, toneId);
    }
  }

  /** The joined "tone" field splits back into the selected tones: no tone id
      contains a comma. */
  lemma ToneFieldRoundTrip(tones: seq<string>)
    requires |tones| > 0
    requires forall t :: t in tones ==> t in AllToneIds
    ensures Text.SplitList(Text.Join(tones, ", ")) == tones
  {
    ToneIdsCommaFree();
    Text.SplitJoin(tones);
  }

  lemma ToneIdsCommaFree()
    ensures forall t :: t in AllToneIds ==> ',' !in t
  {
    forall i | 0 <= i < |AllToneIds| ensures ',' !in AllToneIds[i] {
      var t := AllToneIds[i];
      forall k | 0 <= k < |t| ensures t[k] != ',' {
        assert 'a' <= t[k] <= 'z';
      }
    }
  }

  /** A form submission's fields, one value per name. */
  class FormData {
    var entries: map<string, string>

    constructor (initial: map<string, string>)
      ensures entries == initial
    {
      entries := initial;
    }

    /** `formData.get(name)`: null when the field is absent. */
    function Get(name: string): (r: Option<string>)
      reads this
      ensures r.Some? <==> name in entries
      ensures r.Some? ==> r.value == entries[name]
    {
      if name in entries then Some(entries[name]) else None
    }

    /** `formData.set(name, value)`. */
    method Set(name: string, value: string)
      modifies this
      ensures entries == old(entries)[name := value]
    {
      entries := entries[name := value];
    }
  }

  /** The component's own state, with the props it reads. */
  class EmailInputSection {
    var selectedMode: SelectedMode
    var selectedAiModel: string
    var selectedTones: seq<string>

    ghost predicate Valid()
      reads this
    {
      NoDuplicates(selectedTones)
    }

    constructor (mode: SelectedMode, aiModel: string)
      ensures Valid()
      ensures selectedMode == mode && selectedAiModel == aiModel && selectedTones == []
    {
      selectedMode := mode;
      selectedAiModel := aiModel;
      selectedTones := [];
    }

    /** `handleToneChange`. */
    method HandleToneChange(toneId: string)
      requires Valid()
      modifies this
      ensures Valid()
      ensures selectedTones == ToggleTone(old(selectedTones), toneId)
      ensures selectedMode == old(selectedMode) && selectedAiModel == old(selectedAiModel)
    {
      ToggleKeepsNoDuplicates(selectedTones, toneId);
      selectedTones := ToggleTone(selectedTones, toneId);
    }

    /** The mode radio group's change handler: a new mode clears the tones. */
    method ChangeMode(mode: SelectedMode)
      modifies this
      ensures Valid()
      ensures selectedMode == mode && selectedTones == [] && selectedAiModel == old(selectedAiModel)
    {
      selectedMode := mode;
      selectedTones := [];
    }

    /** `handleFormAction` up to the hand-off to the server action: returns
      what `setPrimaryInput` receives and overwrites the mode, the model and,
      when at least one tone is selected, the joined tones. */
    method HandleFormAction(formData: FormData) returns (primaryInput: Option<string>)
      modifies formData
      ensures primaryInput == old(formData.Get("primaryContent"))
      ensures formData.entries.Keys == old(formData.entries).Keys + {"selectedMode", "selectedModel"}
        + (if |selectedTones| > 0 then {"tone"} else {})
      ensures formData.entries["selectedMode"] == ModeName(selectedMode)
      ensures formData.entries["selectedModel"] == selectedAiModel
      ensures |selectedTones| > 0 ==> formData.entries["tone"] == Text.Join(selectedTones, ", ")
      ensures forall k :: k in old(formData.entries) && k !in {"selectedMode", "selectedModel"} ==>
                formData.entries[k] ==
                  if k == "tone" && |selectedTones| > 0 then Text.Join(selectedTones, ", ") else old(formData.entries)[k]
    {
      primaryInput := formData.Get("primaryContent");
      formData.Set("selectedMode", ModeName(selectedMode));
      formData.Set("selectedModel", selectedAiModel);
      if |selectedTones| > 0 {
        formData.Set("tone", Text.Join(selectedTones, ", "));
      }
    }
  }

  /** The effect that forwards the action's suggestions to the page: only a
      non-empty list is forwarded, and it is forwarded as it is. */
  function SuggestionsToForward(state: Actions.GenerateRepliesState): (r: Option<seq<string>>)
    ensures r.Some? <==> |state.suggestions| > 0
    ensures r.Some? ==> r.value == state.suggestions
  {
    if |state.suggestions| > 0 then Some(state.suggestions) else None
  }

  /** Submitting the form in a UI mode: rewriteMessage is refused by the
      action, applyToJob by the flow, and only the other three reach the
      prompt. */
  lemma ModeAcceptance(m: SelectedMode, content: string, schemaError: Thrown, answer: Outcome<ReplySuggestions.Output>)
    requires Text.JsLength(content) >= Actions.PrimaryContentMin
    ensures var r := Actions.GenerateRepliesAction(content, ModeName(m), schemaError, answer);
      && (m == RewriteMessage ==> r.flowCall.None? && r.state.error == Some("Invalid input. " + Actions.InvalidMode))
      && (m == ApplyToJob ==> r.state.error == Some("Failed to generate suggestions: " + ErrorText(schemaError) + ". Please try again."))
      && (m in {Reply, JobPosting, CasualMessage} && answer.Success? ==> r.state == Actions.GenerateRepliesState(None, answer.output.suggestions))
  {
    match m
    case RewriteMessage => Actions.UnknownModeRejected(content, ModeName(m), schemaError, answer);
    case ApplyToJob => Actions.ApplyToJobAlwaysFails(content, schemaError, answer);
    case Reply => Actions.FlowModesPassThrough(content, ReplySuggestions.Reply, schemaError, answer);
    case JobPosting => Actions.FlowModesPassThrough(content, ReplySuggestions.JobPosting, schemaError, answer);
    case CasualMessage => Actions.FlowModesPassThrough(content, ReplySuggestions.CasualMessage, schemaError, answer);
  }
}
