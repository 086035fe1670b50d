# Introbird decision logic in Dafny

Introbird is a web front-end over a hosted text-generation API. It collects
an email, a job posting, a casual-inquiry context or a text to rewrite, sends
it through a templated prompt, and shows the suggestions that come back. This
project models the decision logic of that front-end and proves properties of
it:

- **The retry loop** in three generation flows (summarize email, refine a
  draft with an instruction, summarize a résumé). Each flow allows at most 3
  prompt calls. A failure is retried only if its message contains "503", or
  its lower-cased message contains "overload" or "service unavailable", and
  only before the last attempt. The prompt is an oracle: the caller supplies,
  in order, what it answers on each attempt. The 2000 ms wait is a `Delay`
  event in a trace of `Call(attempt)` and `Delay(ms)` events.
  `Retry.RunWithRetry` is the loop, written as a `while` loop over `attempt`.
  It is proved against `Retry.Expected`, which gives the attempt that ends the
  invocation (`StopIndex`), the trace and the result. Each flow uses the loop
  with its own final throw. Summarize-email and refine-draft rethrow the caught
  value. Summarize-resume throws a new `Error` with the message
  "Failed to summarize resume: " followed by the caught text. The fallback
  `throw` after the loop is proved unreachable (`assert false` at that point).
- **Mode-to-payload shaping** in the reply-suggestions flow. The flow's mode
  enum becomes three boolean flags, and the flags choose the template branch.
- **Server-action validation and result shaping**: minimum lengths, the mode
  enum, the 5000-character cap, the first-issue error message, and the
  either-error-or-result return objects.
- **Component decision rules**: the tone multi-select and the form fields it
  writes, the mode table, the suggestion titles, labels and layout, and the
  display-name save guards with the Save button's enable rule.

Modes do not line up between layers, and the model shows this rather than
hiding it. The UI offers five modes. The `generateRepliesAction` enum accepts
four of them: "rewriteMessage" is refused with "Invalid mode selected.". The
flow's own enum accepts three of them, so "applyToJob" passes the action's
check and is then always rejected by the flow. `EmailInput.ModeAcceptance`
states all three outcomes. The tone, model and character-limit fields the
form writes are never read by `generateRepliesAction`. The model keeps this
too: the action takes only the content and the mode.

Some behaviour of the code that is easy to misread:
- The retry test lower-cases the message only for "overload" and "service
  unavailable"; "503" is matched as written. `Retry.RetryableIgnoresCase`
  proves this gives the same answer as lower-casing for all three needles,
  because "503" has no letters.
- The reply-suggestions flow passes the prompt's output through unchanged,
  even when the list is empty. Its payload holds only the content, the mode
  and the three flags; there are no profile or personalization fields.
- The flow accepts only the modes reply, jobPosting and casualMessage.
- zod's `.min` and `.max` compare JavaScript's `length`, which counts UTF-16
  code units. The model measures strings with `Text.JsLength`, under which a
  character outside the Basic Multilingual Plane counts twice. So five such
  characters meet the ten-character minimum (`Actions.AstralContentAccepted`).
- Two external calls cannot succeed in this snapshot of the source.
  `src/components/settings/SettingsDialog.tsx:33` takes
  `updateUserDisplayName` from `useAuth()`, but the auth context's value
  (`src/contexts/AuthContext.tsx:16-22` and `:53`) has no such member.
  `src/app/customization/actions.ts:5` imports `saveUserCustomization` from
  `src/lib/firebase.ts`, whose code is entirely commented out, and the build
  is set to ignore type errors (`next.config.ts:5-6`). Calling either one
  therefore throws a `TypeError` inside the `try`, and the catch block
  handles it. The model keeps both calls as oracle outcomes. Their `Failure`
  case is the one this snapshot reaches. The success halves of
  `CustomizationActions.SaveOutcomeMessages`,
  `SettingsDialog.SavedNameIsNoChange` and the dialog's close in
  `SettingsDialog.SettingsDialogState.HandleSaveUsername` describe the code as
  written once those calls exist.

Modules: `Outcomes` (thrown values, call outcomes, JavaScript's `||` on
strings), `Text` (substring search, ASCII lower-casing, `trim`, `join`,
decimal rendering), `Retry`, `SummarizeEmail`, `RefineDraft`,
`SummarizeResume`, `ReplySuggestions`, `Actions`, `CustomizationActions`,
`EmailInput`, `SuggestionsView` and `SettingsDialog`.

## Model

| member | source | states |
|---|---|---|
| Outcomes.OrElse | src/components/settings/SettingsDialog.tsx:44-45 | `a \|\| fallback` yields the value only when it is a non-empty string, otherwise the fallback |
| Text.Contains | src/ai/flows/summarize-email.ts:54 | the scan used for `includes` is true exactly when the needle occurs at some index |
| Text.Lower | src/ai/flows/summarize-email.ts:54 | same length, and every character is the ASCII lower-case of the one at the same index |
| Text.LowerIdempotent | src/ai/flows/summarize-email.ts:54 | lower-casing a lower-cased message changes nothing |
| Text.DigitsSurviveLowering | src/ai/flows/summarize-email.ts:54 | "503" occurs in a message iff it occurs in its lower-cased form |
| Text.TrimStart | src/components/settings/SettingsDialog.tsx:54 | the result is a suffix, only whitespace was dropped, and it does not start with whitespace |
| Text.TrimEnd | src/components/settings/SettingsDialog.tsx:54 | the result is a prefix, only whitespace was dropped, and it does not end with whitespace |
| Text.Trim | src/components/settings/SettingsDialog.tsx:54 | the result is a slice of the name with only whitespace cut off on either side, and it neither starts nor ends with whitespace |
| Text.TrimEmptyIffBlank | src/components/settings/SettingsDialog.tsx:54 | `!name.trim()` holds exactly when the name is all whitespace |
| Text.TrimIdempotent | src/components/settings/SettingsDialog.tsx:62 | trimming an already trimmed name changes nothing |
| Text.SplitJoin | src/components/introbird/EmailInputSection.tsx:140 | joining comma-free items with ", " can be split back into the same items |
| Text.Join | src/components/introbird/EmailInputSection.tsx:140 | no items give ""; otherwise the result starts with the first item, followed by the separator when there are more |
| Text.Decimal | src/components/introbird/ResponseSuggestionsSection.tsx:62 | a card number renders as a non-empty string of decimal digits with no leading zero (a leading "0" only for zero itself) |
| Text.ParseDecimalRoundTrip | src/components/introbird/ResponseSuggestionsSection.tsx:62 | parsing the rendered number gives the number back |
| Text.DecimalInjective | src/components/introbird/ResponseSuggestionsSection.tsx:62 | different card numbers render differently |
| Text.JsLength | src/app/actions.ts:11 | the UTF-16 length lies between the number of characters and twice that |
| Text.JsLengthAppend | src/app/actions.ts:11 | code units add up over concatenation |
| Text.JsLengthIsCountForBmp | src/app/customization/actions.ts:12 | the UTF-16 length equals the number of characters iff every character is in the Basic Multilingual Plane |
| Retry.Settle | src/ai/flows/summarize-email.ts:50-59 | the ending attempt's success is returned with its output unchanged; a failure stays a failure |
| Outcomes.ErrorText | src/ai/flows/summarize-resume-flow.ts:73 | an Error gives its message, any other value its string form |
| Retry.IsRetryableMessage | src/ai/flows/summarize-email.ts:54 | retryable iff "503" occurs in the message or "overload" or "service unavailable" occurs in its lower-cased form |
| Retry.RetriesAfter | src/ai/flows/summarize-email.ts:53-56 | a success and the last attempt are never retried; an earlier failure is retried iff its message is retryable |
| Retry.FinalThrow | src/ai/flows/summarize-resume-flow.ts:78-80 | a rethrow gives the caught value itself; a wrap gives an Error whose message is the prefix followed by the caught text |
| Retry.StopFrom | src/ai/flows/summarize-email.ts:48-60 | the ending attempt is the first one not retried, and every attempt before it was retried |
| Retry.StopIndex | src/ai/flows/summarize-email.ts:38-48 | the ending attempt is one of the 3 allowed |
| Retry.RunWithRetry | src/ai/flows/summarize-email.ts:47-65 | the loop's result and call/wait trace equal those given by the ending attempt; the post-loop throw is unreachable |
| Retry.AttemptTraceCounts | src/ai/flows/summarize-email.ts:48-56 | ending on attempt k+1 means k+1 calls and k waits |
| Retry.AttemptTraceShape | src/ai/flows/summarize-email.ts:48-56 | calls for attempts 1, 2, … alternate with 2000 ms waits, and the trace ends with a call |
| Retry.CallBounds | src/ai/flows/summarize-email.ts:38-56 | 1 to 3 calls per invocation, and waits = calls − 1 |
| Retry.StopIndexIff | src/ai/flows/summarize-email.ts:54 | the invocation ends on attempt n+1 iff attempts 1..n were retried and attempt n+1 is not |
| Retry.SuccessEndsInvocation | src/ai/flows/summarize-email.ts:48-51 | a success after n retried failures is returned unchanged, after n+1 calls, with the last event being that call |
| Retry.FatalFailureEndsInvocation | src/ai/flows/summarize-email.ts:54-59 | a non-matching failure ends the invocation on its attempt through the final throw |
| Retry.FatalFirstAttempt | src/ai/flows/summarize-email.ts:54-59 | a non-matching failure on attempt 1 gives one call, no wait, and the final throw |
| Retry.ThreeTransientFailures | src/ai/flows/summarize-email.ts:48-59 | three retryable failures give call, wait, call, wait, call and the third failure's final throw |
| Retry.TransientThenSuccess | src/ai/flows/refine-draft-with-instruction.ts:61-69 | a retryable failure and then a success return that success after exactly one wait |
| Retry.RetryableIgnoresCase | src/ai/flows/summarize-email.ts:54 | the retry test gives the same answer for a message and its lower-cased form |
| SummarizeEmail.SummarizeEmailFlow | src/ai/flows/summarize-email.ts:38-66 | the flow's result is the ending attempt's answer itself: its output, or its error rethrown unchanged |
| SummarizeEmail.RethrowsLastError | src/ai/flows/summarize-email.ts:57-59 | a thrown error is the failure of the last attempt made |
| SummarizeEmail.NonRetryableFirstFailure | src/ai/flows/summarize-email.ts:54-59 | a non-matching failure on attempt 1 is rethrown after one call and no wait |
| SummarizeEmail.ThreeRetryableFailures | src/ai/flows/summarize-email.ts:48-59 | three retryable failures give 3 calls, 2 waits and the third error rethrown |
| RefineDraft.RefineDraftWithInstructionFlow | src/ai/flows/refine-draft-with-instruction.ts:51-77 | the result is the ending attempt's answer itself, and the trace has at most 5 events |
| RefineDraft.RetryThenSuccess | src/ai/flows/refine-draft-with-instruction.ts:61-69 | a retryable failure and then a success give that success after 2 calls and 1 wait |
| RefineDraft.NonMatchingRethrown | src/ai/flows/refine-draft-with-instruction.ts:66-72 | a non-matching failure on attempt n+1 is rethrown unchanged after n+1 calls |
| SummarizeResume.ResummarizerFlow | src/ai/flows/summarize-resume-flow.ts:58-87 | a success is returned unchanged; a failure becomes an Error whose message is "Failed to summarize resume: " plus the last error text |
| SummarizeResume.TerminalMessage | src/ai/flows/summarize-resume-flow.ts:73-80 | the terminal error is an Error whose message starts with the prefix and continues with the last attempt's error text |
| SummarizeResume.NonRetryableWrapped | src/ai/flows/summarize-resume-flow.ts:74-80 | a non-matching failure on attempt 1 ends after one call with the wrapped message |
| SummarizeResume.CallAndDelayBounds | src/ai/flows/summarize-resume-flow.ts:58-76 | at most 3 calls and at most 2 waits |
| ReplySuggestions.ParseFlowMode | src/ai/flows/generate-reply-suggestions.ts:18 | exactly "reply", "jobPosting" and "casualMessage" are accepted, each as the mode of that name |
| ReplySuggestions.FlowModeRoundTrip | src/ai/flows/generate-reply-suggestions.ts:18 | every flow mode's name parses back to that mode |
| ReplySuggestions.BuildPayload | src/ai/flows/generate-reply-suggestions.ts:111-117 | content and mode are copied; exactly one flag is set; the flags decode back to the mode |
| ReplySuggestions.FlagsMatchMode | src/ai/flows/generate-reply-suggestions.ts:114-116 | each flag is true iff the mode's name is the value that flag names |
| ReplySuggestions.TemplateMatchesMode | src/ai/flows/generate-reply-suggestions.ts:52-80 | a built payload selects its mode's template branch and never the generic `else` |
| ReplySuggestions.SelectTemplate | src/ai/flows/generate-reply-suggestions.ts:52-80 | the generic branch is taken iff no flag is set; with exactly one flag set, that mode's branch is taken |
| ReplySuggestions.GenerateReplySuggestions | src/ai/flows/generate-reply-suggestions.ts:103-129 | the prompt is called iff the schema accepts the mode, with the content and exactly the flag of that mode set; its answer is returned unchanged; otherwise the schema error propagates |
| Actions.FirstIssue | src/app/actions.ts:38 | the first issue's message, or "" when there is none |
| Actions.PrimaryContentIssues | src/app/actions.ts:10-15 | no issue iff the content is at least 10 UTF-16 code units long and the mode is one of the four action modes |
| Actions.AstralContentAccepted | src/app/actions.ts:11 | five characters outside the Basic Multilingual Plane (ten code units) pass the content check |
| Actions.GenerateRepliesAction | src/app/actions.ts:28-54 | the flow is called iff validation passes; an error always comes with empty suggestions; no error means the flow succeeded with exactly these suggestions |
| Actions.ShortContentRejected | src/app/actions.ts:34-41 | content under 10 code units gives "Invalid input. " plus the length message, empty suggestions and no call |
| Actions.UnknownModeRejected | src/app/actions.ts:12-14 | a mode outside the four (e.g. rewriteMessage) gives "Invalid input. Invalid mode selected." and no call |
| Actions.OnlyFirstIssueReported | src/app/actions.ts:38 | with content under 10 code units and an unknown mode, only the content issue's message is reported |
| Actions.ApplyToJobAlwaysFails | src/app/actions.ts:43-53 | applyToJob passes the action's check but the flow's enum rejects it: always the "Failed to generate suggestions" error |
| Actions.FlowModesPassThrough | src/app/actions.ts:43-53 | for a flow mode, success returns the suggestions unchanged with no error; failure gives the "Failed to generate suggestions: …. Please try again." message |
| Actions.ImproveDraftAction | src/app/actions.ts:56-78 | a draft under 5 code units is rejected before the call with the schema message; otherwise a successful flow gives its refined draft and no error, and a failed one gives "Failed to improve draft: …. Please try again." |
| Actions.SaveInteractionAction | src/app/actions.ts:80-103 | success iff the received email has at least 10 and the reply at least 5 code units, with the first issue's zod default message otherwise |
| CustomizationActions.CustomizationIssues | src/app/customization/actions.ts:10-13 | no issue iff the user id is non-empty and any text has at most 5000 UTF-16 code units |
| CustomizationActions.SaveErrorText | src/app/customization/actions.ts:47 | an Error shows its message; any other thrown value shows "An unknown error occurred." |
| CustomizationActions.SaveCustomizationAction | src/app/customization/actions.ts:21-50 | the store is called iff validation passes, with the user id and the text (an undefined text as ""); success iff that call succeeded; a message exactly on success |
| CustomizationActions.EmptyUserIdRejected | src/app/customization/actions.ts:27-34 | an empty user id gives "Invalid input: User ID is required." and no save |
| CustomizationActions.LongTextRejected | src/app/customization/actions.ts:27-34 | text over 5000 code units is rejected without a save |
| CustomizationActions.BoundaryTextAccepted | src/app/customization/actions.ts:12 | text of exactly 5000 code units is saved |
| CustomizationActions.SaveOutcomeMessages | src/app/customization/actions.ts:43-49 | a successful save gives the fixed success message; a failed one gives "Failed to save data: " plus the error text |
| EmailInput.ParseSelectedMode | src/components/introbird/EmailInputSection.tsx:22 | an accepted string is the name of the mode it parses to |
| EmailInput.ModeNameRoundTrip | src/components/introbird/EmailInputSection.tsx:22 | every UI mode's name parses back to it |
| EmailInput.ModeConfigFor | src/components/introbird/EmailInputSection.tsx:42-83 | every mode shows the tone and length options |
| EmailInput.Without | src/components/introbird/EmailInputSection.tsx:129 | removing a tone keeps exactly the other tones and shortens a list that held it |
| EmailInput.ToggleTone | src/components/introbird/EmailInputSection.tsx:127-131 | the toggled tone's membership flips, every other tone's is kept, an absent tone is appended at the end |
| EmailInput.WithoutAbsent | src/components/introbird/EmailInputSection.tsx:129 | filtering out a tone that is not there changes nothing |
| EmailInput.WithoutAppend | src/components/introbird/EmailInputSection.tsx:129 | filtering distributes over appending one tone |
| EmailInput.WithoutKeepsNoDuplicates | src/components/introbird/EmailInputSection.tsx:129 | filtering keeps a duplicate-free list duplicate-free |
| EmailInput.ToggleTwiceRestores | src/components/introbird/EmailInputSection.tsx:127-131 | toggling an absent tone twice restores the list |
| EmailInput.ToggleTwiceMovesToEnd | src/components/introbird/EmailInputSection.tsx:127-131 | toggling a present tone twice moves it to the end |
| EmailInput.ToggleKeepsNoDuplicates | src/components/introbird/EmailInputSection.tsx:127-131 | toggling keeps the selection free of duplicates |
| EmailInput.ToneIdsCommaFree | src/components/introbird/EmailInputSection.tsx:85-96 | no tone id contains a comma |
| EmailInput.ToneFieldRoundTrip | src/components/introbird/EmailInputSection.tsx:139-141 | the "tone" field splits back into the selected tones in selection order |
| EmailInput.FormData.Get | src/components/introbird/EmailInputSection.tsx:134 | `get` yields the field's value when present and nothing otherwise |
| EmailInput.FormData.Set | src/components/introbird/EmailInputSection.tsx:136-140 | `set` replaces or adds one field and leaves the others |
| EmailInput.EmailInputSection.constructor | src/components/introbird/EmailInputSection.tsx:125 | the tone selection starts empty (and so duplicate-free) |
| EmailInput.EmailInputSection.HandleToneChange | src/components/introbird/EmailInputSection.tsx:127-131 | the selection becomes the toggled list and stays duplicate-free |
| EmailInput.EmailInputSection.ChangeMode | src/components/introbird/EmailInputSection.tsx:168-171 | a mode change clears the selected tones |
| EmailInput.EmailInputSection.HandleFormAction | src/components/introbird/EmailInputSection.tsx:133-144 | mode and model are overwritten, "tone" is set to the ", "-joined selection only when it is non-empty, other fields are untouched, and the primary content is handed on |
| EmailInput.SuggestionsToForward | src/components/introbird/EmailInputSection.tsx:146-150 | suggestions are forwarded, unchanged, only when non-empty |
| EmailInput.ModeAcceptance | src/components/introbird/EmailInputSection.tsx:136 | submitting in rewriteMessage is refused by the action, applyToJob always ends in the flow's rejection, and the other three pass the prompt's suggestions through |
| SuggestionsView.ButtonText | src/components/introbird/ResponseSuggestionsSection.tsx:15-30 | the label is the default "Use this Suggestion" exactly for strings that are not one of the five modes |
| SuggestionsView.ButtonTextPerMode | src/components/introbird/ResponseSuggestionsSection.tsx:15-30 | every mode has its own label, never the default |
| SuggestionsView.SectionTitle | src/components/introbird/ResponseSuggestionsSection.tsx:39-51 | a mode-specific heading exactly for one suggestion in a job posting, application or rewrite mode; the casual heading exactly for several casual inquiries; the generic heading otherwise |
| SuggestionsView.CardTitle | src/components/introbird/ResponseSuggestionsSection.tsx:62-66 | a title is numbered "Suggestion n" exactly when there are several suggestions, and n reads back as the card's position + 1 |
| SuggestionsView.Render | src/components/introbird/ResponseSuggestionsSection.tsx:32-88 | nothing for an empty list; otherwise one card per suggestion in order, each with the mode's label, and a single column iff one suggestion in a job posting, application or rewrite mode |
| SuggestionsView.SelectPassesSuggestion | src/components/introbird/ResponseSuggestionsSection.tsx:58-76 | selecting card i hands back suggestion i unchanged |
| SuggestionsView.CardTitlesNumbered | src/components/introbird/ResponseSuggestionsSection.tsx:62 | with several suggestions card i is titled "Suggestion i+1" and titles are distinct |
| SuggestionsView.TitleMatchesLayout | src/components/introbird/ResponseSuggestionsSection.tsx:39-57 | the layout is single-column iff the heading is a mode-specific single-artifact heading |
| SuggestionsView.SingleSuggestionTitles | src/components/introbird/ResponseSuggestionsSection.tsx:39-66 | one suggestion: the artifact heading and card title per job posting, application and rewrite mode; the generic heading for reply and casual, with the cards "Suggestion" and "Casual Inquiry Option" |
| SuggestionsView.ManySuggestionsTitle | src/components/introbird/ResponseSuggestionsSection.tsx:49-51 | several suggestions: "AI Drafted Casual Inquiries" for casualMessage, else "AI Suggestions" |
| SettingsDialog.InitialNames | src/components/settings/SettingsDialog.tsx:41-47 | a non-empty display name is both the input and the shown name; without one the input is "" and the shown name is the email, else "" |
| SettingsDialog.DecideSave | src/components/settings/SettingsDialog.tsx:53-68 | blank input is rejected; a trimmed name equal to the current one is no change; otherwise the update gets the trimmed, non-empty, different name |
| SettingsDialog.SaveButtonEnabled | src/components/settings/SettingsDialog.tsx:172 | Save is enabled iff no save is running and the handler would call the update |
| SettingsDialog.SavedNameIsNoChange | src/components/settings/SettingsDialog.tsx:62-72 | after a successful update, saving the same input again is "No Change" |
| SettingsDialog.FreshDialogSaveDisabled | src/components/settings/SettingsDialog.tsx:44-46 | on opening with a display name that has no surrounding whitespace, Save is disabled |
| SettingsDialog.UpdateErrorText | src/components/settings/SettingsDialog.tsx:79 | an Error shows its message; any other thrown value shows "An unknown error occurred." |
| SettingsDialog.SettingsDialogState.constructor | src/components/settings/SettingsDialog.tsx:36-46 | the dialog starts not saving, with the input set from the user |
| SettingsDialog.SettingsDialogState.HandleSaveUsername | src/components/settings/SettingsDialog.tsx:53-88 | the update is called only for the Update decision, with the trimmed name, while the flag is set; the dialog closes only on success; the flag ends false after an attempt; the toasts match each case |
| SettingsDialog.EffectiveTheme | src/components/settings/SettingsDialog.tsx:96 | "system" resolves to the system theme and any other theme is itself; with a light or dark system theme, each of the three choices resolves to light or dark |
| SettingsDialog.ThemeLabel | src/components/settings/SettingsDialog.tsx:149 | "Light Mode" and "Dark Mode" for those themes, and "System Default" exactly for anything else |
| SettingsDialog.EffectiveThemeIsConcrete | src/components/settings/SettingsDialog.tsx:96-149 | with a light or dark system theme, the active theme is shown as light or dark, never "System Default" |

## Left out

- The prompts themselves: the wording, safety settings and the model behind
  them. Each prompt call is an oracle answer, either `Success(output)` or
  `Failure(thrown value)`. A prompt that resolves with a null output, which
  `output!` would pass on, is not modelled.
- Real time and scheduling: the 2000 ms `setTimeout` is a `Delay(2000)`
  event, and `await` is not modelled. There is no concurrency in this core.
- Logging (`console.warn`, `console.error`, `console.log`): it has no
  effect on behaviour.
- React rendering, JSX, hooks, icons, toasts as UI and the clipboard. Only
  the decision functions and the state they update are kept. The mode table
  keeps the title, the button text and the tone-options flag. Its
  descriptions and placeholders are display text.
- Firebase, the auth context and the profile store: calls to them are oracle
  outcomes (see above for why they always fail in this snapshot).
- The draft-improvement flow that `improveDraftAction` calls is not part of
  this model; its answer is an oracle outcome.
- zod: only the length, enum and optional checks used here are modelled.
  `CustomizationActions.SaveCustomizationAction` takes the text as an
  `Option`, where `None` is the `undefined` that `.optional()` accepts and
  that is saved as "". `formData.get` never yields `undefined`: a missing
  field gives `null`, which the schema rejects with its type message. That
  null case is not modelled; the customization form always sends the field.
- The genkit input-schema failure message of the reply-suggestions flow is
  an abstract thrown value (`schemaError`).
- Text.Join: its contract states the empty case and the leading item; that
  nothing else is lost is stated by `Text.SplitJoin` for comma-free items.
- Text.Lower: lower-cases ASCII letters only, because the retry keywords are
  ASCII. Full Unicode case mapping is not modelled.
- EmailInput.FormData: a map with one value per field name. FormData's
  multiple values per name and its entry order are not modelled.
- EmailInput.Without: its own contract states which tones remain and bounds
  the length; that the remaining tones keep their order is stated by
  `EmailInput.WithoutAppend` (with the empty list giving the empty list).
- The prompt input passed to each attempt of the retry loop (the same input
  on every attempt) is not recorded in the trace.
- The page, the response editor, the auth dialog, the customization page
  and the configuration and bootstrap files only call into or display the
  modelled parts. They are not part of this model.
