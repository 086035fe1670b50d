/**
 * The server action that stores a user's free-text customization:
 * `CustomizationSchema` checks, one call to the profile store, and the
 * outcome mapped to a message.
 */
module CustomizationActions {
  import opened Outcomes
  import Text

  const MaxCustomizationLength: nat := 5000

  const UserIdRequired := "User ID is required."
  const TextTooLong := "Customization text cannot exceed 5000 characters."
  const SavedMessage := "Your customization data has been saved successfully!"
  const MissingUserId := "User ID was not provided or is invalid."
  const UnknownError := "An unknown error occurred."

  /** The issues `CustomizationSchema` reports, in field order, with lengths
      in UTF-16 code units. An absent
      `customizationText` passes: the field is optional. */
  function CustomizationIssues(userId: string, customizationText: Option<string>): (issues: seq<string>)
    ensures issues == [] <==>
      Text.JsLength(userId) >= 1 && (customizationText.Some? ==> Text.JsLength(customizationText.value) <= MaxCustomizationLength)
  {
    (if Text.JsLength(userId) < 1 then [UserIdRequired] else [])
    + (if customizationText.Some? && Text.JsLength(customizationText.value) > MaxCustomizationLength then [TextTooLong] else [])
  }

  datatype SaveCustomizationState = SaveCustomizationState(
    message: Option<string>,
    error: Option<string>,
    success: bool)

  /** The arguments `saveUserCustomization` was called with. */
  datatype SaveCall = SaveCall(userId: string, text: string)

  datatype SaveCustomizationRun = SaveCustomizationRun(state: SaveCustomizationState, saveCall: Option<SaveCall>)

  /** The text of a caught save failure: only an `Error`'s message is shown. */
  function SaveErrorText(e: Thrown): (t: string)
    ensures e.ErrorObject? ==> t == e.message
    ensures e.OtherValue? ==> t == UnknownError
  {
    match e
    case ErrorObject(m) => m
    case OtherValue(_) => UnknownError
  }

  /** `saveCustomizationAction`: `saved` stands for what the store call does. */
  function SaveCustomizationAction(userId: string, customizationText: Option<string>, saved: Outcome<()>): (r: SaveCustomizationRun)
    ensures r.saveCall.Some? <==> CustomizationIssues(userId, customizationText) == []
    ensures r.saveCall.Some? ==>
      r.saveCall.value == SaveCall(userId, if customizationText.Some? then customizationText.value else "")
    ensures r.state.success <==> r.saveCall.Some? && saved.Success?
    ensures r.state.success <==> r.state.error.None?
    ensures r.state.message.Some? <==> r.state.success
  {
    var issues := CustomizationIssues(userId, customizationText);
    if issues != [] then
      SaveCustomizationRun(SaveCustomizationState(None, Some("Invalid input: " + issues[0]), false), None)
    else if userId == "" then
      // The schema has already demanded at least one character.
      assert false;
      SaveCustomizationRun(SaveCustomizationState(None, Some("Failed to save data: " + MissingUserId), false), None)
    else
      var text := if customizationText.Some? then customizationText.value else "";
      match saved
      case Success(_) =>
        SaveCustomizationRun(SaveCustomizationState(Some(SavedMessage), None, true), Some(SaveCall(userId, text)))
      case Failure(e) =>
        SaveCustomizationRun(
          SaveCustomizationState(None, Some("Failed to save data: " + SaveErrorText(e)), false),
          Some(SaveCall(userId, text)))
  }

  /** An empty user id is rejected with the schema's message and nothing is saved. */
  lemma EmptyUserIdRejected(customizationText: Option<string>, saved: Outcome<()>)
    ensures SaveCustomizationAction("", customizationText, saved) ==
      SaveCustomizationRun(SaveCustomizationState(None, Some("Invalid input: " + UserIdRequired), false), None)
  {
  }

  /** Text over 5000 characters is rejected and nothing is saved. */
  lemma LongTextRejected(userId: string, text: string, saved: Outcome<()>)
    requires Text.JsLength(userId) >= 1 && Text.JsLength(text) > MaxCustomizationLength
    ensures SaveCustomizationAction(userId, Some(text), saved) ==
      SaveCustomizationRun(SaveCustomizationState(None, Some("Invalid input: " + TextTooLong), false), None)
  {
  }

  /** Exactly 5000 characters is still accepted. */
  lemma BoundaryTextAccepted(userId: string, text: string, saved: Outcome<()>)
    requires Text.JsLength(userId) >= 1 && Text.JsLength(text) == MaxCustomizationLength
    ensures SaveCustomizationAction(userId, Some(text), saved).saveCall == Some(SaveCall(userId, text))
  {
  }

  /** The outcome of the store call picks the message. */
  lemma SaveOutcomeMessages(userId: string, customizationText: Option<string>, saved: Outcome<()>)
    requires CustomizationIssues(userId, customizationText) == []
    ensures var s := SaveCustomizationAction(userId, customizationText, saved).state;
      && (saved.Success? ==> s == SaveCustomizationState(Some(SavedMessage), None, true))
      && (saved.Failure? ==> s == SaveCustomizationState(None, Some("Failed to save data: " + SaveErrorText(saved.error)), false))
  {
  }
}
