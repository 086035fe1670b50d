/**
 * The settings dialog's decisions: the names it starts from, the guards of
 * the display-name save, the Save button's enable rule, the saving flag
 * around the update call, and the theme shown as active.
 */
module SettingsDialog {
  import opened Outcomes
  import Text

  /** The signed-in user as the auth context exposes it. */
  datatype User = User(displayName: Option<string>, email: Option<string>)

  /** `user.displayName || user.email || ''` and `user.displayName || ''`:
      the name shown as current and the initial content of the input. */
  function InitialNames(user: User): (r: (string, string))
    ensures r.1 == "" || (user.displayName.Some? && r.1 == user.displayName.value)
    ensures r.1 != "" ==> r.0 == r.1
    ensures r.1 == "" ==> r.0 == OrElse(user.email, "")
    ensures user.displayName.Some? && user.displayName.value != "" ==>
      r.1 == user.displayName.value && r.0 == user.displayName.value
  {
    (OrElse(user.displayName, OrElse(user.email, "")), OrElse(user.displayName, ""))
  }

  /** What pressing Save decides before any call. */
  datatype SaveDecision = RejectBlank | NoChange | Update(name: string)

  /** The two guards of `handleSaveUsername`, against `user?.displayName || ''`. */
  function DecideSave(newUsername: string, displayName: Option<string>): (d: SaveDecision)
    ensures d.RejectBlank? <==> Text.IsBlank(newUsername)
    ensures d.NoChange? ==> Text.Trim(newUsername) == OrElse(displayName, "")
    ensures d.Update? ==>
      && d.name == Text.Trim(newUsername)
      && d.name != ""
      && d.name != OrElse(displayName, "")
  {
    Text.TrimEmptyIffBlank(newUsername);
    var trimmed := Text.Trim(newUsername);
    if trimmed == "" then RejectBlank
    else if trimmed == OrElse(displayName, "") then NoChange
    else Update(trimmed)
  }

  /** The Save button's `disabled` expression, negated: enabled exactly when
      no save is running and the handler would go on to call the update. */
  predicate SaveButtonEnabled(isSavingUsername: bool, newUsername: string, displayName: Option<string>)
    ensures SaveButtonEnabled(isSavingUsername, newUsername, displayName)
      <==> !isSavingUsername && DecideSave(newUsername, displayName).Update?
  {
    !(isSavingUsername || Text.Trim(newUsername) == "" || Text.Trim(newUsername) == OrElse(displayName, ""))
  }

  /** After a successful update the stored name is the trimmed input, so
      pressing Save again with the same input changes nothing. */
  lemma SavedNameIsNoChange(newUsername: string)
    requires !Text.IsBlank(newUsername)
    ensures DecideSave(newUsername, Some(Text.Trim(newUsername))) == NoChange
  {
    Text.TrimEmptyIffBlank(newUsername);
  }

  /** On opening, the input holds the current display name; when that name has
      no surrounding whitespace the Save button starts disabled. */
  lemma FreshDialogSaveDisabled(user: User)
    requires Text.Trim(OrElse(user.displayName, "")) == OrElse(user.displayName, "")
    ensures !SaveButtonEnabled(false, InitialNames(user).1, user.displayName)
  {
  }

  /** A toast: title, description and whether it is the destructive variant. */
  datatype Toast = Toast(title: string, description: string, destructive: bool)

  /** The message shown for a failed update. */
  function UpdateErrorText(e: Thrown): (t: string)
    ensures e.ErrorObject? ==> t == e.message
    ensures e.OtherValue? ==> t == "An unknown error occurred."
  {
    match e
    case ErrorObject(m) => m
    case OtherValue(_) => "An unknown error occurred."
  }

  /** The dialog's own state. */
  class SettingsDialogState {
    var open: bool
    var newUsername: string
    var isSavingUsername: bool

    constructor (user: User)
      ensures open && !isSavingUsername && newUsername == InitialNames(user).1
    {
      open := true;
      newUsername := InitialNames(user).1;
      isSavingUsername := false;
    }

    /** `handleSaveUsername`: `updated` stands for what
      `updateUserDisplayName` does. Returns the toast shown and the name the
      update was called with, if it was called. */
    method HandleSaveUsername(displayName: Option<string>, updated: Outcome<()>)
      returns (toast: Toast, updateCall: Option<string>, ghost savingDuringCall: bool)
      modifies this
      ensures var d := DecideSave(old(newUsername), displayName);
        && (updateCall.Some? <==> d.Update?)
        && (d.Update? ==> updateCall.value == d.name && savingDuringCall)
        && (open <==> old(open) && !(d.Update? && updated.Success?))
        && (d.RejectBlank? ==> toast == Toast("Invalid Username", "Username cannot be empty.", true))
        && (d.NoChange? ==> toast.title == "No Change" && !toast.destructive)
        && (d.Update? && updated.Success? ==> toast.title == "Username Updated" && !toast.destructive)
        && (d.Update? && updated.Failure? ==>
              toast == Toast("Error Updating Username", UpdateErrorText(updated.error), true))
      ensures isSavingUsername == (old(isSavingUsername) && !DecideSave(old(newUsername), displayName).Update?)
      ensures newUsername == old(newUsername)
    {
      savingDuringCall := false;
      var trimmed := Text.Trim(newUsername);
      Text.TrimEmptyIffBlank(newUsername);
      if trimmed == "" {
        toast := Toast("Invalid Username", "Username cannot be empty.", true);
        updateCall := None;
        return;
      }
      if trimmed == OrElse(displayName, "") {
        toast := Toast("No Change", "The new username is the same as the current one.", false);
        updateCall := None;
        return;
      }
      isSavingUsername := true;
      updateCall := Some(trimmed);
      savingDuringCall := isSavingUsername;
      match updated {
        case Success(_) =>
          toast := Toast("Username Updated", "Your username has been changed to " + trimmed + ".", false);
          open := false;
        case Failure(e) =>
          toast := Toast("Error Updating Username", UpdateErrorText(e), true);
      }
      // The `finally` block: the flag drops whether the update succeeded or not.
      isSavingUsername := false;
    }
  }

  /** `theme === "system" ? systemTheme : theme`. */
  function EffectiveTheme(theme: Option<string>, systemTheme: Option<string>): (r: Option<string>)
    ensures theme == Some("system") ==> r == systemTheme
    ensures theme != Some("system") ==> r == theme
    ensures theme in {Some("light"), Some("dark"), Some("system")} && systemTheme in {Some("light"), Some("dark")}
      ==> r in {Some("light"), Some("dark")}
  {
    if theme == Some("system") then systemTheme else theme
  }

  /** The "Current:" line under the theme buttons. */
  function ThemeLabel(effective: Option<string>): (shown: string)
    ensures shown == "System Default" <==> effective !in {Some("light"), Some("dark")}
    ensures effective == Some("light") ==> shown == "Light Mode"
    ensures effective == Some("dark") ==> shown == "Dark Mode"
  {
    if effective == Some("light") then "Light Mode"
    else if effective == Some("dark") then "Dark Mode"
    else "System Default"
  }

  /** When the system reports a concrete theme, any of the three choices is
      shown as light or dark, never as "System Default". */
  lemma EffectiveThemeIsConcrete(theme: string, systemTheme: string)
    requires theme in {"light", "dark", "system"} && systemTheme in {"light", "dark"}
    ensures EffectiveTheme(Some(theme), Some(systemTheme)) in {Some("light"), Some("dark")}
    ensures ThemeLabel(EffectiveTheme(Some(theme), Some(systemTheme))) != "System Default"
  {
  }
}
