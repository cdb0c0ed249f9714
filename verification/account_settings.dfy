/**
 * The account settings panel: the light/dark theme, the password change
 * and the profile save, each with the status message it leaves behind.
 */
module AccountSettings {
  import opened Wrappers

  datatype AccountState = AccountState(
    name: string,
    email: string,
    newPassword: string,
    theme: string,
    saving: bool,
    message: string)

  /** `storedTheme || 'light'`: the stored value is used as it is when it is non-empty. */
  function InitialTheme(stored: Option<string>): (theme: string)
    ensures stored.None? || stored.value == "" ==> theme == "light"
    ensures TruthyString(stored) ==> theme == stored.value
  {
    OrString(stored, "light")
  }

  /** `theme === 'light' ? 'dark' : 'light'` */
  function Flip(theme: string): (t: string)
    ensures t == "dark" || t == "light"
    ensures t == "dark" <==> theme == "light"
  {
    if theme == "light" then "dark" else "light"
  }

  /** `handleThemeToggle`: the new state and the value written to storage. */
  function ToggleTheme(s: AccountState): (r: (AccountState, string))
    ensures r.1 == r.0.theme == Flip(s.theme)
    ensures r.0.message == "Switched to " + r.0.theme + " mode."
    ensures r.0 == s.(theme := r.0.theme, message := r.0.message)
  {
    var t := Flip(s.theme);
    (s.(theme := t, message := "Switched to " + t + " mode."), t)
  }

  /** Toggling twice gives back a light or dark theme. */
  lemma ToggleTwice(s: AccountState)
    requires s.theme == "light" || s.theme == "dark"
    ensures ToggleTheme(ToggleTheme(s).0).0.theme == s.theme
  {
  }

  const ShortPassword := "Password must be at least 6 characters long."

  /**
   * `handlePasswordChange`: the resulting state and whether the update call
   * is made; `outcome` is what that call returns when it is made.
   */
  function ChangePassword(s: AccountState, outcome: Result<(), StoreError>): (r: (AccountState, bool))
    ensures r.1 <==> |s.newPassword| >= 6
    ensures !r.1 ==> r.0 == s.(message := ShortPassword)
    ensures r.1 && outcome.Ok? ==> r.0 == s.(message := "Password updated successfully.", newPassword := "")
    ensures r.1 && outcome.Err? ==> r.0 == s.(message := "Error updating password: " + outcome.error.message)
  {
    if |s.newPassword| < 6 then (s.(message := ShortPassword), false)
    else match outcome
      case Ok(_) => (s.(message := "Password updated successfully.", newPassword := ""), true)
      case Err(e) => (s.(message := "Error updating password: " + e.message), true)
  }

  /** `handleSave` up to the update call: saving, message blanked. */
  function SaveStart(s: AccountState): (t: AccountState)
    ensures t.saving && t.message == ""
    ensures t == s.(saving := t.saving, message := t.message)
  {
    s.(saving := true, message := "")
  }

  /** `handleSave` after the update call returns. */
  function SaveFinish(s: AccountState, outcome: Result<(), StoreError>): (t: AccountState)
    ensures !t.saving
    ensures outcome.Ok? ==> t.message == "Profile updated successfully."
    ensures outcome.Err? ==> t.message == "Error updating profile: " + outcome.error.message
    ensures t == s.(saving := false, message := t.message)
  {
    match outcome
    case Ok(_) => s.(saving := false, message := "Profile updated successfully.")
    case Err(e) => s.(saving := false, message := "Error updating profile: " + e.message)
  }

  /** A save never leaves the panel saving, and touches nothing but the two flags. */
  lemma SaveEnds(s: AccountState, outcome: Result<(), StoreError>)
    ensures var t := SaveFinish(SaveStart(s), outcome);
      !t.saving && t.name == s.name && t.email == s.email && t.newPassword == s.newPassword && t.theme == s.theme
  {
  }

  /** What the delete button leads to: the panel stays, or the account is gone. */
  datatype DeleteOutcome =
    | Stay(state: AccountState)
    | LoggedOut(alert: string)

  const DeletedAlert := "Account deleted. Logging out."

  /**
   * `handleDeleteAccount`: once the account is gone the user is alerted and
   * logged out (the page then reloads); a cancelled request leaves the state
   * as it was and a failed one shows the error.
   */
  function DeleteAccount(s: AccountState, confirmed: bool, outcome: Result<(), StoreError>): (r: DeleteOutcome)
    ensures r.LoggedOut? <==> confirmed && outcome.Ok?
    ensures r.LoggedOut? ==> r.alert == DeletedAlert
    ensures !confirmed ==> r == Stay(s)
    ensures confirmed && outcome.Err? ==> r == Stay(s.(message := "Error deleting account: " + outcome.error.message))
  {
    if !confirmed then Stay(s)
    else match outcome
      case Ok(_) => LoggedOut(DeletedAlert)
      case Err(e) => Stay(s.(message := "Error deleting account: " + e.message))
  }
}
