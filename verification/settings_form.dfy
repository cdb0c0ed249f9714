/**
 * The settings form: the admin email and password-change fields with their
 * validation, the notification switches, and the save and cancel actions.
 */
module SettingsForm {
  import opened Text
  import opened Wrappers

  datatype FormData = FormData(
    adminEmail: string,
    currentPassword: string,
    newPassword: string,
    confirmPassword: string,
    lowStockAlerts: bool,
    orderUpdates: bool,
    emailNotifications: bool)

  const DefaultForm := FormData("admin@inventorypro.com", "", "", "", true, true, false)

  /** The text inputs, by their `name` attribute. */
  datatype Field = AdminEmail | CurrentPassword | NewPassword | ConfirmPassword

  /** The switches. */
  datatype Switch = LowStockAlerts | OrderUpdates | EmailNotifications

  datatype SettingsState = SettingsState(form: FormData, errors: map<Field, string>)

  const InitialState := SettingsState(DefaultForm, map[])

  // ---------------------------------------------------------------------
  // The email pattern `\S+@\S+\.\S+`, matched anywhere in the text.
  // ---------------------------------------------------------------------

  /** `s[i..j]` holds no whitespace. */
  ghost predicate NoSpace(s: string, i: int, j: int)
    requires 0 <= i <= j <= |s|
  {
    forall k :: i <= k < j ==> !IsWhitespace(s[k])
  }

  /** `s[a..e]` matches the pattern, with the `@` at `p` and the `.` at `d`. */
  ghost predicate MatchAt(s: string, a: int, p: int, d: int, e: int) {
    && 0 <= a < p && p + 1 < d && d + 1 < e <= |s|
    && s[p] == '@' && s[d] == '.'
    && NoSpace(s, a, p) && NoSpace(s, p + 1, d) && NoSpace(s, d + 1, e)
  }

  /** `/\S+@\S+\.\S+/.test(s)`: some substring matches. */
  ghost predicate PatternMatches(s: string) {
    exists a, p, d, e :: MatchAt(s, a, p, d, e)
  }

  /** From `d` on, within one run of non-space characters, a `.` followed by a non-space. */
  function DotFrom(s: string, d: nat): bool
    decreases |s| - d
  {
    if d + 1 >= |s| || IsWhitespace(s[d]) then false
    else if s[d] == '.' && !IsWhitespace(s[d + 1]) then true
    else DotFrom(s, d + 1)
  }

  /** `s[p]` is an `@` that the pattern can use. */
  predicate AtOk(s: string, p: nat) {
    && 1 <= p && p + 1 < |s|
    && s[p] == '@' && !IsWhitespace(s[p - 1]) && !IsWhitespace(s[p + 1])
    && DotFrom(s, p + 2)
  }

  function AtFrom(s: string, i: nat): bool
    decreases |s| - i
  {
    if i >= |s| then false else AtOk(s, i) || AtFrom(s, i + 1)
  }

  /** The pattern test as a scan for a usable `@`. */
  function ValidEmail(s: string): bool {
    AtFrom(s, 0)
  }

  lemma {:induction false} DotFromSpec(s: string, d: nat)
    ensures DotFrom(s, d) <==> exists x :: d <= x && x + 1 < |s| && s[x] == '.' && NoSpace(s, d, x + 2)
    decreases |s| - d
  {
    if d + 1 >= |s| || IsWhitespace(s[d]) {
    } else if s[d] == '.' && !IsWhitespace(s[d + 1]) {
      assert NoSpace(s, d, d + 2);
    } else {
      DotFromSpec(s, d + 1);
      if exists x :: d <= x && x + 1 < |s| && s[x] == '.' && NoSpace(s, d, x + 2) {
        var x :| d <= x && x + 1 < |s| && s[x] == '.' && NoSpace(s, d, x + 2);
        assert d + 1 <= x && NoSpace(s, d + 1, x + 2);
      }
    }
  }

  lemma {:induction false} AtFromSpec(s: string, i: nat)
    ensures AtFrom(s, i) <==> exists p: nat :: i <= p && AtOk(s, p)
    decreases |s| - i
  {
    if i < |s| {
      AtFromSpec(s, i + 1);
      if exists p: nat :: i <= p && AtOk(s, p) {
        var p: nat :| i <= p && AtOk(s, p);
        if p != i {
          assert i + 1 <= p;
        }
      }
    }
  }

  /** The scan accepts exactly the texts the pattern matches somewhere. */
  lemma ValidEmailIff(s: string)
    ensures ValidEmail(s) <==> PatternMatches(s)
  {
    AtFromSpec(s, 0);
    if ValidEmail(s) {
      var p: nat :| AtOk(s, p);
      DotFromSpec(s, p + 2);
      var d :| p + 2 <= d && d + 1 < |s| && s[d] == '.' && NoSpace(s, p + 2, d + 2);
      assert MatchAt(s, p - 1, p, d, d + 2);
    }
    if PatternMatches(s) {
      var a, p, d, e :| MatchAt(s, a, p, d, e);
      assert NoSpace(s, p + 2, d + 2);
      DotFromSpec(s, p + 2);
      assert AtOk(s, p);
    }
  }

  // ---------------------------------------------------------------------
  // Validation and the handlers.
  // ---------------------------------------------------------------------

  /** `validateForm`'s error record. */
  function Validate(f: FormData): (errs: map<Field, string>)
    ensures f.adminEmail == "" <==> AdminEmail in errs && errs[AdminEmail] == "Admin email is required"
    ensures AdminEmail in errs <==> f.adminEmail == "" || !PatternMatches(f.adminEmail)
    ensures AdminEmail in errs && f.adminEmail != "" ==> errs[AdminEmail] == "Please enter a valid email address"
    ensures NewPassword in errs <==> f.newPassword != "" && |f.newPassword| < 6
    ensures ConfirmPassword in errs <==> f.newPassword != "" && f.newPassword != f.confirmPassword
    ensures CurrentPassword in errs <==> f.newPassword != "" && f.currentPassword == ""
    ensures NewPassword in errs ==> errs[NewPassword] == "Password must be at least 6 characters"
    ensures ConfirmPassword in errs ==> errs[ConfirmPassword] == "Passwords do not match"
    ensures CurrentPassword in errs ==> errs[CurrentPassword] == "Current password is required to set new password"
  {
    ValidEmailIff(f.adminEmail);
    var e1: map<Field, string> :=
      if f.adminEmail == "" then map[AdminEmail := "Admin email is required"]
      else if !ValidEmail(f.adminEmail) then map[AdminEmail := "Please enter a valid email address"]
      else map[];
    var e2 := if f.newPassword != "" && |f.newPassword| < 6 then e1[NewPassword := "Password must be at least 6 characters"] else e1;
    var e3 := if f.newPassword != "" && f.newPassword != f.confirmPassword then e2[ConfirmPassword := "Passwords do not match"] else e2;
    if f.newPassword != "" && f.currentPassword == "" then e3[CurrentPassword := "Current password is required to set new password"] else e3
  }

  /** An empty new password never yields a password error, whatever the other fields hold. */
  lemma NoNewPasswordNoPasswordErrors(f: FormData)
    requires f.newPassword == ""
    ensures Validate(f).Keys <= {AdminEmail}
  {
  }

  /** `handleInputChange`: store the value; blank the field's error if it shows one. */
  function InputChange(s: SettingsState, name: Field, value: string): (t: SettingsState)
    ensures forall g :: g != name && g in s.errors ==> g in t.errors && t.errors[g] == s.errors[g]
    ensures forall g :: g in t.errors ==> g in s.errors
    ensures name in s.errors <==> name in t.errors
    ensures name in s.errors ==> t.errors[name] == ""
    ensures FieldValue(t.form, name) == value
  {
    var form := match name
      case AdminEmail => s.form.(adminEmail := value)
      case CurrentPassword => s.form.(currentPassword := value)
      case NewPassword => s.form.(newPassword := value)
      case ConfirmPassword => s.form.(confirmPassword := value);
    var errors := if name in s.errors && s.errors[name] != "" then s.errors[name := ""] else s.errors;
    SettingsState(form, errors)
  }

  /** The value of a text field. */
  function FieldValue(f: FormData, name: Field): string {
    match name
    case AdminEmail => f.adminEmail
    case CurrentPassword => f.currentPassword
    case NewPassword => f.newPassword
    case ConfirmPassword => f.confirmPassword
  }

  /** Editing a field changes only that field. */
  lemma InputChangeOthers(s: SettingsState, name: Field, value: string, other: Field)
    requires other != name
    ensures FieldValue(InputChange(s, name, value).form, other) == FieldValue(s.form, other)
    ensures var f := InputChange(s, name, value).form;
      f.lowStockAlerts == s.form.lowStockAlerts && f.orderUpdates == s.form.orderUpdates
      && f.emailNotifications == s.form.emailNotifications
  {
  }

  /** `handleSwitchChange` */
  function SwitchChange(s: SettingsState, name: Switch, checked: bool): (t: SettingsState)
    ensures t.errors == s.errors
    ensures name == LowStockAlerts ==> t.form == s.form.(lowStockAlerts := checked)
    ensures name == OrderUpdates ==> t.form == s.form.(orderUpdates := checked)
    ensures name == EmailNotifications ==> t.form == s.form.(emailNotifications := checked)
  {
    match name
    case LowStockAlerts => s.(form := s.form.(lowStockAlerts := checked))
    case OrderUpdates => s.(form := s.form.(orderUpdates := checked))
    case EmailNotifications => s.(form := s.form.(emailNotifications := checked))
  }

  const SavedAlert := "Settings saved successfully!"

  /**
   * `handleSave`: show the new errors; on success also alert that the
   * settings were saved and blank the three password fields.
   */
  function Save(s: SettingsState): (r: (SettingsState, Option<string>))
    ensures r.0.errors == Validate(s.form)
    ensures r.1.Some? <==> |Validate(s.form)| == 0
    ensures r.1.Some? ==> r.1.value == SavedAlert
    ensures |Validate(s.form)| == 0 ==> r.0.form == s.form.(currentPassword := "", newPassword := "", confirmPassword := "")
    ensures |Validate(s.form)| > 0 ==> r.0.form == s.form
  {
    var errs := Validate(s.form);
    if |errs| == 0 then (SettingsState(s.form.(currentPassword := "", newPassword := "", confirmPassword := ""), errs), Some(SavedAlert))
    else (SettingsState(s.form, errs), None)
  }

  /** A form passes exactly when its email matches and any new password is long enough, confirmed and authorised. */
  lemma SaveValidIff(f: FormData)
    ensures |Validate(f)| == 0 <==>
              && f.adminEmail != "" && PatternMatches(f.adminEmail)
              && (f.newPassword != "" ==> |f.newPassword| >= 6 && f.newPassword == f.confirmPassword && f.currentPassword != "")
  {
    var errs := Validate(f);
    if |errs| == 0 {
      assert AdminEmail !in errs && NewPassword !in errs && ConfirmPassword !in errs && CurrentPassword !in errs;
    } else {
      var k :| k in errs;
    }
  }

  /** `handleCancel` */
  function Cancel(s: SettingsState): (t: SettingsState)
    ensures t.form.adminEmail == "admin@inventorypro.com"
    ensures t.form.currentPassword == "" && t.form.newPassword == "" && t.form.confirmPassword == ""
    ensures t.form.lowStockAlerts && t.form.orderUpdates && !t.form.emailNotifications
    ensures |t.errors| == 0
  {
    InitialState
  }

  /** The default form passes validation. */
  lemma DefaultFormValid()
    ensures |Validate(DefaultForm)| == 0
  {
    var s := DefaultForm.adminEmail;
    assert MatchAt(s, 0, 5, 18, 22) by {
      assert s[5] == '@' && s[18] == '.';
    }
    SaveValidIff(DefaultForm);
  }
}
