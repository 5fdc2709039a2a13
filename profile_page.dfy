/**
 * The profile page: the profile and password forms with their rules, the
 * two submit handlers, the tab and show-password toggles, and the theme
 * switch with its notice.
 */
module ProfilePage {

  import opened Wrappers
  import opened FieldChecks
  import opened Patterns
  import opened Host
  import opened UiSlice

  /** The signed-in user's public fields. */
  datatype User = User(name: string, email: string)

  datatype ProfileForm = ProfileForm(name: string, email: string)

  datatype ProfileErrors = ProfileErrors(name: Check, email: Check)

  const NAME_REQUIRED: string := "Name is required"
  const NAME_SHORT: string := "Name must be at least 2 characters"

  /** The profile form starts from the signed-in user, or empty without one. */
  function DefaultProfile(user: Option<User>): (f: ProfileForm)
    ensures user.None? ==> f == ProfileForm("", "")
    ensures user.Some? ==> f == ProfileForm(user.value.name, user.value.email)
  {
    match user
    case None => ProfileForm("", "")
    case Some(u) => ProfileForm(u.name, u.email)
  }

  /** Name: required and at least 2 characters; email: required and an address. */
  function ValidateProfile(f: ProfileForm): (e: ProfileErrors)
    ensures e.name.Valid? <==> |f.name| >= 2
    ensures e.name == Invalid(NAME_REQUIRED) <==> f.name == ""
    ensures e.name == Invalid(NAME_SHORT) <==> f.name != "" && |f.name| < 2
    ensures e.email.Valid? <==> InEmailLanguage(f.email)
    ensures e.email == Invalid(EMAIL_REQUIRED) <==> f.email == ""
    ensures e.email == Invalid(EMAIL_INVALID) <==> f.email != "" && !InEmailLanguage(f.email)
  {
    ProfileErrors(RequiredMinLength(f.name, 2, NAME_REQUIRED, NAME_SHORT), ValidateEmail(f.email))
  }

  predicate ProfileAccepted(e: ProfileErrors) { e.name.Valid? && e.email.Valid? }

  datatype PasswordForm = PasswordForm(current: string, next: string, confirm: string)

  const EMPTY_PASSWORD_FORM: PasswordForm := PasswordForm("", "", "")

  datatype PasswordErrors = PasswordErrors(current: Check, next: Check, confirm: Check)

  const CURRENT_REQUIRED: string := "Current password is required"
  const CONFIRM_REQUIRED: string := "Please confirm your new password"
  const CONFIRM_MISMATCH: string := "Passwords do not match"

  /** The confirmation: required, then equal to the new password as typed. */
  function ValidateConfirm(confirm: string, newPassword: string): (c: Check)
    ensures c.Valid? <==> confirm != "" && confirm == newPassword
    ensures c == Invalid(CONFIRM_REQUIRED) <==> confirm == ""
    ensures confirm != "" && confirm != newPassword ==> c == Invalid(CONFIRM_MISMATCH)
  {
    if confirm == "" then Invalid(CONFIRM_REQUIRED)
    else if confirm != newPassword then Invalid(CONFIRM_MISMATCH)
    else Valid
  }

  function ValidatePasswordForm(f: PasswordForm): (e: PasswordErrors)
    ensures e.current.Valid? <==> f.current != ""
    ensures e.next.Valid? <==> InPasswordLanguage(f.next)
    ensures e.confirm.Valid? <==> f.confirm != "" && f.confirm == f.next
  {
    PasswordErrors(Required(f.current, CURRENT_REQUIRED), ValidateNewPassword(f.next), ValidateConfirm(f.confirm, f.next))
  }

  /**
   * Submitting the password form: when every field passes, the request
   * carries the current and the new password and never the confirmation.
   */
  function PasswordRequest(f: PasswordForm): (r: Result<ApiCall, PasswordErrors>)
    ensures r.Success? <==> f.current != "" && InPasswordLanguage(f.next) && f.confirm == f.next
    ensures r.Success? ==> r.value == ChangePassword(f.current, f.next)
    ensures r.Failure? ==> r.error == ValidatePasswordForm(f)
  {
    var e := ValidatePasswordForm(f);
    if e.current.Valid? && e.next.Valid? && e.confirm.Valid? then
      Success(ChangePassword(f.current, f.next))
    else Failure(e)
  }

  /** A request is only ever sent for a new password the pattern accepts, confirmed exactly. */
  lemma RequestedPasswordIsStrong(f: PasswordForm)
    requires PasswordRequest(f).Success?
    ensures var c := PasswordRequest(f).value;
      c.newPassword == f.confirm && |c.newPassword| >= 8 && c.currentPassword != ""
  {
    PasswordRecogniserCorrect(f.next);
  }

  const PROFILE_UPDATED: string := "Profile updated successfully!"
  const PROFILE_FAILED: string := "Failed to update profile"
  const PASSWORD_CHANGED: string := "Password changed successfully!"
  const PASSWORD_FAILED: string := "Failed to change password"

  /** The tabs, in the order they are listed. */
  const TABS: seq<string> := ["profile", "security", "preferences", "data"]

  /** The three eye buttons next to the password fields. */
  datatype Secret = CurrentSecret | NewSecret | ConfirmSecret

  class ProfileView {
    var activeTab: string
    var showCurrent: bool
    var showNew: bool
    var showConfirm: bool
    var loading: bool
    var passwordLoading: bool
    var profileForm: ProfileForm
    var passwordForm: PasswordForm

    constructor (user: Option<User>)
      ensures activeTab == TABS[0]
      ensures !showCurrent && !showNew && !showConfirm && !loading && !passwordLoading
      ensures profileForm == DefaultProfile(user) && passwordForm == EMPTY_PASSWORD_FORM
    {
      activeTab := "profile";
      showCurrent, showNew, showConfirm := false, false, false;
      loading, passwordLoading := false, false;
      profileForm := DefaultProfile(user);
      passwordForm := EMPTY_PASSWORD_FORM;
    }

    /** The effect that refills the profile form whenever the signed-in user changes. */
    method SyncUser(user: User)
      modifies this
      ensures profileForm == DefaultProfile(Some(user))
      ensures passwordForm == old(passwordForm) && activeTab == old(activeTab)
      ensures loading == old(loading) && passwordLoading == old(passwordLoading)
      ensures showCurrent == old(showCurrent) && showNew == old(showNew) && showConfirm == old(showConfirm)
    {
      profileForm := ProfileForm(user.name, user.email);
    }

    method SelectTab(id: string)
      modifies this
      ensures activeTab == id
      ensures profileForm == old(profileForm) && passwordForm == old(passwordForm)
      ensures showCurrent == old(showCurrent) && showNew == old(showNew) && showConfirm == old(showConfirm)
      ensures loading == old(loading) && passwordLoading == old(passwordLoading)
    {
      activeTab := id;
    }

    /** An eye button flips whether its own field is shown in clear, and only that. */
    method ToggleShow(which: Secret)
      modifies this
      ensures showCurrent == (if which == CurrentSecret then !old(showCurrent) else old(showCurrent))
      ensures showNew == (if which == NewSecret then !old(showNew) else old(showNew))
      ensures showConfirm == (if which == ConfirmSecret then !old(showConfirm) else old(showConfirm))
      ensures activeTab == old(activeTab) && passwordForm == old(passwordForm) && profileForm == old(profileForm)
      ensures loading == old(loading) && passwordLoading == old(passwordLoading)
    {
      match which {
        case CurrentSecret => showCurrent := !showCurrent;
        case NewSecret => showNew := !showNew;
        case ConfirmSecret => showConfirm := !showConfirm;
      }
    }

    /** Typing into the password form. */
    method EditPassword(f: PasswordForm)
      modifies this
      ensures passwordForm == f && profileForm == old(profileForm) && passwordLoading == old(passwordLoading)
      ensures activeTab == old(activeTab) && loading == old(loading)
      ensures showCurrent == old(showCurrent) && showNew == old(showNew) && showConfirm == old(showConfirm)
    {
      passwordForm := f;
    }

    /**
     * Submitting the profile form: a form that passes sends the name and
     * email; either outcome ends with the button enabled again.
     */
    method OnProfileSubmit(b: Browser, succeeded: bool) returns (notice: Option<string>)
      modifies this, b
      ensures var e := ValidateProfile(profileForm);
        if ProfileAccepted(e) then
          b.trace == old(b.trace) + [Call(UpdateProfile(profileForm.name, profileForm.email))]
          && !loading
          && notice == Some(if succeeded then PROFILE_UPDATED else PROFILE_FAILED)
        else b.trace == old(b.trace) && loading == old(loading) && notice == None
      ensures profileForm == old(profileForm) && passwordForm == old(passwordForm)
      ensures passwordLoading == old(passwordLoading) && activeTab == old(activeTab)
      ensures showCurrent == old(showCurrent) && showNew == old(showNew) && showConfirm == old(showConfirm)
      ensures b.storage == old(b.storage) && b.darkClass == old(b.darkClass) && b.pathname == old(b.pathname)
    {
      if !ProfileAccepted(ValidateProfile(profileForm)) {
        return None;
      }
      loading := true;
      b.Emit(Call(UpdateProfile(profileForm.name, profileForm.email)));
      notice := Some(if succeeded then PROFILE_UPDATED else PROFILE_FAILED);
      loading := false;
    }

    /**
     * Submitting the password form: a form that passes sends the change
     * request; the form is cleared only when it succeeds, and the button is
     * enabled again either way.
     */
    method OnPasswordSubmit(b: Browser, succeeded: bool) returns (notice: Option<string>)
      modifies this, b
      ensures match PasswordRequest(old(passwordForm))
        case Success(call) =>
          b.trace == old(b.trace) + [Call(call)]
          && !passwordLoading
          && passwordForm == (if succeeded then EMPTY_PASSWORD_FORM else old(passwordForm))
          && notice == Some(if succeeded then PASSWORD_CHANGED else PASSWORD_FAILED)
        case Failure(_) =>
          b.trace == old(b.trace) && passwordLoading == old(passwordLoading)
          && passwordForm == old(passwordForm) && notice == None
      ensures profileForm == old(profileForm) && loading == old(loading) && activeTab == old(activeTab)
      ensures showCurrent == old(showCurrent) && showNew == old(showNew) && showConfirm == old(showConfirm)
      ensures b.storage == old(b.storage) && b.darkClass == old(b.darkClass) && b.pathname == old(b.pathname)
    {
      match PasswordRequest(passwordForm) {
        case Failure(_) =>
          return None;
        case Success(call) =>
          passwordLoading := true;
          b.Emit(Call(call));
          if succeeded {
            notice := Some(PASSWORD_CHANGED);
            passwordForm := EMPTY_PASSWORD_FORM;
          } else {
            notice := Some(PASSWORD_FAILED);
          }
          passwordLoading := false;
      }
    }

    /** The theme switch: toggles the store's theme and announces the theme now in force. */
    method HandleThemeToggle(ui: UiStore, b: Browser) returns (notice: string)
      modifies ui, b
      ensures ui.State() == Reduce(old(ui.State()), ToggleTheme)
      ensures ThemeApplied(ui.State(), b.storage, b.darkClass)
      ensures b.storage == old(b.storage)["theme" := ui.theme] && b.pathname == old(b.pathname)
      ensures b.trace == old(b.trace) + [SetItem("theme", ui.theme), if ui.theme == DARK then AddDarkClass else RemoveDarkClass]
      ensures notice == "Switched to " + NextTheme(old(ui.theme)) + " mode"
      ensures notice == "Switched to " + ui.theme + " mode"
    {
      notice := "Switched to " + (if ui.theme == LIGHT then DARK else LIGHT) + " mode";
      ui.ToggleThemeReducer(b);
    }
  }
}
