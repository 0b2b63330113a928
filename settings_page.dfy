/**
 * `app/settings/page.tsx`: the account settings page, its loading and signed-out gate,
 * and the password and profile forms. Both forms' updates are placeholders that wait a
 * second and then succeed.
 */
module SettingsPage {
  import opened Wrappers
  import SignupPage

  const PasswordUpdated: string := "Password updated successfully!"
  const ProfileUpdated: string := "Profile updated successfully!"

  /** What the page shows. */
  datatype Gate = LoadingView | SignInRequired | SettingsView

  /** The loading view wins; then a signed-out user gets the sign-in prompt. */
  function Render(loading: bool, hasUser: bool): (g: Gate)
    ensures g == LoadingView <==> loading
    ensures g == SignInRequired <==> !loading && !hasUser
    ensures g == SettingsView <==> !loading && hasUser
  {
    if loading then LoadingView else if !hasUser then SignInRequired else SettingsView
  }

  /** The error of the first check the password fields fail: a mismatch before the length;
      there is no separate emptiness check. */
  function Validate(password: string, confirm: string): (e: Option<string>)
    ensures e.None? <==> password == confirm && |password| >= 6
    ensures e == Some(SignupPage.PasswordsDiffer) <==> password != confirm
    ensures e == Some(SignupPage.TooShort) <==> password == confirm && |password| < 6
  {
    if password != confirm then Some(SignupPage.PasswordsDiffer)
    else if |password| < 6 then Some(SignupPage.TooShort)
    else None
  }

  /** The page's form state. */
  class SettingsForm {
    var password: string
    var confirmPassword: string
    var message: string
    var error: string
    var isUpdating: bool

    constructor ()
      ensures password == [] && confirmPassword == [] && message == [] && error == [] && !isUpdating
    {
      password, confirmPassword, message, error, isUpdating := [], [], [], [], false;
    }

    /** `handleUpdatePassword`: on a failed check only the error is set; otherwise the
        success message is shown and both fields are cleared. */
    method HandleUpdatePassword()
      modifies this
      ensures var v := Validate(old(password), old(confirmPassword));
        && (v.Some? ==>
              error == v.value && message == [] && password == old(password)
              && confirmPassword == old(confirmPassword) && isUpdating == old(isUpdating))
        && (v.None? ==>
              error == [] && message == PasswordUpdated && password == []
              && confirmPassword == [] && !isUpdating)
    {
      error := [];
      message := [];
      if password != confirmPassword {
        error := SignupPage.PasswordsDiffer;
        return;
      }
      if |password| < 6 {
        error := SignupPage.TooShort;
        return;
      }
      isUpdating := true;
      message := PasswordUpdated;
      password := [];
      confirmPassword := [];
      isUpdating := false;
    }

    /** `handleUpdateProfile`: always ends with the success message. */
    method HandleUpdateProfile()
      modifies this
      ensures error == [] && message == ProfileUpdated && !isUpdating
      ensures password == old(password) && confirmPassword == old(confirmPassword)
    {
      error := [];
      message := [];
      isUpdating := true;
      message := ProfileUpdated;
      isUpdating := false;
    }
  }

  /** Two equal empty passwords fail the length rule, where the sign-up form calls them
      missing; a password the sign-up form accepts is accepted here. */
  lemma SettingsAndSignupDisagreeOnEmpty(email: string, password: string)
    ensures Validate([], []) == Some(SignupPage.TooShort)
    ensures SignupPage.Validate(email, [], []) == Some(SignupPage.FillAllFields)
    ensures SignupPage.Validate(email, password, password).None? ==> Validate(password, password).None?
  {
  }
}
