/**
 * `app/reset-password/page.tsx`: the page a password-recovery link opens. Auth events mark
 * the link as valid and detect GitHub users; a submit sends GitHub users to `/login`,
 * checks the new password in a fixed order and only then calls `updateUser`, whose outcome
 * is a parameter. What the page shows follows a fixed priority over its flags.
 */
module ResetPasswordPage {
  import opened Wrappers
  import opened Text
  import opened Auth
  import ResetMiddleware

  const EnterPassword: string := "Please enter a new password"
  const PasswordsDiffer: string := "Passwords do not match"
  const TooShort: string := "Password must be at least 8 characters"
  const ResetFailed: string := "An error occurred while resetting your password"
  const InvalidToken: string := "Invalid or expired token"
  const LoginPath: string := "/login"

  /** The auth events the listener tells apart. */
  datatype AuthEvent = PasswordRecovery | SignedIn | OtherEvent(name: string)

  /** The error of the first check the new password fails, or `None` when it passes. */
  function Validate(password: string, confirm: string): (e: Option<string>)
    ensures e.None? <==> password != [] && password == confirm && |password| >= 8
    ensures e == Some(EnterPassword) <==> password == []
    ensures e == Some(PasswordsDiffer) <==> password != [] && password != confirm
    ensures e == Some(TooShort) <==> password != [] && password == confirm && |password| < 8
  {
    if password == [] then Some(EnterPassword)
    else if password != confirm then Some(PasswordsDiffer)
    else if |password| < 8 then Some(TooShort)
    else None
  }

  /** The views, in the order the page tries them. */
  datatype View =
    | Verifying
    | InvalidLink(reason: string)
    | GithubNotice
    | ResetDone
    | ResetForm(error: string)

  /** What the page renders for its flags. */
  function Render(isChecking: bool, isTokenValid: bool, isGithubUser: bool, success: bool, error: string): (v: View)
    ensures v == Verifying <==> isChecking
    ensures v.InvalidLink? <==> !isChecking && !isTokenValid
    ensures v.InvalidLink? ==> v.reason == OrElse(error, InvalidToken)
    ensures v == GithubNotice <==> !isChecking && isTokenValid && isGithubUser
    ensures v == ResetDone <==> !isChecking && isTokenValid && !isGithubUser && success
    ensures v.ResetForm? <==> !isChecking && isTokenValid && !isGithubUser && !success
    ensures v.ResetForm? ==> v.error == error
  {
    if isChecking then Verifying
    else if !isTokenValid then InvalidLink(OrElse(error, InvalidToken))
    else if isGithubUser then GithubNotice
    else if success then ResetDone
    else ResetForm(error)
  }

  /** The page's state. */
  class ResetPasswordForm {
    var isLoading: bool
    var password: string
    var confirmPassword: string
    var error: string
    var success: bool
    var isGithubUser: bool
    var isTokenValid: bool
    var isChecking: bool

    constructor ()
      ensures !isLoading && password == [] && confirmPassword == [] && error == []
      ensures !success && !isGithubUser && isTokenValid && isChecking
    {
      isLoading, password, confirmPassword, error := false, [], [], [];
      success, isGithubUser, isTokenValid, isChecking := false, false, true, true;
    }

    function Shown(): View
      reads this
    {
      Render(isChecking, isTokenValid, isGithubUser, success, error)
    }

    /** The `onAuthStateChange` listener for `event`; `user` is the session's user, with its
        identities. Other events start the two-second session check, which is not part of
        this model, and change nothing here. */
    method OnAuthEvent(event: AuthEvent, user: Option<Option<seq<Identity>>>)
      modifies this
      ensures event.OtherEvent? ==>
        isTokenValid == old(isTokenValid) && isChecking == old(isChecking) && isGithubUser == old(isGithubUser)
      ensures !event.OtherEvent? ==> isTokenValid && !isChecking
      ensures !event.OtherEvent? ==>
        isGithubUser == (old(isGithubUser) || (user.Some? && HasGithubIdentity(user.value)))
      ensures password == old(password) && confirmPassword == old(confirmPassword)
      ensures error == old(error) && success == old(success) && isLoading == old(isLoading)
    {
      if event.OtherEvent? {
        return;
      }
      isTokenValid := true;
      isChecking := false;
      if user.Some? && HasGithubIdentity(user.value) {
        isGithubUser := true;
      }
    }

    /** `handleSubmit`. `redirect` is the `router.push` target (for a success, the one the
        three-second timer makes); `called` is whether `updateUser` was called; `outcome` is
        what it gave (`None` on success, else the error's message). */
    method HandleSubmit(outcome: Option<string>) returns (redirect: Option<string>, called: bool)
      modifies this
      ensures password == old(password) && confirmPassword == old(confirmPassword)
      ensures isGithubUser == old(isGithubUser) && isTokenValid == old(isTokenValid) && isChecking == old(isChecking)
      ensures old(isGithubUser) ==>
        redirect == Some(LoginPath) && !called && error == [] && success == old(success) && isLoading == old(isLoading)
      ensures var v := Validate(old(password), old(confirmPassword));
        && (!old(isGithubUser) && v.Some? ==>
              redirect.None? && !called && error == v.value && success == old(success) && isLoading == old(isLoading))
        && (!old(isGithubUser) && v.None? ==> called && !isLoading)
        && (!old(isGithubUser) && v.None? && outcome.None? ==>
              success && error == [] && redirect == Some(LoginPath))
        && (!old(isGithubUser) && v.None? && outcome.Some? ==>
              success == old(success) && error == OrElse(outcome.value, ResetFailed) && redirect.None?)
    {
      error := [];
      if isGithubUser {
        return Some(LoginPath), false;
      }
      if password == [] {
        error := EnterPassword;
        return None, false;
      }
      if password != confirmPassword {
        error := PasswordsDiffer;
        return None, false;
      }
      if |password| < 8 {
        error := TooShort;
        return None, false;
      }
      isLoading := true;
      called := true;
      if outcome.None? {
        success := true;
        redirect := Some(LoginPath);
      } else {
        error := OrElse(outcome.value, ResetFailed);
        redirect := None;
      }
      isLoading := false;
    }
  }

  /** Once a recovery event arrives for a GitHub user, the page shows the GitHub notice and
      never the form, whatever the other flags say. */
  lemma GithubUserSeesNotice(success: bool, error: string)
    ensures Render(false, true, true, success, error) == GithubNotice
  {
  }

  /** A request the reset middleware lets through carries a user without a GitHub identity.
      Given that user, the contract of `OnAuthEvent` keeps the GitHub flag as it was. */
  lemma PassedMiddlewareIsNotGithub(token: Option<string>, ids: Option<seq<Identity>>)
    requires ResetMiddleware.Middleware(token, ResetMiddleware.Verified(false, Some(ids))) == ResetMiddleware.Next
    ensures !HasGithubIdentity(ids)
  {
  }
}
