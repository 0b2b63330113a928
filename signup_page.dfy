/**
 * `handleSubmit` of `app/signup/page.tsx`: the email sign-up form checks its fields in a
 * fixed order, stops at the first failure, and only then calls `signUp`, whose outcome is
 * a parameter (`None` on success, else the error's message).
 */
module SignupPage {
  import opened Wrappers
  import opened Text

  const FillAllFields: string := "Please fill in all fields"
  const PasswordsDiffer: string := "Passwords do not match"
  const TooShort: string := "Password must be at least 6 characters long"
  const CheckEmail: string := "Check your email for the confirmation link!"
  const SignupFailed: string := "An error occurred during signup"

  /** The error of the first check the fields fail, or `None` when they pass. */
  function Validate(email: string, password: string, confirm: string): (e: Option<string>)
    ensures e.None? <==> email != [] && password != [] && confirm != [] && password == confirm && |password| >= 6
    ensures e == Some(FillAllFields) <==> email == [] || password == [] || confirm == []
    ensures e == Some(PasswordsDiffer) <==>
      email != [] && password != [] && confirm != [] && password != confirm
    ensures e == Some(TooShort) <==>
      email != [] && password != [] && confirm != [] && password == confirm && |password| < 6
  {
    if email == [] || password == [] || confirm == [] then Some(FillAllFields)
    else if password != confirm then Some(PasswordsDiffer)
    else if |password| < 6 then Some(TooShort)
    else None
  }

  /** The form's state. */
  class SignupForm {
    var isLoading: bool
    var email: string
    var password: string
    var confirmPassword: string
    var error: string
    var message: string

    constructor ()
      ensures !isLoading && email == [] && password == [] && confirmPassword == []
      ensures error == [] && message == []
    {
      isLoading, email, password, confirmPassword, error, message := false, [], [], [], [], [];
    }

    /** One submit. `called` is whether `signUp` was called; `outcome` is what it gave. */
    method HandleSubmit(outcome: Option<string>) returns (called: bool)
      modifies this
      ensures email == old(email) && password == old(password) && confirmPassword == old(confirmPassword)
      ensures var v := Validate(old(email), old(password), old(confirmPassword));
        && (called <==> v.None?)
        && (v.Some? ==> error == v.value && message == [] && isLoading == old(isLoading))
        && (v.None? ==> !isLoading)
        && (v.None? && outcome.None? ==> error == [] && message == CheckEmail)
        && (v.None? && outcome.Some? ==> error == OrElse(outcome.value, SignupFailed) && message == [])
    {
      error := [];
      message := [];
      if email == [] || password == [] || confirmPassword == [] {
        error := FillAllFields;
        return false;
      }
      if password != confirmPassword {
        error := PasswordsDiffer;
        return false;
      }
      if |password| < 6 {
        error := TooShort;
        return false;
      }
      isLoading := true;
      called := true;
      if outcome.None? {
        message := CheckEmail;
      } else {
        error := OrElse(outcome.value, SignupFailed);
      }
      isLoading := false;
    }
  }

  /** Two empty passwords are reported as missing fields, never as too short. */
  lemma EmptyPasswordsAreMissingFields(email: string)
    ensures Validate(email, [], []) == Some(FillAllFields)
  {
  }
}
