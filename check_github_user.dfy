/**
 * `GET` of `app/api/check-github-user/route.ts`: guesses whether an email belongs to a
 * GitHub (OAuth) account from how a password sign-in with a dummy password, and then an
 * OTP sign-in, fail. The two auth calls are parameters; the OTP result is only read on the
 * path that makes that call.
 */
module CheckGithubUserRoute {
  import opened Wrappers
  import opened Auth

  /** The JSON bodies the route answers with; `userExists` is the `exists` field. */
  datatype Body =
    | ErrorBody(error: string)
    | Verdict(isGithubUser: bool, userExists: bool, providers: seq<string>)

  datatype Response = Response(status: int, body: Body)

  /** The route's answer for the `email` query parameter (`None` when absent). */
  function Get(email: Option<string>, signIn: Call, otp: Call): (r: Response)
    ensures email.None? || email == Some("") ==> r == Response(400, ErrorBody("Email is required"))
    ensures r.status == 200 <==> (email.Some? && email.value != "" && !Throws(signIn, otp))
    ensures r.status == 500 ==> r.body == ErrorBody("Server error")
    ensures r.status == 200 ==> r.body.Verdict?
  {
    if email.None? || email.value == "" then Response(400, ErrorBody("Email is required"))
    else match signIn
      case Threw => Response(500, ErrorBody("Server error"))
      case Returned(None) => Response(200, Verdict(false, true, ["unknown"]))
      case Returned(Some(msg)) =>
        var isPasswordUser := IsPasswordUserError(msg);
        if !isPasswordUser && otp.Threw? then Response(500, ErrorBody("Server error"))
        else if !isPasswordUser && otp.error.Some? && IsOAuthError(otp.error.value) then
          Response(200, Verdict(true, true, ["oauth"]))
        else Response(200, Verdict(false, isPasswordUser, if isPasswordUser then ["email"] else []))
  }

  /** The auth calls throw on the path taken: the sign-in, or the OTP call that follows a
      sign-in error other than the credentials one. */
  predicate Throws(signIn: Call, otp: Call) {
    signIn.Threw? || (signIn.error.Some? && !IsPasswordUserError(signIn.error.value) && otp.Threw?)
  }

  /** The decision table, for a non-empty email and calls that do not throw. */
  lemma GetDecisionTable(email: string, signIn: Call, otp: Call)
    requires email != [] && !Throws(signIn, otp)
    ensures var v := Get(Some(email), signIn, otp).body;
      var other := signIn.error.Some? && !IsPasswordUserError(signIn.error.value);
      var oauth := otp.Returned? && otp.error.Some? && IsOAuthError(otp.error.value);
      && (signIn.error.None? ==> v == Verdict(false, true, ["unknown"]))
      && (signIn.error.Some? && !other ==> v == Verdict(false, true, ["email"]))
      && (other && oauth ==> v == Verdict(true, true, ["oauth"]))
      && (other && !oauth ==> v == Verdict(false, false, []))
  {
  }

  /** Every verdict that says GitHub also says the account exists, and lists providers
      exactly when it says the account exists. */
  lemma GithubImpliesExists(email: Option<string>, signIn: Call, otp: Call)
    ensures var r := Get(email, signIn, otp);
      r.body.Verdict? ==> (r.body.isGithubUser ==> r.body.userExists) && (r.body.userExists <==> r.body.providers != [])
  {
  }

  /** Without a sign-in error, or with the credentials error, the OTP call is never made:
      the answer does not depend on what it would have given. */
  lemma OtpReadOnlyAfterOtherError(email: Option<string>, signIn: Call, otp: Call, otp': Call)
    requires signIn.Returned? && (signIn.error.None? || IsPasswordUserError(signIn.error.value))
    ensures Get(email, signIn, otp) == Get(email, signIn, otp')
  {
  }
}
