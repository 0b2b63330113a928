/**
 * `middleware` of `app/reset-password/middleware.ts`: it verifies the recovery token of a
 * `/reset-password` request and sends GitHub users to their own page. The `verifyOtp` call
 * is a parameter.
 */
module ResetMiddleware {
  import opened Wrappers
  import opened Auth

  /** What `verifyOtp` gives: an error flag and `data.user` (with its `identities`, which
      may be missing), or an exception. */
  datatype Verify =
    | Verified(error: bool, user: Option<Option<seq<Identity>>>)
    | VerifyThrew

  /** A redirect to a path, or `NextResponse.next()`. */
  datatype Outcome = Redirect(path: string) | Next

  const LoginPath: string := "/login"
  const GithubUserPath: string := "/reset-password/github-user"

  /** The middleware's answer for the `token` query parameter (`None` when absent). */
  function Middleware(token: Option<string>, verify: Verify): (o: Outcome)
    ensures o == Next <==>
      token.Some? && token.value != "" && verify.Verified? && !verify.error && verify.user.Some?
      && !HasGithubIdentity(verify.user.value)
    ensures o.Redirect? ==> o.path == LoginPath || o.path == GithubUserPath
  {
    if token.None? || token.value == "" then Redirect(LoginPath)
    else match verify
      case VerifyThrew => Redirect(LoginPath)
      case Verified(error, user) =>
        if error || user.None? then Redirect(LoginPath)
        else if HasGithubIdentity(user.value) then Redirect(GithubUserPath)
        else Next
  }

  /** Only a verified user with a GitHub identity reaches the GitHub-user page, and every
      such user does. */
  lemma GithubUsersRedirected(token: Option<string>, verify: Verify)
    ensures Middleware(token, verify) == Redirect(GithubUserPath) <==>
      token.Some? && token.value != "" && verify.Verified? && !verify.error && verify.user.Some?
      && HasGithubIdentity(verify.user.value)
  {
  }

  /** A missing or empty token, a failed or thrown verification, or a missing user all go
      to `/login`. */
  lemma FailuresGoToLogin(token: Option<string>, verify: Verify)
    requires token.None? || token == Some("") || verify.VerifyThrew?
      || (verify.Verified? && (verify.error || verify.user.None?))
    ensures Middleware(token, verify) == Redirect(LoginPath)
  {
  }
}
