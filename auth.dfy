/**
 * The facts about a Supabase user and about Supabase auth errors that several pages and
 * routes decide on: whether the user has a GitHub identity, and what the error of a
 * probing sign-in says about how the account signs in.
 */
module Auth {
  import opened Wrappers
  import opened Text

  /** One entry of `user.identities`. */
  datatype Identity = Identity(provider: string)

  /** How an awaited auth call ended: it returned, with the `message` of its `error`
      when there was one, or it threw. */
  datatype Call = Returned(error: Option<string>) | Threw

  /** The message a password sign-in fails with when the account has a password. */
  const InvalidCredentials: string := "Invalid login credentials"
  /** The two OTP failures read as "the account signs in through OAuth". */
  const EmailLinkInvalid: string := "Email link is invalid"
  const EmailInUse: string := "Email address already in use"

  /** `(identities || []).some(identity => identity.provider === 'github')`: a missing
      list counts as empty. */
  function HasGithubIdentity(identities: Option<seq<Identity>>): (b: bool)
    ensures b <==> identities.Some? && exists i :: 0 <= i < |identities.value| && identities.value[i].provider == "github"
    ensures identities.None? ==> !b
  {
    identities.Some? && HasGithub(identities.value)
  }

  /** Some identity of `ids` has provider `github`. */
  function HasGithub(ids: seq<Identity>): (b: bool)
    ensures b <==> exists i :: 0 <= i < |ids| && ids[i].provider == "github"
  {
    if ids == [] then false
    else ids[0].provider == "github" || (assert forall i :: 1 <= i < |ids| ==> ids[i] == ids[1..][i - 1]; HasGithub(ids[1..]))
  }

  /** A sign-in error from an account that has a password. */
  predicate IsPasswordUserError(message: string) {
    Contains(message, InvalidCredentials)
  }

  /** An OTP error that points at an OAuth account. */
  predicate IsOAuthError(message: string) {
    Contains(message, EmailLinkInvalid) || Contains(message, EmailInUse)
  }

  /** Adding identities never takes the GitHub mark away, and one GitHub identity is
      enough. */
  lemma {:induction false} HasGithubAppend(a: seq<Identity>, b: seq<Identity>)
    ensures HasGithub(a + b) <==> HasGithub(a) || HasGithub(b)
  {
    if HasGithub(a + b) {
      var i :| 0 <= i < |a + b| && (a + b)[i].provider == "github";
      if i < |a| { assert a[i] == (a + b)[i]; } else { assert b[i - |a|] == (a + b)[i]; }
    }
    if HasGithub(a) {
      var i :| 0 <= i < |a| && a[i].provider == "github";
      assert (a + b)[i] == a[i];
    }
    if HasGithub(b) {
      var i :| 0 <= i < |b| && b[i].provider == "github";
      assert (a + b)[|a| + i] == b[i];
    }
  }

  /** The probing messages are told apart as the pages expect: the credentials message is
      a password account's, and neither OTP phrase is. */
  lemma ProbeMessagesExample()
    ensures IsPasswordUserError(InvalidCredentials)
    ensures IsOAuthError(EmailLinkInvalid) && IsOAuthError(EmailInUse)
    ensures !IsPasswordUserError("")
    ensures !IsPasswordUserError(EmailLinkInvalid) && !IsPasswordUserError(EmailInUse)
  {
    assert OccursAt(InvalidCredentials, InvalidCredentials, 0);
    assert OccursAt(EmailLinkInvalid, EmailLinkInvalid, 0);
    assert OccursAt(EmailInUse, EmailInUse, 0);
    forall i: nat | i + |InvalidCredentials| <= |EmailInUse|
      ensures !OccursAt(EmailInUse, InvalidCredentials, i)
    {
      assert EmailInUse[i] != InvalidCredentials[0];
    }
  }
}
