/**
 * `app/forgot-password/page.tsx`: the reset-link request form. A submit checks the email,
 * then a one-minute cooldown that starts only after a reset link was sent, then probes
 * whether the account is a GitHub one (and stops if so), and only then asks for the reset
 * email. The auth calls and the clock are parameters.
 */
module ForgotPasswordPage {
  import opened Wrappers
  import opened Text
  import opened Auth
  import CheckGithubUserRoute

  const Cooldown: int := 60000
  const EnterEmail: string := "Please enter your email address"
  const WaitAMinute: string := "Please wait a minute before trying again"
  const GithubAccount: string := "This email is associated with GitHub login. Please sign in with GitHub instead."
  const ResetFailed: string := "Failed to send reset email"

  /** `checkGithubUser`: the dummy-password sign-in fails with something other than the
      credentials error, and the OTP sign-in then fails with one of the OAuth phrases. An
      exception anywhere gives `false`. */
  function CheckGithubUser(signIn: Call, otp: Call): (b: bool)
    ensures b <==>
      && signIn.Returned? && signIn.error.Some? && !IsPasswordUserError(signIn.error.value)
      && otp.Returned? && otp.error.Some? && IsOAuthError(otp.error.value)
  {
    match signIn
      case Threw => false
      case Returned(None) => false
      case Returned(Some(msg)) =>
        if IsPasswordUserError(msg) then false
        else match otp
          case Threw => false
          case Returned(None) => false
          case Returned(Some(m)) => IsOAuthError(m)
  }

  /** The page's state. */
  datatype Form = Form(isLoading: bool, email: string, error: string, success: bool,
                       isGithubUser: bool, lastSubmitTime: int)

  /** The state when the page mounts. */
  function Initial(): (f: Form)
    ensures f.lastSubmitTime == 0 && !f.isGithubUser && !f.success && f.error == [] && f.email == []
  {
    Form(false, [], [], false, false, 0)
  }

  /** The email field and the reset-link button are shown only while no GitHub account has
      been detected. */
  predicate FormShown(f: Form) {
    !f.isGithubUser
  }

  /** The state after one submit at clock `now`; `reset` is what the reset request gives
      (`None` on success, else the error's message). */
  function Submit(f: Form, now: int, signIn: Call, otp: Call, reset: Option<string>): (r: Form)
    ensures r.email == f.email
    ensures r.success <==>
      f.email != [] && now - f.lastSubmitTime >= Cooldown && !CheckGithubUser(signIn, otp) && reset.None?
    ensures r.lastSubmitTime == if r.success then now else f.lastSubmitTime
    ensures r.success ==> r.error == []
  {
    var cleared := f.(error := [], success := false);
    if cleared.email == [] then cleared.(error := EnterEmail)
    else if now - cleared.lastSubmitTime < Cooldown then cleared.(error := WaitAMinute)
    else
      var isGithub := CheckGithubUser(signIn, otp);
      var probed := cleared.(isGithubUser := isGithub, isLoading := false);
      if isGithub then probed.(error := GithubAccount)
      else match reset
        case None => probed.(success := true, lastSubmitTime := now)
        case Some(msg) => probed.(error := OrElse(msg, ResetFailed))
  }

  /** The page's state variables. */
  class ForgotPasswordForm {
    var isLoading: bool
    var email: string
    var error: string
    var success: bool
    var isGithubUser: bool
    var lastSubmitTime: int

    constructor ()
      ensures State() == Initial()
    {
      isLoading, email, error, success, isGithubUser, lastSubmitTime := false, [], [], false, false, 0;
    }

    function State(): Form
      reads this
    {
      Form(isLoading, email, error, success, isGithubUser, lastSubmitTime)
    }

    /** `handleSubmit` at clock `now`. */
    method HandleSubmit(now: int, signIn: Call, otp: Call, reset: Option<string>)
      modifies this
      ensures State() == Submit(old(State()), now, signIn, otp, reset)
    {
      error := [];
      success := false;
      if email == [] {
        error := EnterEmail;
        return;
      }
      if now - lastSubmitTime < Cooldown {
        error := WaitAMinute;
        return;
      }
      isLoading := true;
      var isGithub := CheckGithubUser(signIn, otp);
      isGithubUser := isGithub;
      if isGithub {
        error := GithubAccount;
      } else if reset.None? {
        success := true;
        lastSubmitTime := now;
      } else {
        error := OrElse(reset.value, ResetFailed);
      }
      isLoading := false;
    }
  }

  /** An empty email stops the submit with its message and nothing else changes. */
  lemma EmptyEmailStops(f: Form, now: int, signIn: Call, otp: Call, reset: Option<string>)
    requires f.email == []
    ensures Submit(f, now, signIn, otp, reset) == f.(error := EnterEmail, success := false)
  {
  }

  /** Within a minute of the last sent link the submit is blocked and probes nothing. */
  lemma CooldownBlocks(f: Form, now: int, signIn: Call, otp: Call, reset: Option<string>)
    requires f.email != [] && now - f.lastSubmitTime < Cooldown
    ensures Submit(f, now, signIn, otp, reset) == f.(error := WaitAMinute, success := false)
  {
  }

  /** The cooldown starts only when a reset link was sent: `lastSubmitTime` changes only
      together with `success`, and then to the submit's clock. */
  lemma CooldownStartsOnlyOnSuccess(f: Form, now: int, signIn: Call, otp: Call, reset: Option<string>)
    ensures var g := Submit(f, now, signIn, otp, reset);
      (g.lastSubmitTime != f.lastSubmitTime ==> g.success && g.lastSubmitTime == now)
      && (g.success <==>
            (f.email != [] && now - f.lastSubmitTime >= Cooldown && !CheckGithubUser(signIn, otp) && reset.None?))
  {
  }

  /** A detected GitHub account hides the form, shows its message and sends no reset
      request: the outcome does not depend on what that request would have given. */
  lemma GithubSendsNoReset(f: Form, now: int, signIn: Call, otp: Call, reset: Option<string>, reset': Option<string>)
    requires f.email != [] && now - f.lastSubmitTime >= Cooldown && CheckGithubUser(signIn, otp)
    ensures var g := Submit(f, now, signIn, otp, reset);
      g == Submit(f, now, signIn, otp, reset') && !FormShown(g) && g.error == GithubAccount
      && g.lastSubmitTime == f.lastSubmitTime && !g.success
  {
  }

  /** After a link was sent at `now`, every submit during the next minute is blocked. */
  lemma {:induction false} SentLinkBlocksNextMinute(f: Form, now: int, later: int, signIn: Call, otp: Call,
                                                    signIn': Call, otp': Call, reset': Option<string>)
    requires f.email != [] && now - f.lastSubmitTime >= Cooldown && !CheckGithubUser(signIn, otp)
    requires now <= later < now + Cooldown
    ensures var g := Submit(f, now, signIn, otp, None);
      g.success && Submit(g, later, signIn', otp', reset') == g.(error := WaitAMinute, success := false)
  {
    var g := Submit(f, now, signIn, otp, None);
    assert g.lastSubmitTime == now && g.email == f.email;
    CooldownBlocks(g, later, signIn', otp', reset');
  }

  /** The page's probe and the `check-github-user` route agree: whenever the route answers
      200 for the same auth results, its `isGithubUser` is the page's verdict, and when the
      route fails with 500 the page's probe says no. */
  lemma {:induction false} ProbeAgreesWithRoute(email: string, signIn: Call, otp: Call)
    requires email != []
    ensures var r := CheckGithubUserRoute.Get(Some(email), signIn, otp);
      (r.status == 200 ==> r.body.isGithubUser == CheckGithubUser(signIn, otp))
      && (r.status == 500 ==> !CheckGithubUser(signIn, otp))
  {
    var r := CheckGithubUserRoute.Get(Some(email), signIn, otp);
    if r.status == 200 {
      CheckGithubUserRoute.GetDecisionTable(email, signIn, otp);
    }
  }
}
