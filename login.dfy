/**
 * The sign-in page of client/src/pages/auth/Login.tsx: its validation rules and what a
 * submission leads to. The sign-in itself belongs to the auth context and enters as its
 * outcome (a user, or None when it throws); email syntax is the predicate `isEmail`.
 */
module Login {
  import opened Wrappers
  import opened Session

  const LoginFailed := "Invalid email or password. Please try again."

  datatype LoginField = Email | Password

  /** The fields the schema rejects: both are required, and the email must look like one. */
  function LoginErrors(email: string, password: string, isEmail: string -> bool): (r: set<LoginField>)
    ensures Email in r <==> email == "" || !isEmail(email)
    ensures Password in r <==> password == ""
  {
    (if email == "" || !isEmail(email) then {Email} else {}) +
    (if password == "" then {Password} else {})
  }

  /** Where a signed-in user is sent: unfinished onboarding first, the shop otherwise. */
  function LoginRedirect(user: AuthUser): (route: string)
    ensures route == "/profile" <==> !user.profileCompleted
    ensures route == "/survey" <==> user.profileCompleted && !user.surveyCompleted
    ensures route == "/products" <==> user.profileCompleted && user.surveyCompleted
  {
    if !user.profileCompleted then "/profile"
    else if !user.surveyCompleted then "/survey"
    else "/products"
  }

  /**
   * A submission: a form the schema rejects is not submitted and the page stays as it
   * was; otherwise the error is cleared and the sign-in either redirects or shows the
   * fixed failure message.
   */
  function SubmitLogin(email: string, password: string, isEmail: string -> bool,
                       signedIn: Option<AuthUser>, before: PageOutcome): (r: PageOutcome)
    ensures LoginErrors(email, password, isEmail) != {} ==> r == before
    ensures LoginErrors(email, password, isEmail) == {} && signedIn.None? ==>
      r.navigatedTo == before.navigatedTo && r.error == Some(LoginFailed)
    ensures LoginErrors(email, password, isEmail) == {} && signedIn.Some? ==>
      r.navigatedTo == Some(LoginRedirect(signedIn.value)) && r.error.None?
  {
    if LoginErrors(email, password, isEmail) != {} then before
    else
      match signedIn
      case None => PageOutcome(before.navigatedTo, Some(LoginFailed))
      case Some(u) => PageOutcome(Some(LoginRedirect(u)), None)
  }

  /**
   * The redirect follows the onboarding: a user who has just finished the profile
   * wizard is sent on to the survey, and one who has finished the survey too, to the shop.
   */
  lemma RedirectFollowsOnboarding(user: AuthUser)
    requires !user.profileCompleted && !user.surveyCompleted
    ensures LoginRedirect(user) == "/profile"
    ensures var afterProfile := Merge(user, UserPatch(None, None, Some(true), None));
      LoginRedirect(afterProfile) == "/survey" &&
      LoginRedirect(Merge(afterProfile, UserPatch(None, None, None, Some(true)))) == "/products"
  {
  }
}
