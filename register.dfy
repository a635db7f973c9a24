/**
 * The registration page of client/src/pages/auth/Register.tsx: its validation rules and
 * what a submission leads to. The registration itself belongs to the auth context and
 * enters as its outcome (a user, or None when it throws); email syntax is `isEmail`.
 */
module Register {
  import opened Wrappers
  import opened Session

  const RegisterFailed := "There was an error creating your account. Please try again."
  const MinPasswordLength := 8

  datatype RegisterField = Email | Password | ConfirmPassword

  /**
   * The fields the schema rejects: all three are required, the email must look like
   * one, the password needs eight characters and the confirmation must repeat it.
   */
  function RegisterErrors(email: string, password: string, confirm: string, isEmail: string -> bool): (r: set<RegisterField>)
    ensures Email in r <==> email == "" || !isEmail(email)
    ensures Password in r <==> password == "" || |password| < MinPasswordLength
    ensures ConfirmPassword in r <==> confirm == "" || confirm != password
  {
    (if email == "" || !isEmail(email) then {Email} else {}) +
    (if password == "" || |password| < MinPasswordLength then {Password} else {}) +
    (if confirm == "" || confirm != password then {ConfirmPassword} else {})
  }

  /**
   * The form is accepted exactly for an email, a password of at least eight characters
   * and its exact repetition; the "required" rules add nothing beyond those.
   */
  lemma RegisterAcceptsExactly(email: string, password: string, confirm: string, isEmail: string -> bool)
    ensures RegisterErrors(email, password, confirm, isEmail) == {} <==>
      email != "" && isEmail(email) && |password| >= MinPasswordLength && confirm == password
  {
    var r := RegisterErrors(email, password, confirm, isEmail);
    if r == {} {
      assert Email !in r && Password !in r && ConfirmPassword !in r;
    }
  }

  /**
   * A submission: a form the schema rejects is not submitted; otherwise the error is
   * cleared and a new account goes to the profile wizard, a failure shows the fixed message.
   */
  function SubmitRegister(email: string, password: string, confirm: string, isEmail: string -> bool,
                          registered: Option<AuthUser>, before: PageOutcome): (r: PageOutcome)
    ensures RegisterErrors(email, password, confirm, isEmail) != {} ==> r == before
    ensures RegisterErrors(email, password, confirm, isEmail) == {} && registered.Some? ==>
      r == PageOutcome(Some("/profile"), None)
    ensures RegisterErrors(email, password, confirm, isEmail) == {} && registered.None? ==>
      r.navigatedTo == before.navigatedTo && r.error == Some(RegisterFailed)
  {
    if RegisterErrors(email, password, confirm, isEmail) != {} then before
    else if registered.Some? then PageOutcome(Some("/profile"), None)
    else PageOutcome(before.navigatedTo, Some(RegisterFailed))
  }
}
