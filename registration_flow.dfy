/**
 * The hand-over from the registration screen to the e-mail verification
 * screen, and the route names of the sign-in stack it navigates within.
 */
module RegistrationFlow {
  import opened Optional
  import opened JsText
  import opened RegisterForm
  import opened VerifyEmail
  import AppStack

  /** The routes the sign-in stack registers. */
  const AuthStackRoutes: seq<string> := ["login-screen", "register-screen", "verify-email-screen"]

  /**
   * As written, the navigation after registering names a route that neither
   * the sign-in stack nor the root navigator registers.
   */
  lemma AsWrittenRouteUnregistered()
    ensures VerifyNavigationAsWritten.route !in AuthStackRoutes
    ensures forall r :: VerifyNavigationAsWritten.route != AppStack.ScreenName(r)
  {
  }

  /**
   * As written, the verification screen reached after registering has no
   * `email` parameter, so every submit stops at the guard, whatever the OTP.
   */
  lemma AsWrittenVerifyAlwaysBlocked(otp: string, call: VerifyCall)
    ensures Blocked(VerifyNavigationAsWritten.email, otp)
    ensures SubmitError(VerifyNavigationAsWritten.email, otp, call) == Some(RequiredMessage)
  {
  }

  /** The navigation evidently intended: the registered verification route, carrying the e-mail just registered. */
  function VerifyNavigation(s: RegisterState): (n: Navigation)
    ensures n.route in AuthStackRoutes
    ensures n.email == Some(s.email)
  {
    Navigate("verify-email-screen", Some(s.email))
  }

  /**
   * With the intended navigation, a form that passed the checks lets any
   * non-blank OTP through the guard, and `verifyEmail` is called with the
   * registered e-mail.
   */
  lemma IntendedVerifyNotBlocked(s: RegisterState, otp: string)
    requires Validate(s) == None
    requires !IsBlank(otp)
    ensures !Blocked(VerifyNavigation(s).email, otp)
    ensures EmailFromRoute(VerifyNavigation(s).email) == s.email
  {
    ValidIsAcceptable(s);
    var a :| 0 < a < |s.email| && s.email[a] == '@';
    assert !IsSpace(s.email[a]);
    TrimEmptyIffBlank(s.email);
    TrimEmptyIffBlank(otp);
  }
}
