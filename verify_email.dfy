/**
 * The e-mail verification screen: the guard in `handleVerifyOtp` that
 * decides whether the session's `verifyEmail` is called, and the error text
 * the screen shows afterwards.
 */
module VerifyEmail {
  import opened Optional
  import opened JsText
  import opened AuthContext

  const RequiredMessage: string := "Email and OTP are required."
  const FallbackMessage: string := "Email verification failed."

  /** How the awaited `verifyEmail` call ended: resolved with its result, or rejected with an error message. */
  datatype VerifyCall = Resolved(ok: bool) | Rejected(message: string)

  /** `route.params?.email || ''`: the e-mail passed to the screen, or the empty string. */
  function EmailFromRoute(routeEmail: Option<string>): (e: string)
    ensures routeEmail.Some? ==> e == routeEmail.value
    ensures routeEmail.None? ==> e == ""
  {
    routeEmail.GetOr("")
  }

  /**
   * The guard: the submit stops when the e-mail or the OTP is empty after
   * trimming, that is exactly when one of them is all white space. Without
   * an `email` route parameter every submit stops.
   */
  function Blocked(routeEmail: Option<string>, otp: string): (b: bool)
    ensures b <==> IsBlank(EmailFromRoute(routeEmail)) || IsBlank(otp)
    ensures routeEmail.None? ==> b
  {
    TrimEmptyIffBlank(EmailFromRoute(routeEmail));
    TrimEmptyIffBlank(otp);
    Trim(EmailFromRoute(routeEmail)) == [] || Trim(otp) == []
  }

  /**
   * The error text one submit leaves behind, given how `verifyEmail` ended:
   * the guard's message when it stops the submit, nothing when the call
   * resolves (whatever its result), and the rejection's message, or a fixed
   * fallback when that message is empty, when the call rejects.
   */
  function SubmitError(routeEmail: Option<string>, otp: string, call: VerifyCall): (error: Option<string>)
    ensures Blocked(routeEmail, otp) ==> error == Some(RequiredMessage)
    ensures !Blocked(routeEmail, otp) && call.Resolved? ==> error == None
    ensures !Blocked(routeEmail, otp) && call.Rejected? ==>
      error == Some(if call.message == "" then FallbackMessage else call.message)
  {
    if Blocked(routeEmail, otp) then Some(RequiredMessage)
    else match call
      case Resolved(_) => None
      case Rejected(m) => Some(if m == "" then FallbackMessage else m)
  }

  /** Whatever happens, the screen never shows an empty error text. */
  lemma SubmitErrorNeverBlank(routeEmail: Option<string>, otp: string, call: VerifyCall)
    ensures SubmitError(routeEmail, otp, call) != Some("")
  {
  }

  class VerifyEmailScreen {
    /** The code typed so far. */
    var otp: string
    /** The screen's error text. */
    var error: Option<string>
    /** The `email` route parameter the screen was opened with. */
    const routeEmail: Option<string>
    const auth: AuthProvider

    constructor (auth: AuthProvider, routeEmail: Option<string>)
      ensures this.auth == auth && this.routeEmail == routeEmail
      ensures otp == "" && error == None
    {
      this.auth := auth;
      this.routeEmail := routeEmail;
      otp := "";
      error := None;
    }

    /** The OTP input reports a new code. */
    method SetOtp(code: string)
      modifies this`otp
      ensures otp == code
    {
      otp := code;
    }

    /**
     * `handleVerifyOtp`: resets the error, stops with the guard's message when
     * the e-mail or OTP is blank, and otherwise calls `verifyEmail` with the
     * untrimmed values. That call catches every error itself, so it resolves
     * and the screen's own catch never runs: its boolean result is ignored.
     */
    method HandleVerifyOtp(reply: ApiOutcome<Option<VerifyBody>>, writeThrows: bool)
      returns (sent: Option<VerifyRequest>)
      requires auth.Valid()
      modifies this`error, auth`userToken, auth`isLoading, auth.store
      ensures auth.Valid()
      ensures sent.Some? <==> !Blocked(routeEmail, otp)
      ensures sent.Some? ==> sent.value == VerifyRequest(EmailFromRoute(routeEmail), otp)
      ensures exists ok :: error == SubmitError(routeEmail, otp, Resolved(ok))
      ensures error == if Blocked(routeEmail, otp) then Some(RequiredMessage) else None
      ensures sent.None? ==>
        auth.userToken == old(auth.userToken) && auth.isLoading == old(auth.isLoading)
        && auth.store.entries == old(auth.store.entries)
      ensures sent.Some? ==>
        auth.userToken == (if VerifyToken(reply).Some? then VerifyToken(reply) else old(auth.userToken))
      ensures sent.Some? ==> !auth.isLoading
      ensures sent.Some? ==> auth.store.entries ==
                               if VerifyToken(reply).Some? && !writeThrows
                               then old(auth.store.entries)[TokenKey := VerifyToken(reply).value]
                               else old(auth.store.entries)
    {
      error := None;
      sent := None;
      var email := EmailFromRoute(routeEmail);
      if Trim(email) == [] || Trim(otp) == [] {
        error := Some(RequiredMessage);
        assert error == SubmitError(routeEmail, otp, Resolved(false));
        return;
      }
      var ok, request := auth.VerifyEmail(email, otp, reply, writeThrows);
      sent := Some(request);
      assert error == SubmitError(routeEmail, otp, Resolved(ok));
    }
  }
}
