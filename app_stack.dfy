/**
 * The root navigator: which one screen it registers, chosen from the
 * session's `hasOnBoarded` and `userToken` alone.
 */
module AppStack {
  import opened Optional
  import opened JsText
  import opened AuthContext
  import RegisterForm
  import VerifyEmail
  import ThemeContext

  datatype Screen = OnBoarding | Main | AuthScreens

  /** The route name each choice is registered under. */
  function ScreenName(r: Screen): string {
    match r
    case OnBoarding => "on-boarding"
    case Main => "main"
    case AuthScreens => "auth"
  }

  /**
   * The screen the navigator registers: onboarding until it is completed,
   * then the main screens with a truthy token and the sign-in screens with a
   * `null` or empty one. Exactly one of the three holds for every input.
   */
  function ScreenFor(hasOnBoarded: bool, userToken: Option<string>): (r: Screen)
    ensures r == OnBoarding <==> !hasOnBoarded
    ensures r == Main <==> hasOnBoarded && Truthy(userToken)
    ensures r == AuthScreens <==> hasOnBoarded && !Truthy(userToken)
  {
    if !hasOnBoarded then OnBoarding
    else if Truthy(userToken) then Main
    else AuthScreens
  }

  /** The screen a session state selects, from its `hasOnBoarded` and `userToken`. */
  function CurrentScreen(p: AuthProvider): Screen
    reads p
  {
    ScreenFor(p.hasOnBoarded, p.userToken)
  }

  /**
   * A login reply carrying a token shows an onboarded user the main screens,
   * even when storing the token fails and `login` returns false; a reply
   * without a token keeps the screen.
   */
  method LoginAndRoute(p: AuthProvider, email: string, password: string, deviceId: string,
                       reply: ApiOutcome<Option<LoginBody>>, writeThrows: bool)
    returns (ok: bool)
    requires p.Valid()
    modifies p`userToken, p`isLoading, p.store
    ensures p.hasOnBoarded == old(p.hasOnBoarded)
    ensures old(p.hasOnBoarded) && LoginToken(reply).Some? ==> CurrentScreen(p) == Main
    ensures LoginToken(reply).Some? && writeThrows ==> !ok
    ensures LoginToken(reply).None? ==> CurrentScreen(p) == old(CurrentScreen(p))
  {
    var sent;
    ok, sent := p.Login(email, password, deviceId, reply, writeThrows);
  }

  /** A logout whose remote call returns sends an onboarded user to the sign-in screens; one that throws keeps the screen. */
  method LogoutAndRoute(p: AuthProvider, deviceId: string, reply: ApiOutcome<()>, removeThrows: bool)
    requires p.Valid()
    modifies p`userToken, p`isLoading, p.store
    ensures p.hasOnBoarded == old(p.hasOnBoarded)
    ensures old(p.hasOnBoarded) && reply.Returned? ==> CurrentScreen(p) == AuthScreens
    ensures reply.Threw? ==> CurrentScreen(p) == old(CurrentScreen(p))
  {
    var _ := p.Logout(deviceId, reply, removeThrows);
  }

  /** Registering, whatever the form and the reply, does not sign in: the root screen stays as it was. */
  method RegisterKeepsScreen(scr: RegisterForm.RegisterScreen, deviceId: string,
                             reply: ApiOutcome<Option<RegisterBody>>)
    returns (sent: Option<RegisterRequest>)
    modifies scr`err, scr.auth`isLoading
    ensures CurrentScreen(scr.auth) == old(CurrentScreen(scr.auth))
  {
    var nav;
    sent, nav := scr.HandleRegister(deviceId, reply);
  }

  /**
   * A verification that gets past the guard and is answered with a token
   * takes an onboarded user to the main screens; a submit the guard stops,
   * or one answered without a token, keeps the screen.
   */
  method VerifyAndRoute(scr: VerifyEmail.VerifyEmailScreen, reply: ApiOutcome<Option<VerifyBody>>, writeThrows: bool)
    returns (sent: Option<VerifyRequest>)
    requires scr.auth.Valid()
    modifies scr`error, scr.auth`userToken, scr.auth`isLoading, scr.auth.store
    ensures scr.auth.hasOnBoarded == old(scr.auth.hasOnBoarded)
    ensures old(scr.auth.hasOnBoarded) && sent.Some? && VerifyToken(reply).Some? ==> CurrentScreen(scr.auth) == Main
    ensures sent.None? || VerifyToken(reply).None? ==> CurrentScreen(scr.auth) == old(CurrentScreen(scr.auth))
  {
    sent := scr.HandleVerifyOtp(reply, writeThrows);
  }

  /** Changing the theme, even through a store shared with the session, leaves the root screen as it was. */
  method ChangeThemeKeepsScreen(theme: ThemeContext.ThemeProvider, auth: AuthProvider,
                                t: ThemeContext.Theme, writeThrows: bool)
    modifies theme`theme, theme.store
    ensures CurrentScreen(auth) == old(CurrentScreen(auth))
  {
    theme.ChangeTheme(t, writeThrows);
  }
}
