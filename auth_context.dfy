/**
 * The authentication session kept by `AuthProvider`: the bearer token, the
 * loading flag and the onboarding flag, and the operations that change them.
 *
 * The remote calls (`loginUser`, `registerUser`, `verifyEmailUser`,
 * `logoutUser`) are not modelled; each operation receives the outcome of its
 * call, either the decoded response body or a thrown error message. The
 * device identifier is a parameter, and the push token is always `null`.
 * Each operation is one atomic step: the intermediate `isLoading = true`
 * is set and then reset by the `finally` block.
 */
module AuthContext {
  import opened Optional
  import opened JsText
  import opened Storage

  /** Storage key of the bearer token. */
  const TokenKey: string := "userToken"
  /** Storage key of the onboarding flag. */
  const OnBoardedKey: string := "hasOnBoarded"
  /** The only value of `OnBoardedKey` that counts as onboarded. */
  const OnBoardedValue: string := "true"

  /** What the (stubbed) push-token provider yields: always `null`. */
  const PushToken: Option<string> := None

  /** The outcome of one remote call: the response body it returned, or the message it threw. */
  datatype ApiOutcome<T> = Returned(body: T) | Threw(message: string)

  /** The fields of response bodies the session reads; `None` is a missing field. */
  datatype LoginBody = LoginBody(token: Option<string>)
  datatype RegisterBody = RegisterBody(status: Option<string>)
  datatype VerifyData = VerifyData(token: Option<string>)
  datatype VerifyBody = VerifyBody(status: Option<string>, data: Option<VerifyData>)

  /** The JSON bodies the session sends, keyed as the API client keys them. */
  datatype LoginRequest = LoginRequest(email: string, password: string, deviceId: string, pushToken: Option<string>)
  datatype RegisterRequest =
    RegisterRequest(email: string, password: string, username: string, deviceId: string, pushToken: Option<string>)
  datatype VerifyRequest = VerifyRequest(email: string, otp: string)
  datatype LogoutRequest = LogoutRequest(deviceId: string, accessToken: string)

  /**
   * The token a login reply hands over: present exactly when the call returned
   * a (truthy) body whose `token` is a non-empty string.
   */
  function LoginToken(reply: ApiOutcome<Option<LoginBody>>): (t: Option<string>)
    ensures t.Some? ==> t.value != ""
    ensures t.Some? <==> reply.Returned? && reply.body.Some? && Truthy(reply.body.value.token)
    ensures t.Some? ==> t == reply.body.value.token
  {
    match reply
    case Returned(Some(body)) => if Truthy(body.token) then body.token else None
    case _ => None
  }

  /**
   * A registration reply is a success exactly when its body's `status` is
   * `"success"`: a call that throws, a missing body or any other status is not.
   */
  function RegisterAccepted(reply: ApiOutcome<Option<RegisterBody>>): (b: bool)
    ensures b <==> reply == Returned(Some(RegisterBody(Some("success"))))
  {
    reply.Returned? && reply.body.Some? && reply.body.value.status == Some("success")
  }

  /**
   * The token a verification reply hands over: present exactly when the body
   * says `status == "success"` and carries a non-empty `data.token`. A missing
   * body makes the source throw while reading `status`, which is caught: no token.
   */
  function VerifyToken(reply: ApiOutcome<Option<VerifyBody>>): (t: Option<string>)
    ensures t.Some? ==> t.value != ""
    ensures t.Some? ==> reply.Returned? && reply.body.Some? && reply.body.value.status == Some("success")
    ensures t.Some? <==>
      reply.Returned? && reply.body.Some? && reply.body.value.status == Some("success")
      && reply.body.value.data.Some? && Truthy(reply.body.value.data.value.token)
  {
    match reply
    case Returned(Some(body)) =>
      if body.status == Some("success") && body.data.Some? && Truthy(body.data.value.token)
      then body.data.value.token
      else None
    case _ => None
  }

  class AuthProvider {
    var userToken: Option<string>
    var isLoading: bool
    var hasOnBoarded: bool
    /** The device's key-value store, shared with the theme provider. */
    const store: Store

    /** The session never holds an empty token: every path that adopts one checks it is truthy. */
    ghost predicate Valid()
      reads this
    {
      userToken.Some? ==> userToken.value != ""
    }

    /** The state on mount, before either startup load has run. */
    constructor (store: Store)
      ensures this.store == store
      ensures userToken == None && isLoading && !hasOnBoarded
      ensures Valid()
    {
      this.store := store;
      userToken := None;
      isLoading := true;
      hasOnBoarded := false;
    }

    /** Startup load of the onboarding flag: set only when the stored value is exactly `"true"`. */
    method LoadOnBoardingStatus(readThrows: bool)
      modifies this`hasOnBoarded
      ensures hasOnBoarded == (old(hasOnBoarded) || (!readThrows && store.Lookup(OnBoardedKey) == Some(OnBoardedValue)))
    {
      var read := store.GetItem(OnBoardedKey, readThrows);
      if read.Got? && read.value == Some(OnBoardedValue) {
        hasOnBoarded := true;
      }
    }

    /**
     * Startup load of the token: a stored non-empty token is adopted; an absent
     * or empty one, or a failed read, keeps the current token. Loading ends either way.
     */
    method LoadUserToken(readThrows: bool)
      requires Valid()
      modifies this`userToken, this`isLoading
      ensures Valid()
      ensures !isLoading
      ensures userToken == if !readThrows && Truthy(store.Lookup(TokenKey)) then store.Lookup(TokenKey) else old(userToken)
    {
      var read := store.GetItem(TokenKey, readThrows);
      if read.Got? && Truthy(read.value) {
        userToken := read.value;
      }
      isLoading := false;
    }

    /** Marks onboarding complete, but only once `"true"` has been written; a failed write changes nothing. */
    method CompleteOnBoarding(writeThrows: bool)
      modifies this`hasOnBoarded, store
      ensures hasOnBoarded == (old(hasOnBoarded) || !writeThrows)
      ensures store.entries == if writeThrows then old(store.entries) else old(store.entries)[OnBoardedKey := OnBoardedValue]
    {
      var ok := store.SetItem(OnBoardedKey, OnBoardedValue, writeThrows);
      if ok {
        hasOnBoarded := true;
      }
    }

    /**
     * Logs in. The token of a successful reply is adopted before it is
     * persisted, so a failed write still leaves it adopted but reports false.
     */
    method Login(email: string, password: string, deviceId: string,
                 reply: ApiOutcome<Option<LoginBody>>, writeThrows: bool)
      returns (ok: bool, sent: LoginRequest)
      requires Valid()
      modifies this`userToken, this`isLoading, store
      ensures Valid()
      ensures !isLoading
      ensures sent == LoginRequest(email, password, deviceId, PushToken)
      ensures ok <==> LoginToken(reply).Some? && !writeThrows
      ensures userToken == if LoginToken(reply).Some? then LoginToken(reply) else old(userToken)
      ensures store.entries ==
        if ok then old(store.entries)[TokenKey := LoginToken(reply).value] else old(store.entries)
    {
      isLoading := true;
      sent := LoginRequest(email, password, deviceId, PushToken);
      ok := false;
      if reply.Returned? && reply.body.Some? && Truthy(reply.body.value.token) {
        var token := reply.body.value.token.value;
        userToken := Some(token);
        ok := store.SetItem(TokenKey, token, writeThrows);
      }
      isLoading := false;
    }

    /**
     * Registers an account. The parameters are forwarded to the API client in
     * the client's own order (email, password, username), so the body's
     * `email` carries this method's `username` argument and so on.
     * Registration never touches the token or the store.
     */
    method Register(username: string, email: string, password: string, deviceId: string,
                    reply: ApiOutcome<Option<RegisterBody>>)
      returns (ok: bool, sent: RegisterRequest)
      modifies this`isLoading
      ensures !isLoading
      ensures sent.email == username && sent.password == email && sent.username == password
      ensures sent.deviceId == deviceId && sent.pushToken == PushToken
      ensures ok <==> RegisterAccepted(reply)
    {
      isLoading := true;
      sent := RegisterRequest(username, email, password, deviceId, PushToken);
      ok := reply.Returned? && reply.body.Some? && reply.body.value.status == Some("success");
      isLoading := false;
    }

    /** Verifies the e-mail OTP; a successful reply's `data.token` is adopted and persisted as in `Login`. */
    method VerifyEmail(email: string, otp: string, reply: ApiOutcome<Option<VerifyBody>>, writeThrows: bool)
      returns (ok: bool, sent: VerifyRequest)
      requires Valid()
      modifies this`userToken, this`isLoading, store
      ensures Valid()
      ensures !isLoading
      ensures sent == VerifyRequest(email, otp)
      ensures ok <==> VerifyToken(reply).Some? && !writeThrows
      ensures userToken == if VerifyToken(reply).Some? then VerifyToken(reply) else old(userToken)
      ensures store.entries ==
        if ok then old(store.entries)[TokenKey := VerifyToken(reply).value] else old(store.entries)
    {
      isLoading := true;
      sent := VerifyRequest(email, otp);
      ok := false;
      match reply {
        case Threw(_) =>
        case Returned(None) =>
          // reading `status` of a missing body throws; the catch returns false
        case Returned(Some(body)) =>
          if body.status == Some("success") && body.data.Some? && Truthy(body.data.value.token) {
            var token := body.data.value.token.value;
            userToken := Some(token);
            ok := store.SetItem(TokenKey, token, writeThrows);
          }
      }
      isLoading := false;
    }

    /**
     * Logs out. The current token (or `""` without one) is sent; the local
     * session is cleared only when the remote call returns, and the stored
     * token is removed only if that removal does not throw as well.
     */
    method Logout(deviceId: string, reply: ApiOutcome<()>, removeThrows: bool)
      returns (sent: LogoutRequest)
      requires Valid()
      modifies this`userToken, this`isLoading, store
      ensures Valid()
      ensures !isLoading
      ensures sent == LogoutRequest(deviceId, if Truthy(old(userToken)) then old(userToken).value else "")
      ensures userToken == if reply.Threw? then old(userToken) else None
      ensures store.entries ==
        if reply.Returned? && !removeThrows then old(store.entries) - {TokenKey} else old(store.entries)
    {
      isLoading := true;
      var accessToken := if Truthy(userToken) then userToken.value else "";
      sent := LogoutRequest(deviceId, accessToken);
      if reply.Returned? {
        userToken := None;
        var _ := store.RemoveItem(TokenKey, removeThrows);
      }
      isLoading := false;
    }
  }

  /**
   * Mounting the provider: the initial state, then both startup loads (they
   * touch disjoint fields, so their order does not matter).
   */
  method Mount(store: Store, onBoardedReadThrows: bool, tokenReadThrows: bool) returns (p: AuthProvider)
    ensures fresh(p) && p.store == store && p.Valid()
    ensures !p.isLoading
    ensures p.hasOnBoarded <==> !onBoardedReadThrows && store.Lookup(OnBoardedKey) == Some(OnBoardedValue)
    ensures p.userToken == if !tokenReadThrows && Truthy(store.Lookup(TokenKey)) then store.Lookup(TokenKey) else None
  {
    p := new AuthProvider(store);
    p.LoadOnBoardingStatus(onBoardedReadThrows);
    p.LoadUserToken(tokenReadThrows);
  }

  /** Completing onboarding again, after it was completed and persisted, changes nothing. */
  method CompleteOnBoardingAgain(p: AuthProvider, writeThrows: bool)
    requires p.hasOnBoarded && p.store.Lookup(OnBoardedKey) == Some(OnBoardedValue)
    modifies p, p.store
    ensures p.hasOnBoarded && p.store.entries == old(p.store.entries)
    ensures p.userToken == old(p.userToken) && p.isLoading == old(p.isLoading)
  {
    p.CompleteOnBoarding(writeThrows);
    assert p.store.entries == old(p.store.entries) by {
      if !writeThrows {
        assert old(p.store.entries)[OnBoardedKey := OnBoardedValue] == old(p.store.entries);
      }
    }
  }
}
