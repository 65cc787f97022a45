/**
 * The registration screen: its four-field form state and reducer, the
 * ordered chain of input checks run by `handleRegister`, and the call to the
 * session's `register` when every check passes.
 */
module RegisterForm {
  import opened Optional
  import opened JsText
  import opened AuthContext

  datatype RegisterState = RegisterState(username: string, email: string, password: string, confirmPassword: string)

  /** The form as the screen first shows it. */
  const EmptyForm := RegisterState("", "", "", "")

  /** The field an action's `type` names. */
  datatype Field = Username | Email | Password | ConfirmPassword

  datatype RegisterAction = RegisterAction(field: Field, payload: string)

  /** The value of one field of the form. */
  function Get(s: RegisterState, f: Field): string {
    match f
    case Username => s.username
    case Email => s.email
    case Password => s.password
    case ConfirmPassword => s.confirmPassword
  }

  /** `registerReducer`: the named field takes the payload and every other field keeps its value. */
  function Reduce(s: RegisterState, a: RegisterAction): (r: RegisterState)
    ensures Get(r, a.field) == a.payload
    ensures forall f :: f != a.field ==> Get(r, f) == Get(s, f)
  {
    match a.field
    case Username => s.(username := a.payload)
    case Email => s.(email := a.payload)
    case Password => s.(password := a.payload)
    case ConfirmPassword => s.(confirmPassword := a.payload)
  }

  /** A form is determined by its four fields, so the reducer's contract fixes its result. */
  lemma ReduceDetermined(s: RegisterState, a: RegisterAction, r: RegisterState)
    requires Get(r, a.field) == a.payload
    requires forall f :: f != a.field ==> Get(r, f) == Get(s, f)
    ensures r == Reduce(s, a)
  {
    var q := Reduce(s, a);
    assert Get(r, Username) == Get(q, Username);
    assert Get(r, Email) == Get(q, Email);
    assert Get(r, Password) == Get(q, Password);
    assert Get(r, ConfirmPassword) == Get(q, ConfirmPassword);
  }

  // ---------------------------------------------------------------------------
  // The patterns the checks test

  /** A character of the class `[a-zA-Z0-9_.-]`. */
  predicate UsernameChar(c: char) {
    ('a' <= c <= 'z') || ('A' <= c <= 'Z') || ('0' <= c <= '9') || c == '_' || c == '.' || c == '-'
  }

  /**
   * `/^[a-zA-Z0-9_.-]+$/.test(u)`, run as the anchored pattern runs: one
   * character of the class, then either the end or another match of the
   * pattern. It accepts exactly the non-empty strings made of the class.
   */
  function MatchesUsernameRegex(u: string): (b: bool)
    ensures b <==> |u| > 0 && forall i :: 0 <= i < |u| ==> UsernameChar(u[i])
  {
    |u| > 0 && UsernameChar(u[0]) && (|u| == 1 || MatchesUsernameRegex(u[1..]))
  }

  /** A character of the class `[^\s@]`. */
  predicate EmailPartChar(c: char) {
    !IsSpace(c) && c != '@'
  }

  /** A match of `[^\s@]+`. */
  predicate EmailPart(p: string) {
    |p| > 0 && forall i :: 0 <= i < |p| ==> EmailPartChar(p[i])
  }

  /**
   * How `/^[^\s@]+@[^\s@]+\.[^\s@]+$/` matches `e`: it splits at an `@`
   * (index `a`) and a later `.` (index `d`) into three non-empty runs of `[^\s@]`.
   */
  predicate EmailSplits(e: string) {
    exists a, d :: 0 < a < d < |e| && e[a] == '@' && e[d] == '.'
      && EmailPart(e[..a]) && EmailPart(e[a + 1..d]) && EmailPart(e[d + 1..])
  }

  /**
   * The shape the e-mail pattern accepts, stated directly: no white space,
   * exactly one `@`, not at the start, and after it a `.` that has text on
   * both sides.
   */
  predicate EmailShape(e: string) {
    && (forall k :: 0 <= k < |e| ==> !IsSpace(e[k]))
    && (exists a :: 0 < a < |e| && e[a] == '@'
         && (forall k :: 0 <= k < |e| && e[k] == '@' ==> k == a)
         && (exists d :: a + 1 < d < |e| - 1 && e[d] == '.'))
  }

  /** A match of the e-mail pattern has the shape: its `@` is the only one, and no character is white space. */
  lemma EmailSplitsImpliesShape(e: string)
    requires EmailSplits(e)
    ensures EmailShape(e)
  {
    var a, d :| 0 < a < d < |e| && e[a] == '@' && e[d] == '.'
      && EmailPart(e[..a]) && EmailPart(e[a + 1..d]) && EmailPart(e[d + 1..]);
    forall k | 0 <= k < |e| && k != a && k != d
      ensures EmailPartChar(e[k])
    {
      if k < a {
        assert e[k] == e[..a][k];
      } else if k < d {
        assert e[k] == e[a + 1..d][k - a - 1];
      } else {
        assert e[k] == e[d + 1..][k - d - 1];
      }
    }
    assert |e[a + 1..d]| > 0 && |e[d + 1..]| > 0;
    assert a + 1 < d < |e| - 1 && e[d] == '.';
  }

  /** A string of the shape matches the pattern, splitting at its `@` and at any `.` inside the domain. */
  lemma EmailShapeImpliesSplits(e: string)
    requires EmailShape(e)
    ensures EmailSplits(e)
  {
    var a :| 0 < a < |e| && e[a] == '@'
      && (forall k :: 0 <= k < |e| && e[k] == '@' ==> k == a)
      && (exists d :: a + 1 < d < |e| - 1 && e[d] == '.');
    var d :| a + 1 < d < |e| - 1 && e[d] == '.';
    assert EmailPart(e[..a]);
    assert EmailPart(e[a + 1..d]);
    assert EmailPart(e[d + 1..]);
  }

  /** `/^[^\s@]+@[^\s@]+\.[^\s@]+$/.test(e)`: the pattern accepts exactly the strings of that shape. */
  function MatchesEmailRegex(e: string): (b: bool)
    ensures b <==> EmailShape(e)
  {
    if EmailSplits(e) then
      EmailSplitsImpliesShape(e);
      true
    else
      ShapeSplits(e);
      false
  }

  /** Contrapositive form of `EmailShapeImpliesSplits`, callable on every string. */
  lemma ShapeSplits(e: string)
    ensures EmailShape(e) ==> EmailSplits(e)
  {
    if EmailShape(e) {
      EmailShapeImpliesSplits(e);
    }
  }

  /**
   * An unanchored search for one character of the class `[lo-hi]`, trying
   * each position from the left: it succeeds exactly when some character of
   * `p` lies in the range.
   */
  function FindsInRange(p: string, lo: char, hi: char): (b: bool)
    ensures b <==> exists i :: 0 <= i < |p| && lo <= p[i] <= hi
  {
    if p == [] then false
    else if lo <= p[0] <= hi then true
    else
      var b := FindsInRange(p[1..], lo, hi);
      assert b ==> exists i :: 0 <= i < |p| && lo <= p[i] <= hi by {
        if b {
          var i :| 0 <= i < |p[1..]| && lo <= p[1..][i] <= hi;
          assert p[i + 1] == p[1..][i];
        }
      }
      assert (exists i :: 0 <= i < |p| && lo <= p[i] <= hi) ==> b by {
        if exists i :: 0 <= i < |p| && lo <= p[i] <= hi {
          var i :| 0 <= i < |p| && lo <= p[i] <= hi;
          assert i > 0 && p[1..][i - 1] == p[i];
        }
      }
      b
  }

  /** `/[A-Z]/.test(p)`: some character of `p` is an upper-case ASCII letter. */
  function HasUppercase(p: string): (b: bool)
    ensures b <==> exists i :: 0 <= i < |p| && 'A' <= p[i] <= 'Z'
  {
    FindsInRange(p, 'A', 'Z')
  }

  /** `/[0-9]/.test(p)`: some character of `p` is an ASCII digit. */
  function HasDigit(p: string): (b: bool)
    ensures b <==> exists i :: 0 <= i < |p| && '0' <= p[i] <= '9'
  {
    FindsInRange(p, '0', '9')
  }

  // ---------------------------------------------------------------------------
  // The ordered checks

  /** The checks of `handleRegister`, one per early return. */
  datatype Check =
    | UsernameBlank | UsernameTooShort | UsernameBadChars
    | EmailBlank | EmailMalformed
    | PasswordEmpty | PasswordTooShort | PasswordNoUppercase | PasswordNoDigit
    | ConfirmEmpty | ConfirmMismatch

  /** The four groups of checks, each in the order the handler runs it. */
  const UsernameChecks: seq<Check> := [UsernameBlank, UsernameTooShort, UsernameBadChars]
  const EmailChecks: seq<Check> := [EmailBlank, EmailMalformed]
  const PasswordChecks: seq<Check> := [PasswordEmpty, PasswordTooShort, PasswordNoUppercase, PasswordNoDigit]
  const ConfirmChecks: seq<Check> := [ConfirmEmpty, ConfirmMismatch]

  /** The order in which all checks run: username, e-mail, password, confirmation. */
  const CheckOrder: seq<Check> := UsernameChecks + EmailChecks + PasswordChecks + ConfirmChecks

  /**
   * Whether a check rejects the form. No check rejects a form of the
   * acceptable shape: each check guards some part of it (a blank username or
   * e-mail also fails that field's pattern).
   */
  function Fails(c: Check, s: RegisterState): (b: bool)
    ensures b ==> !Acceptable(s)
  {
    BlankUsernameUnmatched(s.username);
    BlankEmailUnshaped(s.email);
    match c
    case UsernameBlank => Trim(s.username) == []
    case UsernameTooShort => |s.username| < 3
    case UsernameBadChars => !MatchesUsernameRegex(s.username)
    case EmailBlank => Trim(s.email) == []
    case EmailMalformed => !MatchesEmailRegex(s.email)
    case PasswordEmpty => s.password == []
    case PasswordTooShort => |s.password| < 6
    case PasswordNoUppercase => !HasUppercase(s.password)
    case PasswordNoDigit => !HasDigit(s.password)
    case ConfirmEmpty => s.confirmPassword == []
    case ConfirmMismatch => s.password != s.confirmPassword
  }

  /** A blank username also fails the username pattern. */
  lemma BlankUsernameUnmatched(u: string)
    ensures Trim(u) == [] ==> !MatchesUsernameRegex(u)
  {
    if Trim(u) == [] && u != [] {
      TrimEmptyIffBlank(u);
      assert IsSpace(u[0]);
    }
  }

  /** A blank e-mail also lacks the e-mail shape. */
  lemma BlankEmailUnshaped(e: string)
    ensures Trim(e) == [] ==> !EmailShape(e)
  {
    if Trim(e) == [] && e != [] {
      TrimEmptyIffBlank(e);
      assert IsSpace(e[0]);
    }
  }

  /** The texts `handleRegister` puts in `err`, one per check. */
  const UsernameBlankMessage := "Username tidak boleh kosong"
  const UsernameTooShortMessage := "Username minimal 3 karakter"
  const UsernameBadCharsMessage := "Username hanya boleh mengandung huruf, angka, dan karakter _.-"
  const EmailBlankMessage := "Email tidak boleh kosong"
  const EmailMalformedMessage := "Format email tidak valid"
  const PasswordEmptyMessage := "Password tidak boleh kosong"
  const PasswordTooShortMessage := "Password minimal 6 karakter"
  const PasswordNoUppercaseMessage := "Password harus mengandung setidaknya 1 huruf besar"
  const PasswordNoDigitMessage := "Password harus mengandung setidaknya 1 angka"
  const ConfirmEmptyMessage := "Konfirmasi password tidak boleh kosong"
  const ConfirmMismatchMessage := "Password dan konfirmasi password tidak cocok"

  /** The username messages read back as their checks. */
  lemma UsernameMessagesRead()
    ensures CheckOf(UsernameBlankMessage) == Some(UsernameBlank)
    ensures CheckOf(UsernameTooShortMessage) == Some(UsernameTooShort)
    ensures CheckOf(UsernameBadCharsMessage) == Some(UsernameBadChars)
  {
  }

  /** The email messages read back as their checks. */
  lemma EmailMessagesRead()
    ensures CheckOf(EmailBlankMessage) == Some(EmailBlank)
    ensures CheckOf(EmailMalformedMessage) == Some(EmailMalformed)
  {
  }

  /** The password messages read back as their checks. */
  lemma PasswordMessagesRead()
    ensures CheckOf(PasswordEmptyMessage) == Some(PasswordEmpty)
    ensures CheckOf(PasswordTooShortMessage) == Some(PasswordTooShort)
    ensures CheckOf(PasswordNoUppercaseMessage) == Some(PasswordNoUppercase)
    ensures CheckOf(PasswordNoDigitMessage) == Some(PasswordNoDigit)
  {
  }

  /** The confirmation messages read back as their checks. */
  lemma ConfirmationMessagesRead()
    ensures CheckOf(ConfirmEmptyMessage) == Some(ConfirmEmpty)
    ensures CheckOf(ConfirmMismatchMessage) == Some(ConfirmMismatch)
  {
  }

  /** The message a failing check reports; each check has its own, so the text names the check. */
  function Message(c: Check): (m: string)
    ensures CheckOf(m) == Some(c)
  {
    UsernameMessagesRead();
    EmailMessagesRead();
    PasswordMessagesRead();
    ConfirmationMessagesRead();
    match c
    case UsernameBlank => UsernameBlankMessage
    case UsernameTooShort => UsernameTooShortMessage
    case UsernameBadChars => UsernameBadCharsMessage
    case EmailBlank => EmailBlankMessage
    case EmailMalformed => EmailMalformedMessage
    case PasswordEmpty => PasswordEmptyMessage
    case PasswordTooShort => PasswordTooShortMessage
    case PasswordNoUppercase => PasswordNoUppercaseMessage
    case PasswordNoDigit => PasswordNoDigitMessage
    case ConfirmEmpty => ConfirmEmptyMessage
    case ConfirmMismatch => ConfirmMismatchMessage
  }

  /**
   * Which check a message text names, told apart by the text's length and,
   * where two messages share a length, one character. Only the eleven
   * messages are meant as input.
   */
  function CheckOf(m: string): Option<Check> {
    if |m| == 62 then Some(UsernameBadChars)
    else if |m| == 24 then (if m[0] == 'E' then Some(EmailBlank) else Some(EmailMalformed))
    else if |m| == 27 then
      if m[0] == 'U' then (if m[9] == 't' then Some(UsernameBlank) else Some(UsernameTooShort))
      else (if m[9] == 't' then Some(PasswordEmpty) else Some(PasswordTooShort))
    else if |m| == 50 then Some(PasswordNoUppercase)
    else if |m| == 44 then (if m[9] == 'h' then Some(PasswordNoDigit) else Some(ConfirmMismatch))
    else if |m| == 38 then Some(ConfirmEmpty)
    else None
  }

  /** Check `i` of `checks` rejects the form and every check before it passes. */
  predicate FirstFailureAt(checks: seq<Check>, s: RegisterState, i: int) {
    0 <= i < |checks| && Fails(checks[i], s) && forall j :: 0 <= j < i ==> !Fails(checks[j], s)
  }

  /**
   * The position of the first check in `checks` that rejects the form, or
   * `|checks|` when none does: every earlier check passes.
   */
  function FirstFailing(checks: seq<Check>, s: RegisterState): (k: nat)
    ensures k <= |checks|
    ensures forall j :: 0 <= j < k ==> !Fails(checks[j], s)
    ensures k < |checks| ==> Fails(checks[k], s)
  {
    if checks == [] then 0
    else if Fails(checks[0], s) then 0
    else 1 + FirstFailing(checks[1..], s)
  }

  /** The message of the first failing check in `checks`; none when every check passes. */
  function FirstReport(checks: seq<Check>, s: RegisterState): (r: Option<string>)
    ensures r.None? <==> forall j :: 0 <= j < |checks| ==> !Fails(checks[j], s)
    ensures r.Some? ==> exists i :: FirstFailureAt(checks, s, i) && r.value == Message(checks[i])
  {
    var k := FirstFailing(checks, s);
    if k < |checks| then Some(Message(checks[k])) else None
  }

  /** Running two lists of checks one after the other fails at the first failure of the first list, else of the second. */
  lemma {:induction false} FirstFailingConcat(a: seq<Check>, b: seq<Check>, s: RegisterState)
    ensures FirstFailing(a + b, s) ==
      if FirstFailing(a, s) < |a| then FirstFailing(a, s) else |a| + FirstFailing(b, s)
  {
    if a != [] {
      assert (a + b)[0] == a[0];
      assert (a + b)[1..] == a[1..] + b;
      FirstFailingConcat(a[1..], b, s);
    } else {
      assert a + b == b;
    }
  }

  /** So the first report of `a + b` is the first report of `a`, or else that of `b`. */
  lemma FirstReportConcat(a: seq<Check>, b: seq<Check>, s: RegisterState)
    ensures FirstReport(a + b, s) == if FirstReport(a, s).Some? then FirstReport(a, s) else FirstReport(b, s)
  {
    FirstFailingConcat(a, b, s);
    var k := FirstFailing(a, s);
    if k < |a| {
      assert (a + b)[k] == a[k];
    } else {
      var m := FirstFailing(b, s);
      if m < |b| {
        assert (a + b)[|a| + m] == b[m];
      }
    }
  }

  /**
   * The message `handleRegister` leaves in `err`: that of the first check, in
   * source order, that rejects the form; none when the form passes them all.
   * A reported message means the form is not acceptable.
   */
  function Validate(s: RegisterState): (r: Option<string>)
    ensures r.None? <==> forall j :: 0 <= j < |CheckOrder| ==> !Fails(CheckOrder[j], s)
    ensures r.Some? ==> exists i :: FirstFailureAt(CheckOrder, s, i) && r.value == Message(CheckOrder[i])
    ensures r.Some? ==> !Acceptable(s)
  {
    FirstReport(CheckOrder, s)
  }

  /** The whole order reports what the four groups report, tried one group after another. */
  lemma ValidateByGroups(s: RegisterState)
    ensures Validate(s) ==
      if FirstReport(UsernameChecks, s).Some? then FirstReport(UsernameChecks, s)
      else if FirstReport(EmailChecks, s).Some? then FirstReport(EmailChecks, s)
      else if FirstReport(PasswordChecks, s).Some? then FirstReport(PasswordChecks, s)
      else FirstReport(ConfirmChecks, s)
  {
    FirstReportConcat(UsernameChecks, EmailChecks, s);
    FirstReportConcat(UsernameChecks + EmailChecks, PasswordChecks, s);
    FirstReportConcat(UsernameChecks + EmailChecks + PasswordChecks, ConfirmChecks, s);
  }

  /** When a check fails, the reported message is its own provided every check before it passed. */
  lemma ReportsFirstFailure(checks: seq<Check>, s: RegisterState, i: nat)
    requires i < |checks| && Fails(checks[i], s)
    requires forall j :: 0 <= j < i ==> !Fails(checks[j], s)
    ensures FirstReport(checks, s) == Some(Message(checks[i]))
  {
    var k := FirstFailing(checks, s);
    assert k == i;
  }

  /** What a form the checks accept looks like. */
  predicate Acceptable(s: RegisterState) {
    && |s.username| >= 3 && MatchesUsernameRegex(s.username)
    && EmailShape(s.email)
    && |s.password| >= 6 && HasUppercase(s.password) && HasDigit(s.password)
    && s.confirmPassword == s.password
  }

  /** An acceptable form passes every check. */
  lemma AcceptableIsValid(s: RegisterState)
    requires Acceptable(s)
    ensures Validate(s) == None
  {
    ValidateByGroups(s);
    TrimEmptyIffBlank(s.username);
    TrimEmptyIffBlank(s.email);
    assert !IsSpace(s.username[0]) by { assert UsernameChar(s.username[0]); }
    var a :| 0 < a < |s.email| && s.email[a] == '@';
    assert !IsSpace(s.email[a]);
  }

  /** A form that passes every check is acceptable. */
  lemma ValidIsAcceptable(s: RegisterState)
    requires Validate(s) == None
    ensures Acceptable(s)
  {
    ValidateByGroups(s);
    assert !Fails(UsernameChecks[1], s) && !Fails(UsernameChecks[2], s);
    assert !Fails(EmailChecks[1], s);
    assert !Fails(PasswordChecks[1], s) && !Fails(PasswordChecks[2], s) && !Fails(PasswordChecks[3], s);
    assert !Fails(ConfirmChecks[1], s);
  }

  /** The chain reports no error exactly for the acceptable forms. */
  lemma ValidateNoneIffAcceptable(s: RegisterState)
    ensures Validate(s) == None <==> Acceptable(s)
  {
    if Acceptable(s) {
      AcceptableIsValid(s);
    }
    if Validate(s) == None {
      ValidIsAcceptable(s);
    }
  }

  /** The username block of `handleRegister`: its first failing check's message, if any. */
  method CheckUsername(s: RegisterState) returns (err: Option<string>)
    ensures err == FirstReport(UsernameChecks, s)
  {
    err := None;
    if Trim(s.username) == [] {
      err := Some(Message(UsernameBlank));
      ReportsFirstFailure(UsernameChecks, s, 0);
      return;
    }
    if |s.username| < 3 {
      err := Some(Message(UsernameTooShort));
      ReportsFirstFailure(UsernameChecks, s, 1);
      return;
    }
    if !MatchesUsernameRegex(s.username) {
      err := Some(Message(UsernameBadChars));
      ReportsFirstFailure(UsernameChecks, s, 2);
      return;
    }
  }

  /** The e-mail block of `handleRegister`. */
  method CheckEmail(s: RegisterState) returns (err: Option<string>)
    ensures err == FirstReport(EmailChecks, s)
  {
    err := None;
    if Trim(s.email) == [] {
      err := Some(Message(EmailBlank));
      ReportsFirstFailure(EmailChecks, s, 0);
      return;
    }
    if !MatchesEmailRegex(s.email) {
      err := Some(Message(EmailMalformed));
      ReportsFirstFailure(EmailChecks, s, 1);
      return;
    }
  }

  /** The password block of `handleRegister`. */
  method CheckPassword(s: RegisterState) returns (err: Option<string>)
    ensures err == FirstReport(PasswordChecks, s)
  {
    err := None;
    if s.password == [] {
      err := Some(Message(PasswordEmpty));
      ReportsFirstFailure(PasswordChecks, s, 0);
      return;
    }
    if |s.password| < 6 {
      err := Some(Message(PasswordTooShort));
      ReportsFirstFailure(PasswordChecks, s, 1);
      return;
    }
    if !HasUppercase(s.password) {
      err := Some(Message(PasswordNoUppercase));
      ReportsFirstFailure(PasswordChecks, s, 2);
      return;
    }
    if !HasDigit(s.password) {
      err := Some(Message(PasswordNoDigit));
      ReportsFirstFailure(PasswordChecks, s, 3);
      return;
    }
  }

  /** The confirmation block of `handleRegister`. */
  method CheckConfirmation(s: RegisterState) returns (err: Option<string>)
    ensures err == FirstReport(ConfirmChecks, s)
  {
    err := None;
    if s.confirmPassword == [] {
      err := Some(Message(ConfirmEmpty));
      ReportsFirstFailure(ConfirmChecks, s, 0);
      return;
    }
    if s.password != s.confirmPassword {
      err := Some(Message(ConfirmMismatch));
      ReportsFirstFailure(ConfirmChecks, s, 1);
      return;
    }
  }

  // ---------------------------------------------------------------------------
  // The screen

  /** A navigation request: the route name and the `email` route parameter, if any. */
  datatype Navigation = Navigate(route: string, email: Option<string>)

  /** Where the screen goes after a successful registration, as written: no parameters. */
  const VerifyNavigationAsWritten := Navigate("verify-email", None)

  class RegisterScreen {
    var state: RegisterState
    /** The screen's own error text (`err`). */
    var err: Option<string>
    const auth: AuthProvider

    constructor (auth: AuthProvider)
      ensures this.auth == auth && state == EmptyForm && err == None
    {
      this.auth := auth;
      state := EmptyForm;
      err := None;
    }

    /** `dispatch(action)` from a text input. */
    method Dispatch(action: RegisterAction)
      modifies this`state
      ensures state == Reduce(old(state), action)
    {
      state := Reduce(state, action);
    }

    /**
     * `handleRegister`: clears `err`, runs the checks in order and stops at
     * the first failure with its message; when all pass, calls `register`
     * once (with e-mail, password and username in that order) and navigates
     * on a true result. `register` never throws, so the catch that would set
     * a generic message cannot run.
     */
    method HandleRegister(deviceId: string, reply: ApiOutcome<Option<RegisterBody>>)
      returns (sent: Option<RegisterRequest>, nav: Option<Navigation>)
      modifies this`err, auth`isLoading
      ensures err == Validate(state)
      ensures sent.Some? <==> err == None
      ensures sent.Some? ==>
        sent.value.email == state.email && sent.value.password == state.password && sent.value.username == state.username
      ensures nav.Some? <==> sent.Some? && RegisterAccepted(reply)
      ensures nav.Some? ==> nav.value == VerifyNavigationAsWritten
      ensures sent.None? ==> auth.isLoading == old(auth.isLoading)
      ensures sent.Some? ==> !auth.isLoading
    {
      err := None;
      sent, nav := None, None;
      ValidateByGroups(state);
      err := CheckUsername(state);
      if err.Some? {
        return;
      }
      err := CheckEmail(state);
      if err.Some? {
        return;
      }
      err := CheckPassword(state);
      if err.Some? {
        return;
      }
      err := CheckConfirmation(state);
      if err.Some? {
        return;
      }
      var ok, request := auth.Register(state.email, state.password, state.username, deviceId, reply);
      sent := Some(request);
      if ok {
        nav := Some(VerifyNavigationAsWritten);
      }
    }
  }
}
