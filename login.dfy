/**
 * The sign-in and registration page (src/pages/Login.jsx): the password
 * strength meter, the e-mail pattern, the ordered checks made before
 * signing up or signing in, the messages shown when the auth service
 * refuses, and the resend cooldown.
 */
module Login {
  import opened Common
  import opened Text

  /** The five results of `calculatePasswordStrength`, in the order `Object.values` lists them. */
  datatype PasswordChecks = PasswordChecks(length: bool, uppercase: bool, lowercase: bool, number: bool, special: bool)

  function Values(c: PasswordChecks): seq<bool>
  {
    [c.length, c.uppercase, c.lowercase, c.number, c.special]
  }

  predicate HasCharIn(s: string, lo: char, hi: char)
  {
    exists i :: 0 <= i < |s| && lo <= s[i] <= hi
  }

  /** The characters of the class `[!@#$%^&*(),.?":{}|<>]`. */
  const Specials: set<char> := {'!', '@', '#', '$', '%', '^', '&', '*', '(', ')', ',', '.', '?', '"', ':', '{', '}', '|', '<', '>'}

  predicate HasSpecial(s: string)
  {
    exists i :: 0 <= i < |s| && s[i] in Specials
  }

  /** Each check: at least 8 characters, an upper-case letter, a lower-case letter, a digit, a listed special character. */
  function Checks(password: string): PasswordChecks
  {
    PasswordChecks(|password| >= 8, HasCharIn(password, 'A', 'Z'), HasCharIn(password, 'a', 'z'),
                   HasCharIn(password, '0', '9'), HasSpecial(password))
  }

  /** The test `passed => passed`. */
  function Passed(): bool -> bool
  {
    b => b
  }

  /** The strength score: the number of passing checks. */
  function Score(password: string): (r: nat)
    ensures r <= 5
  {
    FilterLength(Values(Checks(password)), Passed());
    Count(Values(Checks(password)), Passed())
  }

  function Bit(b: bool): nat
  {
    if b then 1 else 0
  }

  /** Counting over the five checks adds up the passing ones. */
  lemma {:induction false} CountFive(c: PasswordChecks)
    ensures Count(Values(c), Passed()) == Bit(c.length) + Bit(c.uppercase) + Bit(c.lowercase) + Bit(c.number) + Bit(c.special)
  {
    var p := Passed();
    var v := Values(c);
    assert v[1..] == [c.uppercase, c.lowercase, c.number, c.special];
    assert v[1..][1..] == [c.lowercase, c.number, c.special];
    assert v[1..][1..][1..] == [c.number, c.special];
    assert v[1..][1..][1..][1..] == [c.special];
    assert v[1..][1..][1..][1..][1..] == [];
    assert Count(v[1..][1..][1..][1..], p) == Bit(c.special);
    assert Count(v[1..][1..][1..], p) == Bit(c.number) + Bit(c.special);
    assert Count(v[1..][1..], p) == Bit(c.lowercase) + Bit(c.number) + Bit(c.special);
    assert Count(v[1..], p) == Bit(c.uppercase) + Bit(c.lowercase) + Bit(c.number) + Bit(c.special);
  }

  /** The score reaches 5 exactly when every check passes, and 0 exactly when none does. */
  lemma {:induction false} ScoreExtremes(password: string)
    ensures var c := Checks(password);
            Score(password) == 5 <==> c.length && c.uppercase && c.lowercase && c.number && c.special
    ensures var c := Checks(password);
            Score(password) == 0 <==> !c.length && !c.uppercase && !c.lowercase && !c.number && !c.special
  {
    CountFive(Checks(password));
  }

  /**
   * `calculatePasswordStrength`: the checks, and a score counted up over
   * them one by one.
   */
  method CalculatePasswordStrength(password: string) returns (score: nat, checks: PasswordChecks)
    ensures checks == Checks(password)
    ensures score == Score(password)
  {
    checks := Checks(password);
    var values := Values(checks);
    score := 0;
    var i := 0;
    while i < |values|
      invariant 0 <= i <= |values|
      invariant score + Count(values[i..], Passed()) == Count(values, Passed())
    {
      assert values[i..][1..] == values[i + 1..];
      if values[i] {
        score := score + 1;
      }
      i := i + 1;
    }
  }

  /** The label and bar colours of a score. */
  datatype StrengthInfo = StrengthInfo(caption: string, color: string, textColor: string)

  const WeakInfo := StrengthInfo("Weak", "bg-red-500", "text-red-400")
  const FairInfo := StrengthInfo("Fair", "bg-orange-500", "text-orange-400")
  const GoodInfo := StrengthInfo("Good", "bg-yellow-500", "text-yellow-400")
  const StrongInfo := StrengthInfo("Strong", "bg-green-500", "text-green-400")
  const ExcellentInfo := StrengthInfo("Excellent", "bg-emerald-500", "text-emerald-400")

  /** The rank of a label, weakest first. */
  function Rank(info: StrengthInfo): nat
  {
    if info == WeakInfo then 0
    else if info == FairInfo then 1
    else if info == GoodInfo then 2
    else if info == StrongInfo then 3
    else 4
  }

  /** `getStrengthLabel`: Weak up to 1, then Fair, Good, Strong, and Excellent above 4. */
  function StrengthLabel(score: int): (r: StrengthInfo)
    ensures r in {WeakInfo, FairInfo, GoodInfo, StrongInfo, ExcellentInfo}
    ensures score <= 1 <==> r == WeakInfo
    ensures score > 4 <==> r == ExcellentInfo
    ensures 1 < score <= 4 ==> Rank(r) == score - 1
  {
    if score <= 1 then WeakInfo
    else if score <= 2 then FairInfo
    else if score <= 3 then GoodInfo
    else if score <= 4 then StrongInfo
    else ExcellentInfo
  }

  /**
   * A higher score never gets a weaker label, and the register button's
   * threshold (a score of 3) is exactly the "Good" label or better.
   */
  lemma {:induction false} StrengthLabelMonotone(a: int, b: int)
    requires a <= b
    ensures Rank(StrengthLabel(a)) <= Rank(StrengthLabel(b))
    ensures a >= 3 <==> Rank(StrengthLabel(a)) >= Rank(GoodInfo)
  {
  }

  /** A character the e-mail pattern accepts outside its separators: `[^\s@]`. */
  predicate Plain(c: char)
  {
    !IsSpace(c) && c != '@'
  }

  /** Every character of `s[lo..hi]` is plain. */
  predicate AllPlain(s: string, lo: int, hi: int)
  {
    forall i :: lo <= i < hi && 0 <= i < |s| ==> Plain(s[i])
  }

  /**
   * The pattern `^[^\s@]+@[^\s@]+\.[^\s@]+$` read literally: a non-empty
   * plain run, `@`, a non-empty plain run, `.`, a non-empty plain run.
   */
  predicate MatchesEmailPattern(s: string)
  {
    exists at, dot :: 0 < at && at + 1 < dot && dot + 1 < |s| && s[at] == '@' && s[dot] == '.'
                      && AllPlain(s, 0, at) && AllPlain(s, at + 1, dot) && AllPlain(s, dot + 1, |s|)
  }

  /** The test `c => c === '@'`. */
  function IsAt(): char -> bool
  {
    c => c == '@'
  }

  /** The domain after the `@` at `at` has a `.` that is neither its first nor its last character. */
  predicate InnerDot(s: string, at: int)
  {
    exists dot :: 0 <= at + 1 < dot < |s| - 1 && s[dot] == '.'
  }

  /**
   * `isValidEmail`, decided directly: the first `@` has something before
   * it, nothing before or after it is whitespace or another `@`, and the
   * domain after it has an inner `.`.
   */
  function IsValidEmail(s: string): bool
  {
    var at := FindFirst(s, IsAt());
    at > 0 && AllPlain(s, 0, at) && AllPlain(s, at + 1, |s|) && InnerDot(s, at)
  }

  /** The direct decision accepts exactly the addresses the pattern matches. */
  lemma {:induction false} IsValidEmailMatchesPattern(s: string)
    ensures IsValidEmail(s) <==> MatchesEmailPattern(s)
  {
    if IsValidEmail(s) {
      ValidEmailMatches(s);
    }
    if MatchesEmailPattern(s) {
      MatchingEmailValid(s);
    }
  }

  lemma {:induction false} ValidEmailMatches(s: string)
    requires IsValidEmail(s)
    ensures MatchesEmailPattern(s)
  {
    var at := FindFirst(s, IsAt());
    var dot :| 0 <= at + 1 < dot < |s| - 1 && s[dot] == '.';
    assert AllPlain(s, at + 1, dot) && AllPlain(s, dot + 1, |s|);
  }

  lemma {:induction false} MatchingEmailValid(s: string)
    requires MatchesEmailPattern(s)
    ensures IsValidEmail(s)
  {
    var at, dot :| 0 < at && at + 1 < dot && dot + 1 < |s| && s[at] == '@' && s[dot] == '.'
                   && AllPlain(s, 0, at) && AllPlain(s, at + 1, dot) && AllPlain(s, dot + 1, |s|);
    FirstAtIndex(s, at);
    assert Plain(s[dot]);
    AllPlainJoin(s, at + 1, dot, |s|);
    assert InnerDot(s, at);
  }

  /** Two plain runs around a plain character make one plain run. */
  lemma {:induction false} AllPlainJoin(s: string, lo: int, mid: int, hi: int)
    requires 0 <= mid < |s| && AllPlain(s, lo, mid) && Plain(s[mid]) && AllPlain(s, mid + 1, hi)
    ensures AllPlain(s, lo, hi)
  {
    forall i | lo <= i < hi && 0 <= i < |s|
      ensures Plain(s[i])
    {
      if i > mid {
        assert mid + 1 <= i;
      }
    }
  }

  /** The first `@` of a text whose prefix before `at` is plain is at `at`. */
  lemma {:induction false} FirstAtIndex(s: string, at: nat)
    requires at < |s| && s[at] == '@' && AllPlain(s, 0, at)
    ensures FindFirst(s, IsAt()) == at
  {
    assert forall i :: 0 <= i < at ==> !IsAt()(s[i]);
    assert IsAt()(s[at]);
  }

  /** A check made before calling the auth service, and the message shown when it fails. */
  datatype Check = Check(ok: bool, message: string)

  /** The message of the first failing check, if any. */
  function FirstFailure(checks: seq<Check>): (r: Option<string>)
    ensures r.None? <==> forall k :: 0 <= k < |checks| ==> checks[k].ok
    ensures r.Some? ==> exists k :: 0 <= k < |checks| && !checks[k].ok && r.value == checks[k].message
                                    && forall j :: 0 <= j < k ==> checks[j].ok
  {
    if checks == [] then None
    else if !checks[0].ok then Some(checks[0].message)
    else
      var rest := FirstFailure(checks[1..]);
      if rest.Some? then
        var k :| 0 <= k < |checks[1..]| && !checks[1..][k].ok && rest.value == checks[1..][k].message
                 && forall j :: 0 <= j < k ==> checks[1..][j].ok;
        assert forall j :: 0 <= j < k + 1 ==> checks[j].ok by {
          forall j | 0 <= j < k + 1 ensures checks[j].ok {
            if j > 0 {
              assert checks[j] == checks[1..][j - 1];
            }
          }
        }
        rest
      else rest
  }

  /** The first failing check is the first one in order, whatever follows it. */
  lemma {:induction false} FirstFailureIsFirst(checks: seq<Check>, k: nat)
    requires k < |checks| && !checks[k].ok
    requires forall j :: 0 <= j < k ==> checks[j].ok
    ensures FirstFailure(checks) == Some(checks[k].message)
  {
    if k > 0 {
      FirstFailureIsFirst(checks[1..], k - 1);
    }
  }

  /**
   * The nine checks of `handleRegisterSubmit`, in the order they are made
   * (`!s.trim()` holds exactly for a blank text).
   */
  function RegisterChecks(name: string, email: string, password: string, confirm: string): seq<Check>
  {
    [ Check(!IsBlank(name), NameMissing),
      Check(|Trim(name)| >= 2, NameTooShort),
      Check(!IsBlank(email), EmailMissing),
      Check(IsValidEmail(email), EmailMalformedExample),
      Check(password != "", PasswordMissing),
      Check(|password| >= 8, PasswordTooShort),
      Check(Score(password) >= 3, PasswordTooWeak),
      Check(confirm != "", ConfirmMissing),
      Check(password == confirm, ConfirmMismatch) ]
  }

  const NameMissing := "Please enter your name"
  const NameTooShort := "Name must be at least 2 characters"
  const EmailMissing := "Please enter your email address"
  const EmailMalformedExample := "Please enter a valid email address (e.g., name@example.com)"
  const PasswordMissing := "Please create a password"
  const PasswordTooShort := "Password must be at least 8 characters long"
  const PasswordTooWeak := "Please use a stronger password - include uppercase, lowercase, numbers, and special characters"
  const ConfirmMissing := "Please confirm your password"
  const ConfirmMismatch := "Passwords do not match - please try again"

  /** The message `handleRegisterSubmit` shows before signing up, if any. */
  function RegisterError(name: string, email: string, password: string, confirm: string): Option<string>
  {
    FirstFailure(RegisterChecks(name, email, password, confirm))
  }

  /** Every check passes. */
  predicate AllPass(checks: seq<Check>)
  {
    forall k :: 0 <= k < |checks| ==> checks[k].ok
  }

  /** Nine checks all pass exactly when each of them does. */
  lemma {:induction false} AllPassNine(checks: seq<Check>)
    requires |checks| == 9
    ensures AllPass(checks) <==> checks[0].ok && checks[1].ok && checks[2].ok && checks[3].ok && checks[4].ok
                                 && checks[5].ok && checks[6].ok && checks[7].ok && checks[8].ok
  {
  }

  /**
   * Signing up is attempted exactly with a trimmed name of two or more
   * characters, an address matching the pattern, a password of eight or
   * more characters scoring at least 3, and a matching confirmation.
   */
  lemma {:induction false} RegisterAccepts(name: string, email: string, password: string, confirm: string)
    ensures RegisterError(name, email, password, confirm).None? <==>
              |Trim(name)| >= 2 && MatchesEmailPattern(email) && |password| >= 8 && Score(password) >= 3 && password == confirm
  {
    var checks := RegisterChecks(name, email, password, confirm);
    assert RegisterError(name, email, password, confirm).None? <==> AllPass(checks);
    AllPassNine(checks);
    IsValidEmailMatchesPattern(email);
    if MatchesEmailPattern(email) {
      ValidEmailNotBlank(email);
    }
  }

  /** A password scoring at least 3 with the length check passed has at least two of the four character classes. */
  lemma {:induction false} StrongPasswordClasses(password: string)
    requires Score(password) >= 3
    ensures var c := Checks(password);
            Bit(c.uppercase) + Bit(c.lowercase) + Bit(c.number) + Bit(c.special) >= 2
  {
    CountFive(Checks(password));
  }

  /** A sign-up that passes the checks carries a name, so the "Chef" fallback never applies. */
  lemma {:induction false} RegisterNameGiven(name: string, email: string, password: string, confirm: string)
    requires RegisterError(name, email, password, confirm).None?
    ensures name != ""
  {
    var checks := RegisterChecks(name, email, password, confirm);
    assert checks[0].ok;
  }

  /** An address matching the pattern is not blank. */
  lemma {:induction false} ValidEmailNotBlank(email: string)
    requires MatchesEmailPattern(email)
    ensures !IsBlank(email)
  {
    var at, dot :| 0 < at && at + 1 < dot && dot + 1 < |email| && email[at] == '@' && email[dot] == '.'
                   && AllPlain(email, 0, at) && AllPlain(email, at + 1, dot) && AllPlain(email, dot + 1, |email|);
    assert !IsSpace(email[at]);
  }

  /** A password shorter than eight characters is refused with the length message once name and address pass. */
  lemma {:induction false} ShortPasswordMessage(name: string, email: string, password: string, confirm: string)
    requires |Trim(name)| >= 2 && IsValidEmail(email) && password != "" && |password| < 8
    ensures RegisterError(name, email, password, confirm) == Some(PasswordTooShort)
  {
    FirstFailureIsFirst(RegisterChecks(name, email, password, confirm), 5);
  }

  /** The three checks of `handleLoginSubmit`, in order. */
  function LoginChecks(email: string, password: string): seq<Check>
  {
    [ Check(!IsBlank(email), EmailMissing),
      Check(IsValidEmail(email), InvalidEmailMessage),
      Check(password != "", SignInPasswordMissing) ]
  }

  const SignInPasswordMissing := "Please enter your password"

  /** The message `handleLoginSubmit` shows before signing in, if any. */
  function LoginError(email: string, password: string): Option<string>
  {
    FirstFailure(LoginChecks(email, password))
  }

  /** Signing in is attempted exactly with an address matching the pattern and a non-empty password. */
  lemma {:induction false} LoginAccepts(email: string, password: string)
    ensures LoginError(email, password).None? <==> MatchesEmailPattern(email) && password != ""
    ensures IsBlank(email) ==> LoginError(email, password) == Some(EmailMissing)
  {
    var checks := LoginChecks(email, password);
    IsValidEmailMatchesPattern(email);
    if MatchesEmailPattern(email) {
      ValidEmailNotBlank(email);
    }
    if IsBlank(email) {
      FirstFailureIsFirst(checks, 0);
    }
    if forall k :: 0 <= k < |checks| ==> checks[k].ok {
      assert checks[1].ok && checks[2].ok;
    }
  }

  /** The lower-cased message of an auth error, or `""`. */
  function LoweredMessage(message: Option<string>): string
  {
    Lower(message.GetOr(""))
  }

  /** `err.message || fallback`. */
  function MessageOr(message: Option<string>, fallback: string): (r: string)
    ensures fallback != "" ==> r != ""
  {
    if message.Some? && message.value != "" then message.value else fallback
  }

  /** The keyword groups the sign-up error is classified by, tested on the lower-cased message. */
  predicate AlreadyRegistered(m: string) { Contains(m, "already registered") || Contains(m, "already exists") }
  predicate InvalidEmail(m: string) { Contains(m, "invalid email") }
  predicate WeakPassword(m: string) { Contains(m, "weak password") }
  predicate RateLimited(m: string) { Contains(m, "rate limit") }

  const AlreadyRegisteredMessage := "This email is already registered. Please sign in instead."
  const InvalidEmailMessage := "Please enter a valid email address"
  const WeakPasswordMessage := "Please use a stronger password"
  const TooManyAttemptsMessage := "Too many attempts. Please wait a moment and try again."
  const SignUpFallback := "Something went wrong. Please try again."

  /**
   * The message shown when signing up fails: the first keyword group that
   * matches picks a fixed text; an unrecognised error shows its own text,
   * or a generic one when it has none.
   */
  function SignUpErrorMessage(message: Option<string>): (r: string)
    ensures r != ""
    ensures AlreadyRegistered(LoweredMessage(message)) ==> r == AlreadyRegisteredMessage
    ensures !AlreadyRegistered(LoweredMessage(message)) && InvalidEmail(LoweredMessage(message)) ==> r == InvalidEmailMessage
    ensures !AlreadyRegistered(LoweredMessage(message)) && !InvalidEmail(LoweredMessage(message))
            && WeakPassword(LoweredMessage(message)) ==>
              r == WeakPasswordMessage
    ensures !AlreadyRegistered(LoweredMessage(message)) && !InvalidEmail(LoweredMessage(message))
            && !WeakPassword(LoweredMessage(message)) && RateLimited(LoweredMessage(message)) ==>
              r == TooManyAttemptsMessage
    ensures !AlreadyRegistered(LoweredMessage(message)) && !InvalidEmail(LoweredMessage(message))
            && !WeakPassword(LoweredMessage(message)) && !RateLimited(LoweredMessage(message)) ==>
              r == MessageOr(message, SignUpFallback)
  {
    var m := LoweredMessage(message);
    if AlreadyRegistered(m) then AlreadyRegisteredMessage
    else if InvalidEmail(m) then InvalidEmailMessage
    else if WeakPassword(m) then WeakPasswordMessage
    else if RateLimited(m) then TooManyAttemptsMessage
    else MessageOr(message, SignUpFallback)
  }

  /** The keyword groups the sign-in error is classified by, tested on the lower-cased message. */
  predicate BadCredentials(m: string) { Contains(m, "invalid login") || Contains(m, "invalid credentials") }
  predicate NotConfirmed(m: string) { Contains(m, "email not confirmed") }
  predicate TooManyRequests(m: string) { Contains(m, "too many requests") || Contains(m, "rate limit") }
  predicate UnknownUser(m: string) { Contains(m, "user not found") }

  const InvalidCredentialsMessage := "Invalid email or password. Please try again."
  const NotConfirmedMessage := "Please verify your email before signing in."
  const NoAccountMessage := "No account found with this email. Please sign up first."
  const SignInFallback := "Unable to sign in. Please check your credentials."

  /**
   * The message shown when signing in fails: the first keyword group that
   * matches picks a fixed text; an unrecognised error shows its own text,
   * or a generic one when it has none.
   */
  function SignInErrorMessage(message: Option<string>): (r: string)
    ensures r != ""
    ensures BadCredentials(LoweredMessage(message)) ==> r == InvalidCredentialsMessage
    ensures !BadCredentials(LoweredMessage(message)) && NotConfirmed(LoweredMessage(message)) ==> r == NotConfirmedMessage
    ensures !BadCredentials(LoweredMessage(message)) && !NotConfirmed(LoweredMessage(message))
            && TooManyRequests(LoweredMessage(message)) ==>
              r == TooManyAttemptsMessage
    ensures !BadCredentials(LoweredMessage(message)) && !NotConfirmed(LoweredMessage(message))
            && !TooManyRequests(LoweredMessage(message)) && UnknownUser(LoweredMessage(message)) ==>
              r == NoAccountMessage
    ensures !BadCredentials(LoweredMessage(message)) && !NotConfirmed(LoweredMessage(message))
            && !TooManyRequests(LoweredMessage(message)) && !UnknownUser(LoweredMessage(message)) ==>
              r == MessageOr(message, SignInFallback)
  {
    var m := LoweredMessage(message);
    if BadCredentials(m) then InvalidCredentialsMessage
    else if NotConfirmed(m) then NotConfirmedMessage
    else if TooManyRequests(m) then TooManyAttemptsMessage
    else if UnknownUser(m) then NoAccountMessage
    else MessageOr(message, SignInFallback)
  }

  /** An error without a message matches no keyword and gets the generic text of its form. */
  lemma {:induction false} MissingMessageFallbacks()
    ensures SignUpErrorMessage(None) == SignUpFallback
    ensures SignInErrorMessage(None) == SignInFallback
  {
    var m := LoweredMessage(None);
    assert m == "";
    forall t: string | t != "" ensures !Contains(m, t) {
      if Contains(m, t) {
        ContainsShorter(m, t);
      }
    }
    assert "already registered" != "" && "rate limit" != "";
  }

  /** A message the classification does not recognise is shown as it is. */
  lemma {:induction false} UnrecognisedSignUpMessageShown(message: string)
    requires message != ""
    requires var m := Lower(message);
             !AlreadyRegistered(m) && !InvalidEmail(m) && !WeakPassword(m) && !RateLimited(m)
    ensures SignUpErrorMessage(Some(message)) == message
  {
  }

  /** The seconds the resend button stays disabled after a sign-up or a resend. */
  const ResendCooldown: nat := 60

  /** What the auth service answered. */
  datatype AuthOutcome = Succeeded | Failed(message: Option<string>)

  /** The sign-up call: the display name falls back to "Chef" when the name is empty. */
  datatype SignUpRequest = SignUpRequest(email: string, password: string, displayName: string)

  datatype Step = RegisterStep | VerifyStep

  class LoginPage {
    var isLogin: bool
    var step: Step
    var name: string
    var email: string
    var password: string
    var confirmPassword: string
    var resendCooldown: nat
    var error: string
    var isLoading: bool

    /** The page opens on sign-in unless the `mode` parameter asks for sign-up. */
    constructor(mode: Option<string>)
      ensures isLogin == (mode != Some("signup")) && step == RegisterStep
      ensures name == "" && email == "" && password == "" && confirmPassword == ""
      ensures resendCooldown == 0 && error == "" && !isLoading
    {
      isLogin := mode != Some("signup");
      step := RegisterStep;
      name, email, password, confirmPassword := "", "", "", "";
      resendCooldown := 0;
      error := "";
      isLoading := false;
    }

    /** The register button: disabled while loading or for a score below 3. */
    predicate RegisterEnabled()
      reads this
    {
      !isLoading && Score(password) >= 3
    }

    /** The form's inputs. */
    method Edit(name: string, email: string, password: string, confirmPassword: string)
      modifies this
      ensures this.name == name && this.email == email && this.password == password && this.confirmPassword == confirmPassword
      ensures isLogin == old(isLogin) && step == old(step) && resendCooldown == old(resendCooldown)
      ensures error == old(error) && isLoading == old(isLoading)
    {
      this.name, this.email, this.password, this.confirmPassword := name, email, password, confirmPassword;
    }

    /**
     * `handleRegisterSubmit`: the first failing check's message is shown and
     * nothing is sent; otherwise the error is cleared, loading starts and
     * the sign-up is sent with the entered name.
     */
    method HandleRegisterSubmit() returns (request: Option<SignUpRequest>)
      modifies this
      ensures var e := RegisterError(old(name), old(email), old(password), old(confirmPassword));
              (e.Some? ==> request.None? && error == e.value && isLoading == old(isLoading))
              && (e.None? ==> request == Some(SignUpRequest(email, password, name)) && error == "" && isLoading)
      ensures name == old(name) && email == old(email) && password == old(password) && confirmPassword == old(confirmPassword)
      ensures isLogin == old(isLogin) && step == old(step) && resendCooldown == old(resendCooldown)
    {
      error := "";
      var e := RegisterError(name, email, password, confirmPassword);
      if e.Some? {
        error := e.value;
        return None;
      }
      RegisterNameGiven(name, email, password, confirmPassword);
      isLoading := true;
      var displayName := if name == "" then "Chef" else name;
      request := Some(SignUpRequest(email, password, displayName));
    }

    /** The end of sign-up: success moves to verification and starts the cooldown; failure shows the message. */
    method FinishRegister(outcome: AuthOutcome)
      requires isLoading
      modifies this
      ensures !isLoading
      ensures outcome.Succeeded? ==> step == VerifyStep && resendCooldown == ResendCooldown && error == old(error)
      ensures outcome.Failed? ==> step == old(step) && resendCooldown == old(resendCooldown) && error == SignUpErrorMessage(outcome.message)
      ensures isLogin == old(isLogin) && name == old(name) && email == old(email) && password == old(password)
      ensures confirmPassword == old(confirmPassword)
    {
      if outcome.Succeeded? {
        step := VerifyStep;
        resendCooldown := ResendCooldown;
      } else {
        error := SignUpErrorMessage(outcome.message);
      }
      isLoading := false;
    }

    /** `handleLoginSubmit`: the first failing check's message, or the sign-in call with loading started. */
    method HandleLoginSubmit() returns (signIn: bool)
      modifies this
      ensures var e := LoginError(old(email), old(password));
              (e.Some? ==> !signIn && error == e.value && isLoading == old(isLoading))
              && (e.None? ==> signIn && error == "" && isLoading)
      ensures name == old(name) && email == old(email) && password == old(password) && confirmPassword == old(confirmPassword)
      ensures isLogin == old(isLogin) && step == old(step) && resendCooldown == old(resendCooldown)
    {
      error := "";
      var e := LoginError(email, password);
      if e.Some? {
        error := e.value;
        return false;
      }
      isLoading := true;
      signIn := true;
    }

    /** The end of sign-in: success navigates to the dashboard; failure shows the message. */
    method FinishLogin(outcome: AuthOutcome) returns (navigateTo: Option<string>)
      requires isLoading
      modifies this
      ensures !isLoading
      ensures outcome.Succeeded? ==> navigateTo == Some("/dashboard") && error == old(error)
      ensures outcome.Failed? ==> navigateTo.None? && error == SignInErrorMessage(outcome.message)
      ensures isLogin == old(isLogin) && step == old(step) && resendCooldown == old(resendCooldown)
      ensures name == old(name) && email == old(email) && password == old(password) && confirmPassword == old(confirmPassword)
    {
      if outcome.Succeeded? {
        navigateTo := Some("/dashboard");
      } else {
        navigateTo := None;
        error := SignInErrorMessage(outcome.message);
      }
      isLoading := false;
    }

    /** `handleResendEmail`: nothing while the cooldown runs; otherwise the error is cleared and the resend is sent. */
    method HandleResendEmail() returns (resend: bool)
      modifies this
      ensures resend <==> old(resendCooldown) == 0
      ensures !resend ==> error == old(error)
      ensures resend ==> error == ""
      ensures resendCooldown == old(resendCooldown) && isLoading == old(isLoading) && step == old(step)
      ensures isLogin == old(isLogin) && name == old(name) && email == old(email) && password == old(password) && confirmPassword == old(confirmPassword)
    {
      if resendCooldown > 0 {
        return false;
      }
      error := "";
      resend := true;
    }

    /** The end of a resend: success restarts the cooldown; failure shows the error's text or a fallback. */
    method FinishResend(outcome: AuthOutcome)
      modifies this
      ensures outcome.Succeeded? ==> resendCooldown == ResendCooldown && error == old(error)
      ensures outcome.Failed? ==>
                resendCooldown == old(resendCooldown) && error == MessageOr(outcome.message, "Failed to resend confirmation email")
      ensures isLoading == old(isLoading) && step == old(step)
      ensures isLogin == old(isLogin) && name == old(name) && email == old(email) && password == old(password) && confirmPassword == old(confirmPassword)
    {
      if outcome.Succeeded? {
        resendCooldown := ResendCooldown;
      } else {
        error := MessageOr(outcome.message, "Failed to resend confirmation email");
      }
    }

    /** One second of the cooldown timer: it counts down to zero and stops there. */
    method Tick()
      modifies this
      ensures resendCooldown == (if old(resendCooldown) > 0 then old(resendCooldown) - 1 else 0)
      ensures error == old(error) && isLoading == old(isLoading) && step == old(step)
      ensures isLogin == old(isLogin) && name == old(name) && email == old(email) && password == old(password) && confirmPassword == old(confirmPassword)
    {
      if resendCooldown > 0 {
        resendCooldown := resendCooldown - 1;
      }
    }

    /** "Create an account": the registration form with no error. */
    method ShowRegister()
      modifies this
      ensures !isLogin && step == RegisterStep && error == ""
      ensures resendCooldown == old(resendCooldown) && isLoading == old(isLoading)
      ensures name == old(name) && email == old(email) && password == old(password) && confirmPassword == old(confirmPassword)
    {
      isLogin := false;
      step := RegisterStep;
      error := "";
    }

    /** "Sign in instead": the sign-in form with no error. */
    method ShowLogin()
      modifies this
      ensures isLogin && step == old(step) && error == ""
      ensures resendCooldown == old(resendCooldown) && isLoading == old(isLoading)
      ensures name == old(name) && email == old(email) && password == old(password) && confirmPassword == old(confirmPassword)
    {
      isLogin := true;
      error := "";
    }
  }
}
