/**
 * The sign-up and e-mail verification pages of the front end:
 * RegisterPage.tsx (the password-complexity pattern and the confirmation
 * check before the register call), VerifyEmailPage.tsx and
 * VerifyEmailForm.tsx (the code input, the resend countdown and the verify
 * call).
 *
 * Calls to the API are recorded and their outcome is a parameter; a tick
 * is one firing of the one-second timer followed by the effects it
 * triggers.
 */
module AuthPages {
  import opened Wrappers
  import opened Text

  /** How an awaited API call ended. */
  datatype CallOutcome = Resolved | ThrewError(message: string) | ThrewOther

  /** The message shown for a failed call: the error's own message, or the
      page's fallback. */
  function FailureText(outcome: CallOutcome, fallback: string): (m: string)
    requires !outcome.Resolved?
    ensures outcome.ThrewError? ==> m == outcome.message
    ensures outcome.ThrewOther? ==> m == fallback
  {
    if outcome.ThrewError? then outcome.message else fallback
  }

  // ---------------------------------------------------------------------
  // RegisterPage.tsx: the password pattern

  predicate IsPasswordSpecial(c: char) {
    c == '@' || c == '$' || c == '!' || c == '%' || c == '*' || c == '?' || c == '&'
  }

  /** `[A-Za-z\d@$!%*?&]`. */
  predicate IsPasswordChar(c: char) { IsAsciiAlnum(c) || IsPasswordSpecial(c) }

  /** The character classes a password contains, found in one pass. */
  datatype Classes = Classes(allAllowed: bool, lower: bool, upper: bool, digit: bool, special: bool)

  function ScanPassword(s: string): Classes {
    if s == [] then Classes(true, false, false, false, false)
    else
      var rest := ScanPassword(s[1..]);
      var c := s[0];
      Classes(IsPasswordChar(c) && rest.allAllowed, IsAsciiLower(c) || rest.lower, IsAsciiUpper(c) || rest.upper,
              IsAsciiDigit(c) || rest.digit, IsPasswordSpecial(c) || rest.special)
  }

  /** `/^(?=.*[a-z])(?=.*[A-Z])(?=.*\d)(?=.*[@$!%*?&])[A-Za-z\d@$!%*?&]{8,}$/`.
      Every accepted character is ASCII, so the count of characters is the
      count of code units. */
  predicate MatchesPasswordPattern(s: string) {
    var c := ScanPassword(s);
    |s| >= 8 && c.allAllowed && c.lower && c.upper && c.digit && c.special
  }

  predicate HasCharWith(s: string, p: char -> bool) {
    exists i :: 0 <= i < |s| && p(s[i])
  }

  /** The pattern as a list of independent requirements. */
  predicate StrongPassword(s: string) {
    |s| >= 8 && (forall i :: 0 <= i < |s| ==> IsPasswordChar(s[i]))
    && HasCharWith(s, IsAsciiLower) && HasCharWith(s, IsAsciiUpper)
    && HasCharWith(s, IsAsciiDigit) && HasCharWith(s, IsPasswordSpecial)
  }

  lemma {:induction false} ScanPasswordMeaning(s: string)
    ensures ScanPassword(s).allAllowed <==> forall i :: 0 <= i < |s| ==> IsPasswordChar(s[i])
    ensures ScanPassword(s).lower <==> HasCharWith(s, IsAsciiLower)
    ensures ScanPassword(s).upper <==> HasCharWith(s, IsAsciiUpper)
    ensures ScanPassword(s).digit <==> HasCharWith(s, IsAsciiDigit)
    ensures ScanPassword(s).special <==> HasCharWith(s, IsPasswordSpecial)
  {
    if s != [] {
      ScanPasswordMeaning(s[1..]);
      HasCharWithCons(s, IsAsciiLower);
      HasCharWithCons(s, IsAsciiUpper);
      HasCharWithCons(s, IsAsciiDigit);
      HasCharWithCons(s, IsPasswordSpecial);
      if forall i :: 0 <= i < |s| ==> IsPasswordChar(s[i]) {
        forall i | 0 <= i < |s[1..]| ensures IsPasswordChar(s[1..][i]) {
          assert s[1..][i] == s[i + 1];
        }
      }
    }
  }

  lemma HasCharWithCons(s: string, p: char -> bool)
    requires s != []
    ensures HasCharWith(s, p) <==> p(s[0]) || HasCharWith(s[1..], p)
  {
    if HasCharWith(s, p) && !p(s[0]) {
      var i :| 0 <= i < |s| && p(s[i]);
      assert s[1..][i - 1] == s[i];
    }
    if HasCharWith(s[1..], p) {
      var i :| 0 <= i < |s[1..]| && p(s[1..][i]);
      assert s[i + 1] == s[1..][i];
    }
  }

  /** The pattern accepts exactly the strong passwords. */
  lemma PasswordPatternIff(s: string)
    ensures MatchesPasswordPattern(s) <==> StrongPassword(s)
  {
    ScanPasswordMeaning(s);
  }

  const ComplexityMessage := "Password must be at least 8 characters long and contain at least one uppercase letter, one lowercase letter, one number, and one special character"
  const MismatchMessage := "Passwords do not match"
  const VerifyEmailPath := "/verify-email"
  const LoginPath := "/login"
  const RegisterPath := "/register"

  datatype Gender = Male | Female | Other

  datatype RegisterCall = RegisterCall(email: string, username: string, password: string, gender: Gender)

  /** A navigation: the path, and the e-mail or message carried in its state. */
  datatype Navigation = Navigation(path: string, state: string)

  /** The state of the RegisterPage component. */
  class RegisterPage {
    var email: string
    var username: string
    var password: string
    var confirmPassword: string
    var gender: Gender
    var isLoading: bool
    var error: string
    var navigations: seq<Navigation>

    constructor()
      ensures email == "" && username == "" && password == "" && confirmPassword == ""
      ensures gender == Other && !isLoading && error == "" && navigations == []
    {
      email, username, password, confirmPassword := "", "", "", "";
      gender := Other;
      isLoading := false;
      error := "";
      navigations := [];
    }

    /** `handleSubmit`: the pattern first, then the confirmation, then the
        register call; `outcome` is how that call ends. */
    method HandleSubmit(outcome: CallOutcome) returns (calls: seq<RegisterCall>)
      modifies this
      ensures !MatchesPasswordPattern(password) ==> error == ComplexityMessage && calls == []
      ensures MatchesPasswordPattern(password) && password != confirmPassword ==>
        error == MismatchMessage && calls == []
      ensures MatchesPasswordPattern(password) && password == confirmPassword ==>
        calls == [RegisterCall(email, username, password, gender)]
      ensures calls != [] && outcome.Resolved? ==>
        error == "" && navigations == old(navigations) + [Navigation(VerifyEmailPath, email)]
      ensures calls != [] && !outcome.Resolved? ==>
        error == FailureText(outcome, "Failed to register") && navigations == old(navigations)
      ensures calls == [] ==> navigations == old(navigations)
      ensures !isLoading
      ensures email == old(email) && username == old(username) && password == old(password)
      ensures confirmPassword == old(confirmPassword) && gender == old(gender)
    {
      isLoading := true;
      error := "";
      calls := [];
      if !MatchesPasswordPattern(password) {
        error := ComplexityMessage;
        isLoading := false;
        return;
      }
      if password != confirmPassword {
        error := MismatchMessage;
        isLoading := false;
        return;
      }
      calls := [RegisterCall(email, username, password, gender)];
      if outcome.Resolved? {
        navigations := navigations + [Navigation(VerifyEmailPath, email)];
      } else {
        error := FailureText(outcome, "Failed to register");
      }
      isLoading := false;
    }
  }

  // ---------------------------------------------------------------------
  // The code input

  const OtpDigits := 6
  const ResendSeconds := 30
  const PendingKey := "pendingVerificationEmail"

  /** VerifyEmailPage's `handleOtpChange`: keep the digits, and take them
      only when there are at most six. */
  function PageOtpInput(current: string, typed: string): (otp: string)
    ensures AllDigits(current) && |current| <= OtpDigits ==> AllDigits(otp) && |otp| <= OtpDigits
    ensures |KeepDigits(typed)| <= OtpDigits ==> otp == KeepDigits(typed)
    ensures |KeepDigits(typed)| > OtpDigits ==> otp == current
  {
    var value := KeepDigits(typed);
    if |value| <= OtpDigits then value else current
  }

  /** VerifyEmailForm's input: keep the digits and cut them to six. */
  function FormOtpInput(typed: string): (otp: string)
    ensures AllDigits(otp) && |otp| <= OtpDigits
    ensures |otp| <= |KeepDigits(typed)| && otp == KeepDigits(typed)[..|otp|]
    ensures |otp| == if |KeepDigits(typed)| < OtpDigits then |KeepDigits(typed)| else OtpDigits
  {
    var value := KeepDigits(typed);
    if |value| <= OtpDigits then value else value[..OtpDigits]
  }

  /** The two inputs agree on at most six digits; on more, the page keeps
      the previous code while the form keeps the first six. */
  lemma OtpInputsCompared(current: string, typed: string)
    ensures |KeepDigits(typed)| <= OtpDigits ==> PageOtpInput(current, typed) == FormOtpInput(typed)
    ensures |KeepDigits(typed)| > OtpDigits ==>
      PageOtpInput(current, typed) == current && FormOtpInput(typed) == KeepDigits(typed)[..OtpDigits]
  {
  }

  /** A code of six digits passes through either input unchanged. */
  lemma SixDigitsPassThrough(current: string, code: string)
    requires |code| == OtpDigits && AllDigits(code)
    ensures PageOtpInput(current, code) == code
    ensures FormOtpInput(code) == code
  {
    KeepDigitsOfDigits(code);
  }

  datatype VerifyCall = VerifyCall(email: string, otp: string)

  // ---------------------------------------------------------------------
  // VerifyEmailPage.tsx: the countdown

  /** The resend timer of VerifyEmailPage. */
  datatype ResendTimer = ResendTimer(countdown: int, disabled: bool)

  /** One tick: the timer fires while counting and disabled, and reaching
      zero enables the resend link. */
  function PageTick(t: ResendTimer): (r: ResendTimer)
    ensures t.countdown > 0 && t.disabled ==> r.countdown == t.countdown - 1
    ensures !(t.countdown > 0 && t.disabled) ==> r.countdown == t.countdown
    ensures r.countdown == 0 ==> !r.disabled
    ensures r.countdown != 0 ==> r.disabled == t.disabled
  {
    var c := if t.countdown > 0 && t.disabled then t.countdown - 1 else t.countdown;
    ResendTimer(c, if c == 0 then false else t.disabled)
  }

  function PageTicks(t: ResendTimer, k: nat): ResendTimer
    decreases k
  {
    if k == 0 then t else PageTicks(PageTick(t), k - 1)
  }

  /** The link is disabled exactly while there are seconds left. */
  predicate TimerValid(t: ResendTimer) {
    0 <= t.countdown <= ResendSeconds && (t.disabled <==> t.countdown > 0)
  }

  lemma PageTickKeepsValid(t: ResendTimer)
    requires TimerValid(t)
    ensures TimerValid(PageTick(t))
  {
  }

  /** From a fresh countdown of `c` seconds, `k < c` ticks leave `c - k`
      seconds, and `c` ticks enable the link. */
  lemma {:induction false} PageCountsDown(c: int, k: nat)
    requires 0 < c && k <= c
    ensures PageTicks(ResendTimer(c, true), k) == (if k == c then ResendTimer(0, false) else ResendTimer(c - k, true))
    decreases k
  {
    if k > 0 {
      if c == 1 {
        assert PageTick(ResendTimer(1, true)) == ResendTimer(0, false);
        assert k == 1;
      } else {
        assert PageTick(ResendTimer(c, true)) == ResendTimer(c - 1, true);
        PageCountsDown(c - 1, k - 1);
      }
    }
  }

  /** The state of the VerifyEmailPage component; `session` is the
      browser's session storage. */
  class VerifyEmailPage {
    var otp: string
    var isLoading: bool
    var error: string
    var timer: ResendTimer
    var session: map<string, string>
    var navigations: seq<Navigation>

    ghost predicate Valid()
      reads this
    {
      TimerValid(timer) && AllDigits(otp) && |otp| <= OtpDigits
    }

    constructor(session: map<string, string>)
      ensures Valid() && otp == "" && !isLoading && error == ""
      ensures timer == ResendTimer(ResendSeconds, true)
      ensures this.session == session && navigations == []
    {
      otp := "";
      isLoading := false;
      error := "";
      timer := ResendTimer(ResendSeconds, true);
      this.session := session;
      navigations := [];
    }

    /** The page only renders its form when an e-mail is pending. */
    predicate HasPendingEmail()
      reads this
    {
      PendingKey in session && session[PendingKey] != ""
    }

    /** The mount effect: without a pending e-mail the page sends the
        visitor back to registration. */
    method RedirectWithoutEmail()
      requires Valid()
      modifies this
      ensures Valid()
      ensures !old(HasPendingEmail()) ==> navigations == old(navigations) + [Navigation(RegisterPath, "")]
      ensures old(HasPendingEmail()) ==> navigations == old(navigations)
      ensures otp == old(otp) && isLoading == old(isLoading) && error == old(error) && session == old(session)
      ensures timer == old(timer)
    {
      if !HasPendingEmail() {
        navigations := navigations + [Navigation(RegisterPath, "")];
      }
    }

    /** The verify button. */
    predicate CanVerify()
      reads this
    {
      !isLoading && |otp| == OtpDigits
    }

    method HandleOtpChange(typed: string)
      requires Valid()
      modifies this
      ensures Valid() && otp == PageOtpInput(old(otp), typed)
      ensures timer == old(timer) && error == old(error) && isLoading == old(isLoading)
      ensures session == old(session) && navigations == old(navigations)
    {
      var value := KeepDigits(typed);
      if |value| <= OtpDigits {
        otp := value;
      }
    }

    method Tick()
      requires Valid()
      modifies this
      ensures Valid() && timer == PageTick(old(timer))
      ensures otp == old(otp) && error == old(error) && isLoading == old(isLoading)
      ensures session == old(session) && navigations == old(navigations)
    {
      if timer.countdown > 0 && timer.disabled {
        timer := timer.(countdown := timer.countdown - 1);
      }
      if timer.countdown == 0 {
        timer := timer.(disabled := false);
      }
    }

    /** `handleSubmit`; `calls` holds the verify call made. */
    method HandleSubmit(outcome: CallOutcome) returns (calls: seq<VerifyCall>)
      requires Valid() && HasPendingEmail()
      modifies this
      ensures Valid() && !isLoading
      ensures calls == [VerifyCall(old(session)[PendingKey], otp)]
      ensures outcome.Resolved? ==> (error == "" &&
        navigations == old(navigations) + [Navigation(LoginPath, "Email verified successfully! You can now log in.")])
      ensures !outcome.Resolved? ==>
        error == FailureText(outcome, "Failed to verify email") && navigations == old(navigations)
      ensures otp == old(otp) && timer == old(timer) && session == old(session)
    {
      isLoading := true;
      error := "";
      calls := [VerifyCall(session[PendingKey], otp)];
      if outcome.Resolved? {
        navigations := navigations + [Navigation(LoginPath, "Email verified successfully! You can now log in.")];
      } else {
        error := FailureText(outcome, "Failed to verify email");
      }
      isLoading := false;
    }

    /** `handleResendOtp`: a successful resend restarts the countdown. */
    method HandleResendOtp(outcome: CallOutcome) returns (calls: seq<string>)
      requires Valid() && HasPendingEmail()
      modifies this
      ensures Valid() && !isLoading
      ensures calls == [old(session)[PendingKey]]
      ensures outcome.Resolved? ==> timer == ResendTimer(ResendSeconds, true) && error == ""
      ensures !outcome.Resolved? ==> timer == old(timer) && error == FailureText(outcome, "Failed to resend OTP")
      ensures otp == old(otp) && session == old(session) && navigations == old(navigations)
    {
      isLoading := true;
      error := "";
      calls := [session[PendingKey]];
      if outcome.Resolved? {
        timer := ResendTimer(ResendSeconds, true);
      } else {
        error := FailureText(outcome, "Failed to resend OTP");
      }
      isLoading := false;
    }
  }

  // ---------------------------------------------------------------------
  // VerifyEmailForm.tsx

  /** One tick of the interval: down by one while positive. */
  function FormTick(countdown: int): (c: int)
    ensures countdown > 0 ==> c == countdown - 1
    ensures countdown <= 0 ==> c == countdown
  {
    if countdown > 0 then countdown - 1 else countdown
  }

  function FormTicks(countdown: int, k: nat): int
    decreases k
  {
    if k == 0 then countdown else FormTicks(FormTick(countdown), k - 1)
  }

  /** The countdown never goes below zero: after `k` ticks it is the larger
      of zero and `c - k`. */
  lemma {:induction false} FormCountsDown(c: nat, k: nat)
    ensures FormTicks(c, k) == if c >= k then c - k else 0
    decreases k
  {
    if k > 0 {
      FormCountsDown(FormTick(c), k - 1);
    }
  }

  /** The state of the VerifyEmailForm component. */
  class VerifyEmailForm {
    var otp: string
    var isLoading: bool
    var isResending: bool
    var error: string
    var countdown: int
    var session: map<string, string>
    var navigations: seq<Navigation>

    ghost predicate Valid()
      reads this
    {
      0 <= countdown <= ResendSeconds && AllDigits(otp) && |otp| <= OtpDigits
    }

    constructor(session: map<string, string>)
      ensures Valid() && otp == "" && !isLoading && !isResending && error == "" && countdown == 0
      ensures this.session == session && navigations == []
    {
      otp := "";
      isLoading := false;
      isResending := false;
      error := "";
      countdown := 0;
      this.session := session;
      navigations := [];
    }

    predicate HasPendingEmail()
      reads this
    {
      PendingKey in session && session[PendingKey] != ""
    }

    /** The mount effect: without a pending e-mail the page sends the
        visitor back to registration. */
    method RedirectWithoutEmail()
      requires Valid()
      modifies this
      ensures Valid()
      ensures !old(HasPendingEmail()) ==> navigations == old(navigations) + [Navigation(RegisterPath, "")]
      ensures old(HasPendingEmail()) ==> navigations == old(navigations)
      ensures otp == old(otp) && isLoading == old(isLoading) && error == old(error) && session == old(session)
      ensures countdown == old(countdown) && isResending == old(isResending)
    {
      if !HasPendingEmail() {
        navigations := navigations + [Navigation(RegisterPath, "")];
      }
    }

    /** The submit button. */
    predicate CanVerify()
      reads this
    {
      !isLoading && |otp| == OtpDigits
    }

    /** The resend button. */
    predicate CanResend()
      reads this
    {
      countdown <= 0 && !isResending
    }

    method HandleOtpChange(typed: string)
      requires Valid()
      modifies this
      ensures Valid() && otp == FormOtpInput(typed)
      ensures countdown == old(countdown) && error == old(error) && isLoading == old(isLoading)
      ensures session == old(session) && navigations == old(navigations)
    {
      otp := FormOtpInput(typed);
    }

    method Tick()
      requires Valid()
      modifies this
      ensures Valid() && countdown == FormTick(old(countdown))
      ensures otp == old(otp) && error == old(error) && isLoading == old(isLoading)
      ensures session == old(session) && navigations == old(navigations)
    {
      if countdown > 0 {
        countdown := countdown - 1;
      }
    }

    /** `handleSubmit`: a verified code clears the pending e-mail. */
    method HandleSubmit(outcome: CallOutcome) returns (calls: seq<VerifyCall>)
      requires Valid() && HasPendingEmail()
      modifies this
      ensures Valid() && !isLoading
      ensures calls == [VerifyCall(old(session)[PendingKey], otp)]
      ensures outcome.Resolved? ==> (error == "" && session == old(session) - {PendingKey}
        && navigations == old(navigations) + [Navigation(LoginPath, "Email verified successfully! You can now login to your account.")])
      ensures !outcome.Resolved? ==> (error == FailureText(outcome, "Verification failed. Please try again.")
        && session == old(session) && navigations == old(navigations))
      ensures otp == old(otp) && countdown == old(countdown)
    {
      isLoading := true;
      error := "";
      calls := [VerifyCall(session[PendingKey], otp)];
      if outcome.Resolved? {
        session := session - {PendingKey};
        navigations := navigations + [Navigation(LoginPath, "Email verified successfully! You can now login to your account.")];
      } else {
        error := FailureText(outcome, "Verification failed. Please try again.");
      }
      isLoading := false;
    }

    /** `handleResendOtp`: nothing while the countdown runs; otherwise the
        resend call, and on success a new countdown of thirty seconds. */
    method HandleResendOtp(outcome: CallOutcome) returns (calls: seq<string>)
      requires Valid() && HasPendingEmail()
      modifies this
      ensures Valid()
      ensures old(countdown) > 0 ==> (calls == [] && countdown == old(countdown) && error == old(error)
        && isResending == old(isResending))
      ensures old(countdown) <= 0 ==> calls == [old(session)[PendingKey]] && !isResending
      ensures old(countdown) <= 0 && outcome.Resolved? ==> countdown == ResendSeconds && error == ""
      ensures old(countdown) <= 0 && !outcome.Resolved? ==>
        countdown == old(countdown) && error == FailureText(outcome, "Failed to resend OTP. Please try again.")
      ensures otp == old(otp) && session == old(session) && navigations == old(navigations) && isLoading == old(isLoading)
    {
      calls := [];
      if countdown > 0 {
        return;
      }
      isResending := true;
      error := "";
      calls := [session[PendingKey]];
      if outcome.Resolved? {
        countdown := ResendSeconds;
      } else {
        error := FailureText(outcome, "Failed to resend OTP. Please try again.");
      }
      isResending := false;
    }
  }
}
