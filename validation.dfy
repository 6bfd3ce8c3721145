/**
 * Input validators of the backend: the username pattern and request
 * constraints (backend/src/models/auth.rs, backend/src/auth/models.rs,
 * backend/src/api/models.rs) and the e-mail pattern and password rule of
 * backend/src/auth/validation.rs.
 */
module Validation {
  import opened Wrappers
  import opened Text
  import opened Accounts

  // ---------------------------------------------------------------------
  // Character classes of the source's regular expressions

  datatype CharClass =
    | WordChar        // [a-zA-Z0-9_]
    | LabelChar       // [a-zA-Z0-9-]
    | EmailLocalChar  // [a-zA-Z0-9.!#$%&'*+/=?^_`{|}~-]

  predicate InClass(k: CharClass, c: char) {
    match k
    case WordChar => IsAsciiAlnum(c) || c == '_'
    case LabelChar => IsAsciiAlnum(c) || c == '-'
    case EmailLocalChar => IsAsciiAlnum(c) || c in ".!#$%&'*+/=?^_`{|}~-"
  }

  predicate AllIn(k: CharClass, s: string) {
    forall i :: 0 <= i < |s| ==> InClass(k, s[i])
  }

  /** Matches the anchored pattern `^[k]{lo,hi}$`, one character at a time,
      counting down the remaining minimum and maximum. */
  function MatchRepeat(s: string, k: CharClass, lo: nat, hi: nat): (r: bool)
    ensures r <==> lo <= |s| <= hi && AllIn(k, s)
    decreases |s|
  {
    if s == [] then lo == 0
    else hi > 0 && InClass(k, s[0]) && MatchRepeat(s[1..], k, if lo > 0 then lo - 1 else 0, hi - 1)
  }

  // ---------------------------------------------------------------------
  // Usernames

  const UsernameMinLength := 3
  const UsernameMaxLength := 50

  /** `validate_username`: the pattern `^[a-zA-Z0-9_]{3,50}$`. */
  function ValidateUsername(s: string): (r: Result<(), string>)
    ensures r.Ok? <==> UsernameMinLength <= |s| <= UsernameMaxLength && AllIn(WordChar, s)
    ensures r.Err? ==> r.error == "invalid_username"
  {
    if MatchRepeat(s, WordChar, UsernameMinLength, UsernameMaxLength) then Ok(()) else Err("invalid_username")
  }

  /** The pattern already bounds the length, so the separate `length(min = 3,
      max = 50)` constraint never rejects a username the pattern accepts. */
  lemma UsernamePatternImpliesLength(s: string)
    requires ValidateUsername(s).Ok?
    ensures UsernameMinLength <= |s| <= UsernameMaxLength
  {
  }

  // ---------------------------------------------------------------------
  // Request payloads (`#[derive(Validate)]`)

  /** The fields of a `RegisterRequest` whose constraints fail.  `isEmail` is
      the `validator` crate's e-mail check, which is not part of this model.
      Lengths are counted in characters, as the `validator` crate does. */
  function RegisterRequestErrors(req: RegisterRequest, isEmail: string -> bool): (errs: set<string>)
    ensures errs <= {"email", "username", "password"}
    ensures "email" in errs <==> !isEmail(req.email)
    ensures "username" in errs <==> !(3 <= |req.username| <= 50 && AllIn(WordChar, req.username))
    ensures "password" in errs <==> |req.password| < 6
    ensures errs == {} <==> isEmail(req.email) && ValidateUsername(req.username).Ok? && |req.password| >= 6
  {
    (if isEmail(req.email) then {} else {"email"})
    + (if UsernameMinLength <= |req.username| <= UsernameMaxLength && ValidateUsername(req.username).Ok?
       then {} else {"username"})
    + (if |req.password| >= 6 then {} else {"password"})
  }

  /** `VerifyEmailRequest` of backend/src/models/auth.rs: the code must have
      exactly six characters; this revision does not check that they are digits. */
  function VerifyEmailRequestErrors(req: VerifyEmailRequest, isEmail: string -> bool): (errs: set<string>)
    ensures errs <= {"email", "otp"}
    ensures "email" in errs <==> !isEmail(req.email)
    ensures "otp" in errs <==> |req.otp| != 6
    ensures errs == {} <==> isEmail(req.email) && |req.otp| == 6
  {
    (if isEmail(req.email) then {} else {"email"}) + (if |req.otp| == 6 then {} else {"otp"})
  }

  /** `ResendOtpRequest` (and the admin reset request): only the e-mail is checked. */
  function EmailOnlyErrors(email: string, isEmail: string -> bool): (errs: set<string>)
    ensures errs == {} <==> isEmail(email)
    ensures errs <= {"email"}
  {
    if isEmail(email) then {} else {"email"}
  }

  /** `validate_otp` of backend/src/api/models.rs: every character is an
      ASCII digit (so the empty string passes on its own). */
  function ValidateOtp(otp: string): (r: Result<(), string>)
    ensures r.Ok? <==> AllDigits(otp)
  {
    if otp == [] then Ok(())
    else if IsAsciiDigit(otp[0]) then ValidateOtp(otp[1..])
    else Err("invalid_otp")
  }

  /** `VerifyEmailRequest` of backend/src/api/models.rs: length exactly six
      and `validate_otp`. */
  function ApiVerifyEmailRequestErrors(req: VerifyEmailRequest, isEmail: string -> bool): (errs: set<string>)
    ensures errs <= {"email", "otp"}
    ensures "email" in errs <==> !isEmail(req.email)
    ensures "otp" in errs <==> !(|req.otp| == 6 && AllDigits(req.otp))
    ensures errs == {} <==> isEmail(req.email) && |req.otp| == 6 && AllDigits(req.otp)
  {
    (if isEmail(req.email) then {} else {"email"})
    + (if |req.otp| == 6 && ValidateOtp(req.otp).Ok? then {} else {"otp"})
  }

  /** Together, the length rule and `validate_otp` accept exactly the strings
      of six ASCII digits; `validate_otp` alone also accepts "". */
  lemma OtpFieldAcceptsSixDigits(otp: string)
    ensures (|otp| == 6 && ValidateOtp(otp).Ok?) <==> (|otp| == 6 && forall i :: 0 <= i < 6 ==> '0' <= otp[i] <= '9')
    ensures ValidateOtp("").Ok?
  {
  }

  // ---------------------------------------------------------------------
  // Links

  datatype CreateLinkRequest = CreateLinkRequest(url: string, title: string, description: string)

  /** The fields of a `CreateLinkRequest` whose constraints fail.  `parses` is
      the `validator` crate's URL check (a successful `Url::parse`). */
  function CreateLinkRequestErrors(req: CreateLinkRequest, parses: string -> bool): (errs: set<string>)
    ensures errs <= {"url", "title", "description"}
    ensures "url" in errs <==> !parses(req.url)
    ensures "title" in errs <==> !(1 <= |req.title| <= 255)
    ensures "description" in errs <==> !(1 <= |req.description| <= 1000)
    ensures errs == {} <==> parses(req.url) && 1 <= |req.title| <= 255 && 1 <= |req.description| <= 1000
  {
    (if parses(req.url) then {} else {"url"})
    + (if 1 <= |req.title| <= 255 then {} else {"title"})
    + (if 1 <= |req.description| <= 1000 then {} else {"description"})
  }

  /** What `Url::parse` yields; the parser itself is not part of this model. */
  datatype ParsedUrl = ParsedUrl(scheme: string, href: string)

  const SchemeError := "URL must use http or https protocol"

  /** `CreateLinkRequest::validate_url`, given the URL parser. */
  function ValidateUrl(url: string, parse: string -> Result<ParsedUrl, string>): (r: Result<ParsedUrl, string>)
    ensures r.Ok? <==> parse(url).Ok? && parse(url).value.scheme in {"http", "https"}
    ensures r.Ok? ==> r.value == parse(url).value
    ensures parse(url).Ok? && r.Err? ==> r.error == SchemeError
    ensures parse(url).Err? ==> r == Err("Invalid URL: " + parse(url).error)
  {
    match parse(url)
    case Ok(u) => if u.scheme == "http" || u.scheme == "https" then Ok(u) else Err(SchemeError)
    case Err(e) => Err("Invalid URL: " + e)
  }

  // ---------------------------------------------------------------------
  // E-mail addresses: the pattern of `validate_email`,
  //   ^[a-zA-Z0-9.!#$%&'*+/=?^_`{|}~-]+@L(\.L)*$  with
  //   L = [a-zA-Z0-9](?:[a-zA-Z0-9-]{0,61}[a-zA-Z0-9])?
  // (the "valid e-mail address" production of the HTML Living Standard,
  // section 4.10.5.1.5).

  /** Index of the first occurrence of `c` in `s`. */
  function FindChar(s: string, c: char): (r: Option<nat>)
    ensures r.Some? ==> r.value < |s| && s[r.value] == c
    ensures r.Some? ==> forall i :: 0 <= i < r.value ==> s[i] != c
    ensures r.None? ==> forall i :: 0 <= i < |s| ==> s[i] != c
    decreases |s|
  {
    if s == [] then None
    else if s[0] == c then Some(0)
    else match FindChar(s[1..], c)
      case None => None
      case Some(j) => Some(j + 1)
  }

  /** A domain label: 1 to 63 letters, digits or hyphens, starting and ending
      with a letter or digit. */
  predicate LabelOk(l: string) {
    1 <= |l| <= 63 && IsAsciiAlnum(l[0]) && IsAsciiAlnum(l[|l| - 1]) && AllIn(LabelChar, l)
  }

  /** Matches `L` the way the pattern is written: one letter or digit, then
      optionally up to 61 label characters and a final letter or digit. */
  function MatchLabel(l: string): (r: bool)
    ensures r <==> LabelOk(l)
  {
    if |l| == 0 || !IsAsciiAlnum(l[0]) then false
    else if |l| == 1 then true
    else
      var inner := l[1..|l| - 1];
      var ok := IsAsciiAlnum(l[|l| - 1]) && MatchRepeat(inner, LabelChar, 0, 61);
      assert ok ==> AllIn(LabelChar, l) by {
        if ok {
          forall i | 0 <= i < |l| ensures InClass(LabelChar, l[i]) {
            if 0 < i < |l| - 1 { assert l[i] == inner[i - 1]; }
          }
        }
      }
      assert AllIn(LabelChar, l) ==> AllIn(LabelChar, inner) by {
        if AllIn(LabelChar, l) {
          forall i | 0 <= i < |inner| ensures InClass(LabelChar, inner[i]) { assert inner[i] == l[i + 1]; }
        }
      }
      ok
  }

  /** The dot-separated parts of a domain (at least one, possibly empty). */
  function SplitOnDot(d: string): (parts: seq<string>)
    ensures |parts| >= 1
    decreases |d|
  {
    match FindChar(d, '.')
    case None => [d]
    case Some(j) => [d[..j]] + SplitOnDot(d[j + 1..])
  }

  predicate DomainOk(d: string) {
    forall i :: 0 <= i < |SplitOnDot(d)| ==> MatchLabel(SplitOnDot(d)[i])
  }

  /** `validate_email`.  The local part cannot contain '@', so the '@' of the
      pattern is the first '@' of the string. */
  predicate ValidEmail(s: string) {
    match FindChar(s, '@')
    case None => false
    case Some(k) => k >= 1 && AllIn(EmailLocalChar, s[..k]) && DomainOk(s[k + 1..])
  }

  /** The pattern read declaratively: some '@' splits the address into a
      non-empty local part over the allowed characters and a domain whose
      dot-separated labels are all well formed. */
  lemma {:induction false} ValidEmailIff(s: string)
    ensures ValidEmail(s) <==>
      exists k :: 0 < k < |s| && s[k] == '@' && AllIn(EmailLocalChar, s[..k]) && DomainOk(s[k + 1..])
  {
    var f := FindChar(s, '@');
    if exists k :: 0 < k < |s| && s[k] == '@' && AllIn(EmailLocalChar, s[..k]) && DomainOk(s[k + 1..]) {
      var k :| 0 < k < |s| && s[k] == '@' && AllIn(EmailLocalChar, s[..k]) && DomainOk(s[k + 1..]);
      assert forall i :: 0 <= i < k ==> s[i] != '@' by {
        forall i | 0 <= i < k ensures s[i] != '@' {
          assert InClass(EmailLocalChar, s[..k][i]);
        }
      }
      assert f.value >= k;
    }
  }

  /** A domain that satisfies the pattern contains no '@'. */
  lemma {:induction false} DomainHasNoAt(d: string)
    requires DomainOk(d)
    ensures forall i :: 0 <= i < |d| ==> d[i] != '@'
    decreases |d|
  {
    var parts := SplitOnDot(d);
    assert MatchLabel(parts[0]);
    match FindChar(d, '.')
    case None =>
      assert parts[0] == d;
      forall i | 0 <= i < |d| ensures d[i] != '@' { assert InClass(LabelChar, d[i]); }
    case Some(j) =>
      var rest := d[j + 1..];
      assert parts == [d[..j]] + SplitOnDot(rest);
      assert DomainOk(rest) by {
        forall i | 0 <= i < |SplitOnDot(rest)| ensures MatchLabel(SplitOnDot(rest)[i]) {
          assert SplitOnDot(rest)[i] == parts[i + 1];
        }
      }
      DomainHasNoAt(rest);
      forall i | 0 <= i < |d| ensures d[i] != '@' {
        if i < j { assert d[i] == parts[0][i]; assert InClass(LabelChar, parts[0][i]); }
        else if i > j { assert d[i] == rest[i - j - 1]; }
      }
  }

  /** An accepted address has exactly one '@', a non-empty local part and a
      non-empty domain whose first and last characters are letters or digits. */
  lemma ValidEmailShape(s: string)
    requires ValidEmail(s)
    ensures exists k :: 0 < k < |s| - 1 && s[k] == '@' && (forall i :: 0 <= i < |s| && i != k ==> s[i] != '@')
    ensures IsAsciiAlnum(s[|s| - 1])
  {
    var k := FindChar(s, '@').value;
    var d := s[k + 1..];
    DomainHasNoAt(d);
    var parts := SplitOnDot(d);
    assert MatchLabel(parts[0]);
    assert |d| >= 1 by {
      match FindChar(d, '.')
      case None => assert parts[0] == d;
      case Some(j) => {}
    }
    forall i | 0 <= i < |s| && i != k ensures s[i] != '@' {
      if i > k { assert s[i] == d[i - k - 1]; }
    }
    LastLabelEndsDomain(d);
    assert s[|s| - 1] == d[|d| - 1];
  }

  /** The last character of a well-formed domain ends its last label. */
  lemma {:induction false} LastLabelEndsDomain(d: string)
    requires DomainOk(d)
    ensures |d| >= 1 && IsAsciiAlnum(d[|d| - 1])
    decreases |d|
  {
    var parts := SplitOnDot(d);
    assert MatchLabel(parts[0]);
    match FindChar(d, '.')
    case None =>
      assert parts[0] == d;
    case Some(j) =>
      var rest := d[j + 1..];
      assert parts == [d[..j]] + SplitOnDot(rest);
      assert DomainOk(rest) by {
        forall i | 0 <= i < |SplitOnDot(rest)| ensures MatchLabel(SplitOnDot(rest)[i]) {
          assert SplitOnDot(rest)[i] == parts[i + 1];
        }
      }
      LastLabelEndsDomain(rest);
      assert d[|d| - 1] == rest[|rest| - 1];
  }

  /** Strings without '@', with an empty domain, or with a domain that ends in
      a dot or a hyphen are all rejected. */
  lemma EmailRejections(s: string)
    ensures (forall i :: 0 <= i < |s| ==> s[i] != '@') ==> !ValidEmail(s)
    ensures |s| > 0 && s[|s| - 1] == '@' ==> !ValidEmail(s)
    ensures |s| > 0 && s[|s| - 1] == '.' ==> !ValidEmail(s)
    ensures |s| > 0 && s[|s| - 1] == '-' ==> !ValidEmail(s)
  {
    if ValidEmail(s) { ValidEmailShape(s); }
  }

  // ---------------------------------------------------------------------
  // Passwords

  /** A zxcvbn score: 0 (too guessable) to 4 (very unguessable). */
  type Score = x: int | 0 <= x <= 4

  /** What the strength estimator reports; the estimator is a parameter. */
  datatype Estimate = Estimate(score: Score, warning: Option<string>)

  datatype PasswordError = PasswordError(score: Score, feedback: string)

  const PasswordMinBytes := 8
  const StrongScore := 3
  const LengthFeedback := "Password must be at least 8 characters long"
  const WeakFeedback := "Password is too weak"

  /** `validate_password`: first the length in UTF-8 bytes, then the score. */
  function ValidatePassword(password: string, zxcvbn: string -> Estimate): (r: Result<(), PasswordError>)
    ensures Utf8Len(password) < PasswordMinBytes ==> r == Err(PasswordError(0, LengthFeedback))
    ensures Utf8Len(password) >= PasswordMinBytes ==> (r.Ok? <==> zxcvbn(password).score >= StrongScore)
    ensures Utf8Len(password) >= PasswordMinBytes && r.Err? ==>
      r.error.score == zxcvbn(password).score < StrongScore &&
      r.error.feedback == (if zxcvbn(password).warning.Some? then zxcvbn(password).warning.value else WeakFeedback)
  {
    if Utf8Len(password) < PasswordMinBytes then Err(PasswordError(0, LengthFeedback))
    else
      var estimate := zxcvbn(password);
      if estimate.score < StrongScore then
        Err(PasswordError(estimate.score, match estimate.warning case Some(w) => w case None => WeakFeedback))
      else Ok(())
  }

  /** The length check runs before the estimator: for a short password the
      result does not depend on the estimator at all. */
  lemma ShortPasswordSkipsEstimator(password: string, e1: string -> Estimate, e2: string -> Estimate)
    requires Utf8Len(password) < PasswordMinBytes
    ensures ValidatePassword(password, e1) == ValidatePassword(password, e2)
  {
  }

  /** The length is measured in bytes, not characters: every password of at
      least eight characters passes the length check, and so does a password
      of two characters outside the Basic Multilingual Plane (four bytes each),
      whose fate then rests on the estimator alone. */
  lemma LengthCheckCountsBytes(password: string, zxcvbn: string -> Estimate)
    ensures |password| >= 8 ==> Utf8Len(password) >= PasswordMinBytes
    ensures ValidatePassword(TwoEmoji, zxcvbn).Ok? <==> zxcvbn(TwoEmoji).score >= StrongScore
  {
    TwoEmojiBytes();
  }

  const TwoEmoji: string := ['\U{1F600}', '\U{1F600}']

  lemma TwoEmojiBytes()
    ensures Utf8Len(TwoEmoji) == 8
  {
    assert Utf8Width(TwoEmoji[0]) == 4;
    assert TwoEmoji[1..] == ['\U{1F600}'];
    assert Utf8Len(['\U{1F600}']) == 4 by { assert ['\U{1F600}'][1..] == []; }
  }
}
