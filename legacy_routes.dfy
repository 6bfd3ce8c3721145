/**
 * The older handlers of backend/src/auth/routes.rs: register, verify_email,
 * resend_otp and login.  Every failure is an `ErrorResponse` with a code;
 * every success is an `ApiResponse` whose data is `()` (JSON `null`), except
 * login's.
 *
 * The account service these handlers call (`crate::auth::service`) and the
 * queries `check_user_exists`, `is_user_verified` and `complete_registration`
 * are not part of this model: their outcomes are parameters.  The OTP mail
 * goes through the plain-text revision of the e-mail service.
 */
module LegacyRoutes {
  import opened Wrappers
  import opened Text
  import opened Accounts
  import opened Api
  import V = Validation
  import Mail = OtpMail
  import Svc = AuthService

  /** `ApiResponse::success_with_message((), message)` with status 200. */
  function Done(message: string, now: int): (r: Reply)
    ensures r.status == Ok200 && r.body.Envelope? && r.body.response.success
    ensures r.body.response.message == message && r.body.response.data == JNull
  {
    Reply(Ok200, Envelope(SuccessWithMessage(JNull, message, now)))
  }

  /** The checks `register` makes before creating the account, in order:
      the request's constraints, the e-mail pattern, the password strength,
      and the existence query, whose failure is ignored. */
  predicate Admitted(req: RegisterRequest, isEmail: string -> bool, zxcvbn: string -> V.Estimate,
                     exists_: Result<bool, string>) {
    V.RegisterRequestErrors(req, isEmail) == {} && V.ValidEmail(req.email)
    && V.ValidatePassword(req.password, zxcvbn).Ok? && exists_ != Ok(true)
  }

  /** The reply `register` gives before any account is created, or `None`
      when every check passes. */
  function RegisterRejection(req: RegisterRequest, isEmail: string -> bool, render: set<string> -> string,
                             zxcvbn: string -> V.Estimate, exists_: Result<bool, string>, now: int)
    : (r: Option<Reply>)
    ensures r.None? <==> Admitted(req, isEmail, zxcvbn, exists_)
    ensures V.RegisterRequestErrors(req, isEmail) != {} ==>
      r == Some(ErrorReply(BadRequest400, "Validation error: " + render(V.RegisterRequestErrors(req, isEmail)),
                           "VALIDATION_ERROR", now))
    ensures V.RegisterRequestErrors(req, isEmail) == {} && !V.ValidEmail(req.email) ==>
      r == Some(ErrorReply(BadRequest400, "Invalid email format", "INVALID_EMAIL", now))
    ensures V.RegisterRequestErrors(req, isEmail) == {} && V.ValidEmail(req.email) &&
            V.ValidatePassword(req.password, zxcvbn).Err? ==>
      r == Some(ErrorReply(BadRequest400, V.ValidatePassword(req.password, zxcvbn).error.feedback, "WEAK_PASSWORD", now))
    ensures r.Some? ==> r.value.status == BadRequest400 || r.value == ErrorReply(Conflict409,
      "Email or username already exists", "USER_EXISTS", now)
  {
    var errs := V.RegisterRequestErrors(req, isEmail);
    if errs != {} then
      Some(ErrorReply(BadRequest400, "Validation error: " + render(errs), "VALIDATION_ERROR", now))
    else if !V.ValidEmail(req.email) then
      Some(ErrorReply(BadRequest400, "Invalid email format", "INVALID_EMAIL", now))
    else match V.ValidatePassword(req.password, zxcvbn)
      case Err(e) => Some(ErrorReply(BadRequest400, e.feedback, "WEAK_PASSWORD", now))
      case Ok(_) =>
        if exists_ == Ok(true) then
          Some(ErrorReply(Conflict409, "Email or username already exists", "USER_EXISTS", now))
        else None
  }

  /** A weak password is reported only after the e-mail checks pass: the
      first failing check decides the reply, whatever the later ones say. */
  lemma RegisterFirstFailureWins(req: RegisterRequest, isEmail: string -> bool, render: set<string> -> string,
                                 z1: string -> V.Estimate, z2: string -> V.Estimate,
                                 e1: Result<bool, string>, e2: Result<bool, string>, now: int)
    requires V.RegisterRequestErrors(req, isEmail) != {} || !V.ValidEmail(req.email)
    ensures RegisterRejection(req, isEmail, render, z1, e1, now) == RegisterRejection(req, isEmail, render, z2, e2, now)
    ensures RegisterRejection(req, isEmail, render, z1, e1, now).Some?
  {
  }

  /** The cache after `send_otp` for `email`: the new code is stored when
      the cache accepted it, and nothing changes otherwise. */
  predicate SentOtp(cache: map<string, Mail.Entry>, before: map<string, Mail.Entry>, email: string,
                    draws: seq<Mail.Digit>, store: Mail.StoreReply)
    requires |draws| == Mail.OtpLength
  {
    if store == Mail.Stored then cache == before[Mail.OtpKey(email) := Mail.Entry(Mail.GenerateOtp(draws), Mail.OtpExpirySeconds)]
    else cache == before
  }

  /** `register`.  `exists_` is the existence query's outcome, `created` the
      account service's, and the rest drive the OTP mail.  The account is
      created (`inserted`) only when every check passes; the mail is sent only
      after a successful insert, and a failed mail leaves the account behind. */
  method Register(mail: Mail.EmailService, req: RegisterRequest, isEmail: string -> bool,
                  render: set<string> -> string, zxcvbn: string -> V.Estimate,
                  exists_: Result<bool, string>, created: Result<(), string>,
                  draws: seq<Mail.Digit>, store: Mail.StoreReply, isMailbox: string -> bool, delivered: bool,
                  describe: Mail.SendError -> string, now: int)
    returns (reply: Reply, inserted: bool)
    requires mail.revision == Mail.TextMail && |draws| == Mail.OtpLength
    modifies mail
    ensures !Admitted(req, isEmail, zxcvbn, exists_) ==>
      Some(reply) == RegisterRejection(req, isEmail, render, zxcvbn, exists_, now) && !inserted
      && mail.cache == old(mail.cache) && mail.outbox == old(mail.outbox)
    ensures Admitted(req, isEmail, zxcvbn, exists_) && created.Err? ==>
      reply == ErrorReply(InternalServerError500, "Failed to create user: " + created.error, "REGISTRATION_ERROR", now)
      && mail.cache == old(mail.cache) && mail.outbox == old(mail.outbox)
    ensures inserted <==> Admitted(req, isEmail, zxcvbn, exists_) && created.Ok?
    ensures inserted ==> SentOtp(mail.cache, old(mail.cache), req.email, draws, store)
    ensures inserted ==>
      (reply.status == Ok200 <==> store != Mail.Unreachable && isMailbox(req.email) && delivered) &&
      (reply.status == Ok200 ==>
         reply == Done("Registration initiated. Please check your email for verification code.", now) &&
         mail.outbox == old(mail.outbox) + [Mail.OtpMessage(mail.revision, req.email, Mail.GenerateOtp(draws))]) &&
      (reply.status != Ok200 ==>
         reply == ErrorReply(InternalServerError500, "Failed to send verification email: "
                               + describe(Mail.SendFailure(store, isMailbox(req.email))), "EMAIL_SEND_ERROR", now) &&
         mail.outbox == old(mail.outbox))
  {
    inserted := false;
    var rejection := RegisterRejection(req, isEmail, render, zxcvbn, exists_, now);
    if rejection.Some? {
      return rejection.value, false;
    }
    if created.Err? {
      reply := ErrorReply(InternalServerError500, "Failed to create user: " + created.error, "REGISTRATION_ERROR", now);
      return;
    }
    inserted := true;
    var sent := mail.SendOtp(req.email, draws, store, isMailbox, delivered);
    match sent
    case Ok(_) =>
      reply := Done("Registration initiated. Please check your email for verification code.", now);
    case Err(e) =>
      reply := ErrorReply(InternalServerError500, "Failed to send verification email: " + describe(e),
                          "EMAIL_SEND_ERROR", now);
  }

  /** `verify_email`: the request's constraints, then the OTP lookup, then
      `complete_registration` (outcome `completed`), which is reached
      (`called`) only with a matching code. */
  function VerifyEmail(mail: Mail.EmailService, req: VerifyEmailRequest, isEmail: string -> bool,
                       render: set<string> -> string, fault: Option<Mail.LookupFault>,
                       completed: Result<(), Svc.ServiceError>, now: int)
    : (r: (Reply, bool))
    reads mail
    ensures var errs := V.ApiVerifyEmailRequestErrors(req, isEmail);
      errs != {} ==> r == (ErrorReply(BadRequest400, "Validation error: " + render(errs), "VALIDATION_ERROR", now), false)
    ensures r.1 <==> V.ApiVerifyEmailRequestErrors(req, isEmail) == {} && mail.VerifyOtp(req.email, req.otp, fault)
    ensures V.ApiVerifyEmailRequestErrors(req, isEmail) == {} && !mail.VerifyOtp(req.email, req.otp, fault) ==>
      r.0 == ErrorReply(Unauthorized401, "Invalid or expired verification code", "INVALID_OTP", now)
    ensures r.1 && completed.Ok? ==> r.0 == Done("Email verified successfully. You can now log in.", now)
    ensures r.1 && completed == Err(Svc.RowNotFound) ==>
      r.0 == ErrorReply(NotFound404, "Registration not found", "NOT_FOUND", now)
    ensures r.1 && completed.Err? && completed.error != Svc.RowNotFound ==>
      r.0 == ErrorReply(InternalServerError500, "Failed to complete registration: " + Svc.ErrorText(completed.error),
                        "REGISTRATION_ERROR", now)
  {
    var errs := V.ApiVerifyEmailRequestErrors(req, isEmail);
    if errs != {} then
      (ErrorReply(BadRequest400, "Validation error: " + render(errs), "VALIDATION_ERROR", now), false)
    else if !mail.VerifyOtp(req.email, req.otp, fault) then
      (ErrorReply(Unauthorized401, "Invalid or expired verification code", "INVALID_OTP", now), false)
    else if completed.Ok? then (Done("Email verified successfully. You can now log in.", now), true)
    else if completed.error == Svc.RowNotFound then
      (ErrorReply(NotFound404, "Registration not found", "NOT_FOUND", now), true)
    else
      (ErrorReply(InternalServerError500, "Failed to complete registration: " + Svc.ErrorText(completed.error),
                  "REGISTRATION_ERROR", now), true)
  }

  /** A code that passes the request's constraints is six ASCII digits, so
      only such a code can ever reach the account update. */
  lemma VerifiedCodesAreSixDigits(mail: Mail.EmailService, req: VerifyEmailRequest, isEmail: string -> bool,
                                  render: set<string> -> string, fault: Option<Mail.LookupFault>,
                                  completed: Result<(), Svc.ServiceError>, now: int)
    requires VerifyEmail(mail, req, isEmail, render, fault, completed, now).1
    ensures |req.otp| == 6 && AllDigits(req.otp)
    ensures Mail.OtpKey(req.email) in mail.cache && mail.cache[Mail.OtpKey(req.email)].value == req.otp
  {
    V.OtpFieldAcceptsSixDigits(req.otp);
  }

  /** `resend_otp`.  `exists_` is `check_user_exists(email, "")` and
      `verified` is `is_user_verified(email)`; a new code is sent (`sent`
      attempted) only for a known, unverified address. */
  method ResendOtp(mail: Mail.EmailService, req: ResendOtpRequest, isEmail: string -> bool,
                   render: set<string> -> string, exists_: Result<bool, string>, verified: Result<bool, string>,
                   draws: seq<Mail.Digit>, store: Mail.StoreReply, isMailbox: string -> bool, delivered: bool,
                   describe: Mail.SendError -> string, now: int)
    returns (reply: Reply, attempted: bool)
    requires mail.revision == Mail.TextMail && |draws| == Mail.OtpLength
    modifies mail
    ensures !isEmail(req.email) ==>
      reply == ErrorReply(BadRequest400, "Validation error: " + render({"email"}), "VALIDATION_ERROR", now)
    ensures isEmail(req.email) && exists_.Err? ==>
      reply == ErrorReply(InternalServerError500, "Database error: " + exists_.error, "DATABASE_ERROR", now)
    ensures isEmail(req.email) && exists_ == Ok(false) ==>
      reply == ErrorReply(NotFound404, "Email not found", "NOT_FOUND", now)
    ensures isEmail(req.email) && exists_ == Ok(true) && verified.Err? ==>
      reply == ErrorReply(InternalServerError500, "Database error: " + verified.error, "DATABASE_ERROR", now)
    ensures isEmail(req.email) && exists_ == Ok(true) && verified == Ok(true) ==>
      reply == ErrorReply(BadRequest400, "Account is already verified. Please login instead.", "ALREADY_VERIFIED", now)
    ensures attempted <==> isEmail(req.email) && exists_ == Ok(true) && verified == Ok(false)
    ensures !attempted ==> mail.cache == old(mail.cache) && mail.outbox == old(mail.outbox)
    ensures attempted ==> SentOtp(mail.cache, old(mail.cache), req.email, draws, store)
    ensures attempted ==>
      (reply.status == Ok200 <==> store != Mail.Unreachable && isMailbox(req.email) && delivered) &&
      (reply.status == Ok200 ==>
         reply == Done("Verification code resent. Please check your email.", now) &&
         mail.outbox == old(mail.outbox) + [Mail.OtpMessage(mail.revision, req.email, Mail.GenerateOtp(draws))]) &&
      (reply.status != Ok200 ==>
         reply == ErrorReply(InternalServerError500, "Failed to resend verification code: "
                               + describe(Mail.SendFailure(store, isMailbox(req.email))), "EMAIL_SEND_ERROR", now) &&
         mail.outbox == old(mail.outbox))
  {
    attempted := false;
    var errs := V.EmailOnlyErrors(req.email, isEmail);
    if errs != {} {
      assert errs == {"email"};
      reply := ErrorReply(BadRequest400, "Validation error: " + render(errs), "VALIDATION_ERROR", now);
      return;
    }
    match exists_
    case Err(e) =>
      reply := ErrorReply(InternalServerError500, "Database error: " + e, "DATABASE_ERROR", now);
      return;
    case Ok(found) =>
      if !found {
        reply := ErrorReply(NotFound404, "Email not found", "NOT_FOUND", now);
        return;
      }
    match verified
    case Err(e) =>
      reply := ErrorReply(InternalServerError500, "Database error: " + e, "DATABASE_ERROR", now);
      return;
    case Ok(isVerified) =>
      if isVerified {
        reply := ErrorReply(BadRequest400, "Account is already verified. Please login instead.", "ALREADY_VERIFIED", now);
        return;
      }
    attempted := true;
    var sent := mail.SendOtp(req.email, draws, store, isMailbox, delivered);
    match sent
    case Ok(_) =>
      reply := Done("Verification code resent. Please check your email.", now);
    case Err(e) =>
      reply := ErrorReply(InternalServerError500, "Failed to resend verification code: " + describe(e),
                          "EMAIL_SEND_ERROR", now);
  }

  // ---------------------------------------------------------------------
  // Login

  /** `login`'s error arm as written: it matches the error's display text
      against two fixed messages. */
  function LoginErrorReplyAsWritten(text: string, now: int): (r: Reply)
    ensures text == "Email not verified" ==>
      r == ErrorReply(Unauthorized401, "Email not verified. Please verify your email before logging in",
                      "EMAIL_NOT_VERIFIED", now)
    ensures text == "Account is not active" ==> r == ErrorReply(Forbidden403, "Account is not active", "ACCOUNT_INACTIVE", now)
    ensures text != "Email not verified" && text != "Account is not active" ==>
      r == ErrorReply(BadRequest400, "Invalid credentials", "AUTHENTICATION_ERROR", now)
  {
    if text == "Email not verified" then
      ErrorReply(Unauthorized401, "Email not verified. Please verify your email before logging in", "EMAIL_NOT_VERIFIED", now)
    else if text == "Account is not active" then
      ErrorReply(Forbidden403, "Account is not active", "ACCOUNT_INACTIVE", now)
    else ErrorReply(BadRequest400, "Invalid credentials", "AUTHENTICATION_ERROR", now)
  }

  /** A display text that starts with a lower-case letter matches neither
      of the two fixed messages. */
  lemma LowerCaseTextIsGeneric(text: string, now: int)
    requires |text| > 0 && IsAsciiLower(text[0])
    ensures LoginErrorReplyAsWritten(text, now) == ErrorReply(BadRequest400, "Invalid credentials", "AUTHENTICATION_ERROR", now)
  {
    assert text[0] != "Email not verified"[0];
    assert text[0] != "Account is not active"[0];
  }

  /** With the account service's `sqlx` errors, whose display text carries
      `sqlx`'s own lower-case prefix, the two specific arms are never taken:
      an unverified account with the right password is answered exactly like
      a wrong password. */
  lemma LoginMappingNeverMatchesServiceErrors(e: Svc.ServiceError, u: User, now: int)
    requires !u.isVerified
    ensures LoginErrorReplyAsWritten(Svc.ErrorText(e), now).status == BadRequest400
    ensures var unverified := Svc.LoginGate(Some(u), Ok(true));
      unverified == Err(Svc.Protocol("Email not verified")) &&
      LoginErrorReplyAsWritten(Svc.ErrorText(unverified.error), now)
      == LoginErrorReplyAsWritten(Svc.ErrorText(Svc.LoginGate(Some(u), Ok(false)).error), now)
  {
    LowerCaseTextIsGeneric(Svc.ErrorText(e), now);
    LowerCaseTextIsGeneric(Svc.ErrorText(Svc.Protocol("Email not verified")), now);
    LowerCaseTextIsGeneric(Svc.ErrorText(Svc.Protocol("Invalid password")), now);
  }

  /** The mapping as intended: on the service's error itself, so that the
      two account states get their own status and everything else, an unknown
      address and a wrong password alike, gets 400. */
  function LoginErrorReply(e: Svc.ServiceError, now: int): (r: Reply)
    ensures e == Svc.Protocol("Email not verified") ==> r.status == Unauthorized401 && r.body.Failure? && r.body.error.code == "EMAIL_NOT_VERIFIED"
    ensures e == Svc.Protocol("Account is not active") ==> r.status == Forbidden403 && r.body.Failure? && r.body.error.code == "ACCOUNT_INACTIVE"
    ensures e != Svc.Protocol("Email not verified") && e != Svc.Protocol("Account is not active") ==>
      r == ErrorReply(BadRequest400, "Invalid credentials", "AUTHENTICATION_ERROR", now)
  {
    match e
    case Protocol(m) => LoginErrorReplyAsWritten(m, now)
    case _ => LoginErrorReplyAsWritten("", now)
  }

  /** Through the corrected mapping, the login gate's outcomes get the
      statuses the handler documents: 401 for an unverified account, 403 for
      a verified one that is not active, and one indistinguishable 400 for an
      unknown address or a wrong password. */
  lemma LoginStatusesFollowAccountState(u: User, unknown: Svc.ServiceError, now: int)
    ensures !u.isVerified ==> LoginErrorReply(Svc.LoginGate(Some(u), Ok(true)).error, now).status == Unauthorized401
    ensures u.isVerified && u.status != Active ==>
      LoginErrorReply(Svc.LoginGate(Some(u), Ok(true)).error, now).status == Forbidden403
    ensures LoginErrorReply(Svc.LoginGate(None, Ok(false)).error, now)
         == LoginErrorReply(Svc.LoginGate(Some(u), Ok(false)).error, now)
  {
  }

  /** `login`: the request's e-mail constraint, then the account service's
      outcome (`outcome`, with the serialized payload on success). */
  function Login(req: LoginRequest, isEmail: string -> bool, render: set<string> -> string,
                 outcome: Result<Json, Svc.ServiceError>, now: int): (r: Reply)
    ensures !isEmail(req.email) ==>
      r == ErrorReply(BadRequest400, "Validation error: " + render({"email"}), "VALIDATION_ERROR", now)
    ensures isEmail(req.email) ==>
      (r.status == Ok200 <==> outcome.Ok?) &&
      (outcome.Ok? ==> r.body.Envelope? && r.body.response.data == outcome.value
                       && r.body.response.message == "Login successful") &&
      (outcome.Err? ==> r == LoginErrorReply(outcome.error, now))
  {
    var errs := V.EmailOnlyErrors(req.email, isEmail);
    if errs != {} then
      assert errs == {"email"};
      ErrorReply(BadRequest400, "Validation error: " + render(errs), "VALIDATION_ERROR", now)
    else match outcome
      case Ok(payload) => Reply(Ok200, Envelope(SuccessWithMessage(payload, "Login successful", now)))
      case Err(e) => LoginErrorReply(e, now)
  }
}
