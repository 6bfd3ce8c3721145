/**
 * The HTTP handlers of backend/src/handlers/auth.rs: register, login,
 * verify_email, resend_otp and the two OTP-attempt resets.  Each handler is a
 * sequence of checks with early returns ending in a status and a JSON body.
 *
 * `initiate_otp_process` and `admin_reset_attempts` are not part of this
 * model: a handler reports the calls it makes to them (and the background
 * job it spawns), and their outcomes are parameters.  Database faults are
 * parameters too; the rows come from the service's users table.
 */
module AuthHandlers {
  import opened Wrappers
  import opened Text
  import opened Accounts
  import opened Api
  import V = Validation
  import Mail = OtpMail
  import Svc = AuthService

  const PendingMessage := "Please enter the verification code sent to your email."
  const VerifiedMessage := "Email verified successfully. You can now login to your account."

  /** A call to one of the e-mail service operations not part of this model. */
  datatype Call = InitiateOtpProcess(email: string) | AdminResetAttempts(email: string, secret: string)

  /** The work `register` hands to a background task. */
  datatype Job = ResendForPending(email: string) | RegisterThenInitiate(req: RegisterRequest)

  /** A reply whose envelope is an `ApiResponse` with `success: false` and the
      error code inside `data`, as the OTP handlers build them. */
  function CodeReply(status: StatusCode, message: string, code: string, now: int): (r: Reply)
    ensures r.status == status && r.body.Envelope? && !r.body.response.success
    ensures r.body.response.message == message && r.body.response.data == JObj([("code", JStr(code))])
  {
    Reply(status, Envelope(ApiResponse(false, message, JObj([("code", JStr(code))]), None, now)))
  }

  /** A successful reply carrying `data` and a message. */
  function DataReply(status: StatusCode, data: Json, message: string, now: int): (r: Reply)
    ensures r.status == status && r.body.Envelope? && r.body.response.success
    ensures r.body.response.data == data && r.body.response.message == message
  {
    Reply(status, Envelope(SuccessWithMessage(data, message, now)))
  }

  /** Serde's spelling of the enumerations: the variant name. */
  function StatusJson(s: UserStatus): string {
    match s
    case Active => "Active"
    case Inactive => "Inactive"
    case Suspended => "Suspended"
    case PendingVerification => "PendingVerification"
  }

  /** The keys of a JSON object (none for other values). */
  function Keys(j: Json): seq<string> {
    if j.JObj? then seq(|j.fields|, i requires 0 <= i < |j.fields| => j.fields[i].0) else []
  }

  /** The fields of a serialized user other than the password hash; the
      timestamps are written as seconds since the epoch. */
  function PublicUserFields(u: User): seq<(string, Json)> {
    [("id", JNum(u.id)), ("email", JStr(u.email)), ("username", JStr(u.username)),
     ("gender", JStr(GenderDisplay(u.gender))), ("status", JStr(StatusJson(u.status))),
     ("is_verified", JBool(u.isVerified)), ("verification_attempts", JNum(u.verificationAttempts)),
     ("verified_at", match u.verifiedAt case Some(t) => JNum(t) case None => JNull),
     ("created_at", JNum(u.createdAt)), ("updated_at", JNum(u.updatedAt))]
  }

  /** `User` as its derived `Serialize` writes it: every field, the password
      hash included. */
  function UserJsonAsWritten(u: User): (j: Json)
    ensures "password_hash" in Keys(j)
  {
    var j := JObj(PublicUserFields(u)[..4] + [("password_hash", JStr(u.passwordHash))] + PublicUserFields(u)[4..]);
    assert Keys(j)[4] == "password_hash";
    j
  }

  /** The user as a reply should show it: every field except the hash. */
  function PublicUserJson(u: User): (j: Json)
    ensures "password_hash" !in Keys(j)
    ensures "id" in Keys(j) && "email" in Keys(j) && "username" in Keys(j) && "status" in Keys(j)
  {
    var j := JObj(PublicUserFields(u));
    assert Keys(j) == ["id", "email", "username", "gender", "status", "is_verified", "verification_attempts",
                       "verified_at", "created_at", "updated_at"];
    j
  }

  /** The login payload as written: token, refresh token and the full user row. */
  function AuthResponseJsonAsWritten(r: AuthResponse): Json {
    JObj([("token", JStr(r.token)), ("refresh_token", JStr(r.refreshToken)), ("user", UserJsonAsWritten(r.user))])
  }

  /** The login payload with the hash left out of the user. */
  function AuthResponseJson(r: AuthResponse): Json {
    JObj([("token", JStr(r.token)), ("refresh_token", JStr(r.refreshToken)), ("user", PublicUserJson(r.user))])
  }

  /** A successful login, as written, sends the stored bcrypt hash back to
      the client inside `data.user`. */
  lemma LoginReplyExposesPasswordHash(r: AuthResponse)
    ensures var user := AuthResponseJsonAsWritten(r).fields[2].1;
      "password_hash" in Keys(user) && (exists i :: 0 <= i < |user.fields| && user.fields[i] == ("password_hash", JStr(r.user.passwordHash)))
  {
    var user := AuthResponseJsonAsWritten(r).fields[2].1;
    assert user.fields[4] == ("password_hash", JStr(r.user.passwordHash));
  }

  /** The corrected payload carries the same token, refresh token and user
      fields, minus the hash. */
  lemma LoginReplyHidesPasswordHash(r: AuthResponse)
    ensures var user := AuthResponseJson(r).fields[2].1;
      "password_hash" !in Keys(user) &&
      (forall k :: k in Keys(user) <==> k in Keys(UserJsonAsWritten(r.user)) && k != "password_hash")
    ensures AuthResponseJson(r).fields[..2] == AuthResponseJsonAsWritten(r).fields[..2]
  {
    var u := r.user;
    var written := UserJsonAsWritten(u);
    assert Keys(written) == ["id", "email", "username", "gender", "password_hash", "status", "is_verified",
                             "verification_attempts", "verified_at", "created_at", "updated_at"];
    assert Keys(PublicUserJson(u)) == ["id", "email", "username", "gender", "status", "is_verified",
                                       "verification_attempts", "verified_at", "created_at", "updated_at"];
  }

  /** `login`'s reply for the service's outcome: 200 with the payload, or 401
      LOGIN_ERROR for every failure. */
  function LoginReply(outcome: Result<AuthResponse, Svc.ServiceError>, now: int): (r: Reply)
    ensures r.status == Ok200 <==> outcome.Ok?
    ensures outcome.Err? ==>
      r == ErrorReply(Unauthorized401, "Login failed: " + Svc.ErrorText(outcome.error), "LOGIN_ERROR", now)
    ensures outcome.Ok? ==> r == DataReply(Ok200, AuthResponseJson(outcome.value), "Login successful", now)
  {
    match outcome
    case Ok(resp) => DataReply(Ok200, AuthResponseJson(resp), "Login successful", now)
    case Err(e) => ErrorReply(Unauthorized401, "Login failed: " + Svc.ErrorText(e), "LOGIN_ERROR", now)
  }

  /** A row the register lookup (`WHERE email = $1 OR username = $2`) matches. */
  predicate Matches(u: User, req: RegisterRequest) {
    u.email == req.email || u.username == req.username
  }

  /** The reply and job for an existing row `u` found by `register`. */
  predicate ExistingUserOutcome(u: User, reply: Reply, job: Option<Job>, now: int) {
    if u.status != PendingVerification then
      reply == ErrorReply(Conflict409, "User with this email or username already exists", "USER_EXISTS", now)
      && job.None?
    else
      reply == DataReply(Ok200, PendingUserJson(u), PendingMessage, now) && job == Some(ResendForPending(u.email))
  }

  function PendingUserJson(u: User): Json {
    JObj([("id", JNum(u.id)), ("email", JStr(u.email)), ("username", JStr(u.username)),
          ("status", JStr("pending_verification")), ("redirect", JStr("/verify-email"))])
  }

  function NewRegistrationJson(req: RegisterRequest): Json {
    JObj([("email", JStr(req.email)), ("username", JStr(req.username)),
          ("status", JStr("pending_verification")), ("redirect", JStr("/verify-email"))])
  }

  /** `register`.  `isEmail` is the validator's e-mail check and `render` the
      display of the failing fields; `lookupFault` is a database error on the
      lookup.  The database may return either row when two match; the model
      leaves that choice open. */
  method Register(service: Svc.AuthService, req: RegisterRequest, isEmail: string -> bool,
                  render: set<string> -> string, lookupFault: Option<string>, now: int)
    returns (reply: Reply, job: Option<Job>)
    ensures V.RegisterRequestErrors(req, isEmail) != {} ==>
      reply == ErrorReply(UnprocessableEntity422, "Validation error: " + render(V.RegisterRequestErrors(req, isEmail)),
                          "VALIDATION_ERROR", now) && job.None?
    ensures V.RegisterRequestErrors(req, isEmail) == {} && lookupFault.Some? ==>
      reply == ErrorReply(InternalServerError500, "Database error: " + lookupFault.value, "DATABASE_ERROR", now)
      && job.None?
    ensures V.RegisterRequestErrors(req, isEmail) == {} && lookupFault.None? &&
            (forall e :: e in service.users ==> !Matches(service.users[e], req)) ==>
      reply == DataReply(Created201, NewRegistrationJson(req), PendingMessage, now)
      && job == Some(RegisterThenInitiate(req))
    ensures V.RegisterRequestErrors(req, isEmail) == {} && lookupFault.None? &&
            (exists e :: e in service.users && Matches(service.users[e], req)) ==>
      exists e :: e in service.users && Matches(service.users[e], req) &&
                  ExistingUserOutcome(service.users[e], reply, job, now)
  {
    var errs := V.RegisterRequestErrors(req, isEmail);
    if errs != {} {
      reply := ErrorReply(UnprocessableEntity422, "Validation error: " + render(errs), "VALIDATION_ERROR", now);
      job := None;
      return;
    }
    if lookupFault.Some? {
      reply := ErrorReply(InternalServerError500, "Database error: " + lookupFault.value, "DATABASE_ERROR", now);
      job := None;
      return;
    }
    if e :| e in service.users && Matches(service.users[e], req) {
      var user := service.users[e];
      if user.status != PendingVerification {
        reply := ErrorReply(Conflict409, "User with this email or username already exists", "USER_EXISTS", now);
        job := None;
        return;
      }
      job := Some(ResendForPending(user.email));
      reply := DataReply(Ok200, PendingUserJson(user), PendingMessage, now);
    } else {
      job := Some(RegisterThenInitiate(req));
      reply := DataReply(Created201, NewRegistrationJson(req), PendingMessage, now);
    }
  }

  /** The background task spawned by `register`: re-initiate the OTP for a
      pending account, or create the account and initiate its OTP when the
      insert succeeds (`hashed`, `insertFault` and `freshId` are those of
      `AuthService.Register`).  Its outcome never reaches the client. */
  method RunJob(service: Svc.AuthService, job: Job, hashed: Result<string, string>,
                insertFault: Option<Svc.ServiceError>, freshId: UserId, now: int)
    returns (calls: seq<Call>)
    requires service.Valid()
    modifies service
    ensures service.Valid() && service.refreshTokens == old(service.refreshTokens)
    ensures job.ResendForPending? ==> calls == [InitiateOtpProcess(job.email)] && service.users == old(service.users)
    ensures job.RegisterThenInitiate? ==>
      (calls == [] <==> service.users == old(service.users)) &&
      (calls != [] ==> calls == [InitiateOtpProcess(job.req.email)] && hashed.Ok? &&
                       service.users == old(service.users)[job.req.email :=
                         User(freshId, job.req.email, job.req.username, hashed.value, job.req.gender,
                              PendingVerification, false, 0, None, now, now)])
  {
    match job
    case ResendForPending(email) =>
      calls := [InitiateOtpProcess(email)];
    case RegisterThenInitiate(req) =>
      var r := service.Register(req, hashed, insertFault, freshId, now);
      if r.Ok? {
        assert req.email !in old(service.users);
        calls := [InitiateOtpProcess(r.value.email)];
      } else {
        calls := [];
      }
  }

  /** `login`: the service's outcome turned into a reply.  The faults and
      oracles are those of `AuthService.LoginResult`. */
  method Login(service: Svc.AuthService, req: LoginRequest, fetchFault: Option<Svc.ServiceError>,
               verify: (string, string) -> Result<bool, string>, encode: Claims -> Result<string, string>,
               bytes: seq<Byte>, insertFault: Option<Svc.ServiceError>, now: int)
    returns (reply: Reply)
    requires service.Valid() && |bytes| == Svc.RefreshTokenBytes
    modifies service
    ensures service.Valid() && service.users == old(service.users)
    ensures var outcome := Svc.LoginResult(service.users, req.email, req.password, fetchFault, verify, encode,
                                           bytes, insertFault, now);
      reply == LoginReply(outcome, now)
      && service.refreshTokens == old(service.refreshTokens) + Svc.IssuedRows(outcome, now)
    ensures reply.status == Ok200 || reply.status == Unauthorized401
    ensures reply.status == Ok200 <==> |service.refreshTokens| == |old(service.refreshTokens)| + 1
  {
    var outcome := service.Login(req.email, req.password, fetchFault, verify, encode, bytes, insertFault, now);
    reply := LoginReply(outcome, now);
  }

  /** `verify_email`: validation, then the OTP check against the cache, then
      the account update. */
  method VerifyEmail(service: Svc.AuthService, mail: Mail.EmailService, req: VerifyEmailRequest,
                     isEmail: string -> bool, render: set<string> -> string,
                     fault: Option<Mail.LookupFault>, now: int)
    returns (reply: Reply)
    requires service.Valid()
    modifies service
    ensures service.Valid() && service.refreshTokens == old(service.refreshTokens)
    ensures V.VerifyEmailRequestErrors(req, isEmail) != {} ==>
      reply == ErrorReply(BadRequest400, "Validation error: " + render(V.VerifyEmailRequestErrors(req, isEmail)),
                          "VALIDATION_ERROR", now)
    ensures V.VerifyEmailRequestErrors(req, isEmail) == {} && !mail.VerifyOtp(req.email, req.otp, fault) ==>
      reply == ErrorReply(BadRequest400, "Invalid or expired OTP", "INVALID_OTP", now)
    ensures reply.status != Ok200 ==> service.users == old(service.users)
    ensures V.VerifyEmailRequestErrors(req, isEmail) == {} && mail.VerifyOtp(req.email, req.otp, fault) ==>
      if req.email in old(service.users) then
        reply == DataReply(Ok200, JObj([("email", JStr(req.email))]), VerifiedMessage, now)
        && service.users == old(service.users)[req.email := old(service.users)[req.email].(
             status := Active, isVerified := true, verifiedAt := Some(now), updatedAt := now)]
      else
        reply == ErrorReply(InternalServerError500, "Verification failed: " + Svc.ErrorText(Svc.RowNotFound),
                            "VERIFICATION_ERROR", now)
  {
    var errs := V.VerifyEmailRequestErrors(req, isEmail);
    if errs != {} {
      return ErrorReply(BadRequest400, "Validation error: " + render(errs), "VALIDATION_ERROR", now);
    }
    if !mail.VerifyOtp(req.email, req.otp, fault) {
      return ErrorReply(BadRequest400, "Invalid or expired OTP", "INVALID_OTP", now);
    }
    var done := service.CompleteVerification(req.email, now);
    match done
    case Ok(_) =>
      reply := DataReply(Ok200, JObj([("email", JStr(req.email))]), VerifiedMessage, now);
    case Err(e) =>
      reply := ErrorReply(InternalServerError500, "Verification failed: " + Svc.ErrorText(e), "VERIFICATION_ERROR", now);
  }

  /** `resend_otp`: only an existing account still pending verification
      reaches `initiate_otp_process`, whose outcome is `initiated`. */
  method ResendOtp(service: Svc.AuthService, req: ResendOtpRequest, isEmail: string -> bool,
                   render: set<string> -> string, lookupFault: Option<string>,
                   initiated: Result<(), string>, now: int)
    returns (reply: Reply, calls: seq<Call>)
    ensures !isEmail(req.email) ==>
      reply == CodeReply(UnprocessableEntity422, "Validation error: " + render({"email"}), "VALIDATION_ERROR", now)
      && calls == []
    ensures isEmail(req.email) && lookupFault.Some? ==>
      reply == CodeReply(InternalServerError500, "Database error: " + lookupFault.value, "DATABASE_ERROR", now)
      && calls == []
    ensures isEmail(req.email) && lookupFault.None? && req.email !in service.users ==>
      reply == CodeReply(NotFound404, "User not found", "USER_NOT_FOUND", now) && calls == []
    ensures isEmail(req.email) && lookupFault.None? && req.email in service.users &&
            service.users[req.email].status != PendingVerification ==>
      reply == CodeReply(BadRequest400, "User is not in pending verification state", "INVALID_STATE", now)
      && calls == []
    ensures calls != [] <==>
      isEmail(req.email) && lookupFault.None? && req.email in service.users &&
      service.users[req.email].status == PendingVerification
    ensures calls != [] ==> (calls == [InitiateOtpProcess(req.email)] &&
      reply == match initiated
        case Ok(_) => DataReply(Ok200, JObj([("email", JStr(req.email))]), "OTP resent successfully", now)
        case Err(e) => CodeReply(InternalServerError500, "Failed to send OTP: " + e, "EMAIL_ERROR", now))
  {
    calls := [];
    var errs := V.EmailOnlyErrors(req.email, isEmail);
    if errs != {} {
      assert errs == {"email"};
      reply := CodeReply(UnprocessableEntity422, "Validation error: " + render(errs), "VALIDATION_ERROR", now);
      return;
    }
    if lookupFault.Some? {
      reply := CodeReply(InternalServerError500, "Database error: " + lookupFault.value, "DATABASE_ERROR", now);
      return;
    }
    if req.email !in service.users {
      reply := CodeReply(NotFound404, "User not found", "USER_NOT_FOUND", now);
      return;
    }
    var user := service.users[req.email];
    if user.status != PendingVerification {
      reply := CodeReply(BadRequest400, "User is not in pending verification state", "INVALID_STATE", now);
      return;
    }
    calls := [InitiateOtpProcess(req.email)];
    match initiated
    case Ok(_) =>
      reply := DataReply(Ok200, JObj([("email", JStr(req.email))]), "OTP resent successfully", now);
    case Err(e) =>
      reply := CodeReply(InternalServerError500, "Failed to send OTP: " + e, "EMAIL_ERROR", now);
  }

  /** `reset_otp_attempts`: any existing account, whatever its status, has
      its attempts reset through `admin_reset_attempts` with an empty secret. */
  method ResetOtpAttempts(service: Svc.AuthService, req: ResendOtpRequest, isEmail: string -> bool,
                          render: set<string> -> string, lookupFault: Option<string>,
                          reset: Result<(), string>, now: int)
    returns (reply: Reply, calls: seq<Call>)
    ensures !isEmail(req.email) ==>
      reply == CodeReply(UnprocessableEntity422, "Validation error: " + render({"email"}), "VALIDATION_ERROR", now)
      && calls == []
    ensures isEmail(req.email) && lookupFault.Some? ==>
      reply == CodeReply(InternalServerError500, "Database error: " + lookupFault.value, "DATABASE_ERROR", now)
      && calls == []
    ensures isEmail(req.email) && lookupFault.None? && req.email !in service.users ==>
      reply == CodeReply(NotFound404, "User not found", "USER_NOT_FOUND", now) && calls == []
    ensures calls != [] <==> isEmail(req.email) && lookupFault.None? && req.email in service.users
    ensures calls != [] ==> (calls == [AdminResetAttempts(req.email, "")] &&
      reply == match reset
        case Ok(_) => DataReply(Ok200, JObj([("email", JStr(req.email)),
                                              ("username", JStr(service.users[req.email].username)),
                                              ("status", JStr(StatusJson(service.users[req.email].status)))]),
                                "OTP attempts reset successfully. You can now request a new OTP.", now)
        case Err(e) => CodeReply(InternalServerError500, "Failed to reset attempts: " + e, "RESET_ERROR", now))
  {
    calls := [];
    var errs := V.EmailOnlyErrors(req.email, isEmail);
    if errs != {} {
      assert errs == {"email"};
      reply := CodeReply(UnprocessableEntity422, "Validation error: " + render(errs), "VALIDATION_ERROR", now);
      return;
    }
    if lookupFault.Some? {
      reply := CodeReply(InternalServerError500, "Database error: " + lookupFault.value, "DATABASE_ERROR", now);
      return;
    }
    if req.email !in service.users {
      reply := CodeReply(NotFound404, "User not found", "USER_NOT_FOUND", now);
      return;
    }
    var user := service.users[req.email];
    calls := [AdminResetAttempts(req.email, "")];
    match reset
    case Err(e) =>
      reply := CodeReply(InternalServerError500, "Failed to reset attempts: " + e, "RESET_ERROR", now);
    case Ok(_) =>
      reply := DataReply(Ok200, JObj([("email", JStr(req.email)), ("username", JStr(user.username)),
                                      ("status", JStr(StatusJson(user.status)))]),
                         "OTP attempts reset successfully. You can now request a new OTP.", now);
  }

  /** `admin_reset_otp_attempts`: the `X-Admin-Token` header must be present
      and be visible ASCII; its text is handed on unchecked, and no account
      lookup is made. */
  function AdminResetOtpAttempts(email: string, isEmail: string -> bool, render: set<string> -> string,
                                 adminToken: Option<seq<Byte>>, reset: Result<(), string>, now: int)
    : (r: (Reply, seq<Call>))
    ensures !isEmail(email) ==>
      r == (CodeReply(UnprocessableEntity422, "Validation error: " + render({"email"}), "VALIDATION_ERROR", now), [])
    ensures isEmail(email) && adminToken.None? ==>
      r == (CodeReply(Unauthorized401, "Missing admin token", "MISSING_TOKEN", now), [])
    ensures isEmail(email) && adminToken.Some? && HeaderToStr(adminToken.value).None? ==>
      r == (CodeReply(Unauthorized401, "Invalid admin token format", "INVALID_TOKEN", now), [])
    ensures r.1 != [] <==> isEmail(email) && adminToken.Some? && HeaderToStr(adminToken.value).Some?
    ensures r.1 != [] ==> r.1 == [AdminResetAttempts(email, HeaderToStr(adminToken.value).value)]
    ensures r.1 != [] ==> (r.0.status == Ok200 <==> reset.Ok?)
  {
    if !isEmail(email) then
      (CodeReply(UnprocessableEntity422, "Validation error: " + render(V.EmailOnlyErrors(email, isEmail)),
                 "VALIDATION_ERROR", now), [])
    else if adminToken.None? then
      (CodeReply(Unauthorized401, "Missing admin token", "MISSING_TOKEN", now), [])
    else match HeaderToStr(adminToken.value)
      case None => (CodeReply(Unauthorized401, "Invalid admin token format", "INVALID_TOKEN", now), [])
      case Some(token) =>
        var calls := [AdminResetAttempts(email, token)];
        match reset
        case Err(e) => (CodeReply(InternalServerError500, "Failed to reset attempts: " + e, "RESET_ERROR", now), calls)
        case Ok(_) =>
          (DataReply(Ok200, JObj([("email", JStr(email)), ("status", JStr("reset_successful"))]),
                     "OTP attempts reset successfully by admin. User can now request a new OTP.", now), calls)
  }

  /** The secret reaches `admin_reset_attempts` byte for byte: an admin token
      of header characters is forwarded as exactly that text. */
  lemma AdminTokenForwardedVerbatim(email: string, isEmail: string -> bool, render: set<string> -> string,
                                    token: string, reset: Result<(), string>, now: int)
    requires isEmail(email)
    requires forall i :: 0 <= i < |token| ==> (32 <= token[i] as int < 127) || token[i] == '\t'
    ensures AdminResetOtpAttempts(email, isEmail, render, Some(AsciiBytes(token)), reset, now).1
            == [AdminResetAttempts(email, token)]
  {
    HeaderToStrAsciiBytes(token);
  }
}
