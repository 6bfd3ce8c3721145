/**
 * The account records of backend/src/models/auth.rs: the enumerations, the
 * users-table row, the access-token claims and the request payloads.
 */
module Accounts {
  import opened Wrappers

  /** Database ids (`Uuid`) carry no structure here; only equality matters. */
  type UserId = nat

  datatype Gender = Male | Female | Other

  /** `Display for Gender` writes the `Debug` form, i.e. the variant name. */
  function GenderDisplay(g: Gender): (s: string)
    ensures s in {"Male", "Female", "Other"}
  {
    match g
    case Male => "Male"
    case Female => "Female"
    case Other => "Other"
  }

  /** Distinct genders display differently, so the display form identifies the variant. */
  lemma GenderDisplayInjective(a: Gender, b: Gender)
    ensures GenderDisplay(a) == GenderDisplay(b) ==> a == b
  {
    if GenderDisplay(a) == GenderDisplay(b) {
      match a
      case Male => assert GenderDisplay(b)[0] == 'M';
      case Female => assert GenderDisplay(b)[0] == 'F';
      case Other => assert GenderDisplay(b)[0] == 'O';
    }
  }

  datatype UserStatus = Active | Inactive | Suspended | PendingVerification

  /** The database spelling of a status (`rename_all = "snake_case"`). */
  function StatusName(s: UserStatus): string {
    match s
    case Active => "active"
    case Inactive => "inactive"
    case Suspended => "suspended"
    case PendingVerification => "pending_verification"
  }

  /** One row of the users table.  Timestamps are seconds since the epoch. */
  datatype User = User(
    id: UserId,
    email: string,
    username: string,
    passwordHash: string,
    gender: Gender,
    status: UserStatus,
    isVerified: bool,
    verificationAttempts: int,
    verifiedAt: Option<int>,
    createdAt: int,
    updatedAt: int)

  /** The JWT payload: `sub` and `exp` are the registered claims of RFC 7519
      (sections 4.1.2 and 4.1.4); `email` and `username` are private claims. */
  datatype Claims = Claims(sub: UserId, exp: int, email: string, username: string)

  /** The login result.  The declared struct has only `token` and `user`; the
      service fills in `refresh_token` as well, so the model carries all three. */
  datatype AuthResponse = AuthResponse(token: string, refreshToken: string, user: User)

  datatype RegisterRequest = RegisterRequest(email: string, username: string, password: string, gender: Gender)

  datatype LoginRequest = LoginRequest(email: string, password: string)

  datatype VerifyEmailRequest = VerifyEmailRequest(email: string, otp: string)

  datatype ResendOtpRequest = ResendOtpRequest(email: string)
}

/** The older account enumerations of backend/src/auth/models.rs. */
module LegacyAccounts {

  /** Three statuses only: this revision has no pending-verification state. */
  datatype UserStatus = Active | Inactive | Suspended
}
