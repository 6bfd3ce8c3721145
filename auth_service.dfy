/**
 * The authentication service of backend/src/services/auth.rs: registration,
 * login with access- and refresh-token issuance, e-mail verification and the
 * sweep of expired refresh tokens, over an in-memory picture of the users and
 * refresh_tokens tables.  Password hashing (bcrypt), JWT signing and the
 * random source are parameters.
 */
module AuthService {
  import opened Wrappers
  import opened Accounts
  import opened Text
  import B64 = Base64Url

  /** The `sqlx::Error` cases the service produces or passes on: a query
      that found no row, a unique-constraint violation, the service's own
      `Protocol` errors, and a failure to reach the database. */
  datatype ServiceError =
    | RowNotFound
    | UniqueViolation
    | Protocol(message: string)
    | Io(message: string)

  /** The `Display` text of each error, as `sqlx` renders it. */
  function ErrorText(e: ServiceError): (s: string)
    ensures e.Protocol? ==> s == "encountered unexpected or invalid data: " + e.message
    ensures |s| > 0 && IsAsciiLower(s[0])
  {
    match e
    case RowNotFound =>
      var head := "no rows ";
      assert (head + "returned by a query that expected to return at least one row")[0] == 'n';
      head + "returned by a query that expected to return at least one row"
    case UniqueViolation =>
      var head := "error returned from database: ";
      assert (head + "duplicate key value violates unique constraint")[0] == 'e';
      head + "duplicate key value violates unique constraint"
    case Protocol(m) =>
      var head := "encountered unexpected or invalid data: ";
      assert (head + m)[0] == head[0] == 'e';
      head + m
    case Io(m) =>
      var head := "error communicating with database: ";
      assert (head + m)[0] == head[0] == 'e';
      head + m
  }

  /** One row of the refresh_tokens table. */
  datatype RefreshToken = RefreshToken(userId: UserId, token: string, expiresAt: int)

  const SecondsPerHour := 3600
  const SecondsPerDay := 24 * SecondsPerHour
  /** Access tokens expire 24 hours after issue. */
  const AccessTokenLifetime := 24 * SecondsPerHour
  /** Refresh tokens expire 2 days after issue (the doc comment says 30 days;
      the code adds two). */
  const RefreshTokenLifetime := 2 * SecondsPerDay
  /** Number of random bytes behind a refresh token (256 bits). */
  const RefreshTokenBytes := 32

  /** The claims `create_token` signs for `user` at time `now`. */
  function MakeClaims(user: User, now: int): (c: Claims)
    ensures c.sub == user.id && c.email == user.email && c.username == user.username
    ensures c.exp - now == AccessTokenLifetime
  {
    Claims(user.id, now + AccessTokenLifetime, user.email, user.username)
  }

  /** `create_token`, given the JWT encoder (HS256 with the service secret). */
  function CreateToken(user: User, now: int, encode: Claims -> Result<string, string>): (r: Result<string, ServiceError>)
    ensures r.Ok? <==> encode(MakeClaims(user, now)).Ok?
    ensures r.Ok? ==> r.value == encode(MakeClaims(user, now)).value
    ensures r.Err? ==> r.error == Protocol("Failed to create token: " + encode(MakeClaims(user, now)).error)
  {
    match encode(MakeClaims(user, now))
    case Ok(t) => Ok(t)
    case Err(e) => Err(Protocol("Failed to create token: " + e))
  }

  /** `generate_refresh_token_and_expiry`, given the 32 random bytes. */
  function GenerateRefreshToken(bytes: seq<Byte>, now: int): (r: (string, int))
    requires |bytes| == RefreshTokenBytes
    ensures |r.0| == 43 && B64.AllUrlSafe(r.0)
    ensures B64.Decode(r.0) == Some(bytes)
    ensures r.1 == now + RefreshTokenLifetime
  {
    B64.DecodeEncode(bytes);
    (B64.Encode(bytes), now + RefreshTokenLifetime)
  }

  /** Different random bytes give different refresh tokens, and a refresh
      token outlives the access token issued with it. */
  lemma RefreshTokensDistinct(a: seq<Byte>, b: seq<Byte>, now: int)
    requires |a| == RefreshTokenBytes && |b| == RefreshTokenBytes && a != b
    ensures GenerateRefreshToken(a, now).0 != GenerateRefreshToken(b, now).0
    ensures GenerateRefreshToken(a, now).1 > now + AccessTokenLifetime
  {
    if B64.Encode(a) == B64.Encode(b) { B64.EncodeInjective(a, b); }
  }

  /** The checks of `login` between loading the row and issuing tokens, in
      the source's order: a missing row, a failing or negative password
      check, an unverified address, an account that is not active. */
  function LoginGate(row: Option<User>, passwordCheck: Result<bool, string>): (r: Result<User, ServiceError>)
    ensures r.Ok? <==> row.Some? && passwordCheck == Ok(true) && row.value.isVerified && row.value.status == Active
    ensures r.Ok? ==> r.value == row.value
    ensures row.None? ==> r == Err(RowNotFound)
    ensures row.Some? && passwordCheck.Err? ==> r == Err(Protocol("Failed to verify password: " + passwordCheck.error))
    ensures row.Some? && passwordCheck == Ok(false) ==> r == Err(Protocol("Invalid password"))
    ensures row.Some? && passwordCheck == Ok(true) && !row.value.isVerified ==> r == Err(Protocol("Email not verified"))
    ensures row.Some? && passwordCheck == Ok(true) && row.value.isVerified && row.value.status != Active ==>
      r == Err(Protocol("Account is not active"))
  {
    match row
    case None => Err(RowNotFound)
    case Some(user) =>
      match passwordCheck
      case Err(e) => Err(Protocol("Failed to verify password: " + e))
      case Ok(matches) =>
        if !matches then Err(Protocol("Invalid password"))
        else if !user.isVerified then Err(Protocol("Email not verified"))
        else if user.status != Active then Err(Protocol("Account is not active"))
        else Ok(user)
  }

  /** A wrong password is reported before the account state, so a caller
      without the password learns nothing about verification or status. */
  lemma WrongPasswordHidesAccountState(u1: User, u2: User)
    ensures LoginGate(Some(u1), Ok(false)) == LoginGate(Some(u2), Ok(false))
  {
  }

  /** What `login` returns for the users table `users`.  `fetchFault` is a
      database failure of the row query, `verify` bcrypt's check, `encode`
      the JWT encoder, `bytes` the random draw for the refresh token and
      `insertFault` a failure of `insert_refresh_token`.  Each `?` of the
      source returns the first failure. */
  function LoginResult(users: map<string, User>, email: string, password: string, fetchFault: Option<ServiceError>,
                       verify: (string, string) -> Result<bool, string>, encode: Claims -> Result<string, string>,
                       bytes: seq<Byte>, insertFault: Option<ServiceError>, now: int)
    : (r: Result<AuthResponse, ServiceError>)
    requires |bytes| == RefreshTokenBytes
    ensures fetchFault.Some? ==> r == Err(fetchFault.value)
    ensures r.Ok? <==>
      fetchFault.None? && email in users && verify(password, users[email].passwordHash) == Ok(true)
      && users[email].isVerified && users[email].status == Active
      && encode(MakeClaims(users[email], now)).Ok? && insertFault.None?
    ensures r.Ok? ==>
      r.value.user == users[email] && r.value.token == encode(MakeClaims(users[email], now)).value
      && B64.Decode(r.value.refreshToken) == Some(bytes)
    ensures fetchFault.None? && email !in users ==> r == Err(RowNotFound)
    ensures fetchFault.None? && email in users ==>
      var gate := LoginGate(Some(users[email]), verify(password, users[email].passwordHash));
      (gate.Err? ==> r == Err(gate.error))
      && (gate.Ok? && encode(MakeClaims(users[email], now)).Err? ==> r == Err(CreateToken(users[email], now, encode).error))
      && (gate.Ok? && encode(MakeClaims(users[email], now)).Ok? && insertFault.Some? ==> r == Err(insertFault.value))
  {
    if fetchFault.Some? then Err(fetchFault.value)
    else
      var row := if email in users then Some(users[email]) else None;
      var gate := LoginGate(row, if row.Some? then verify(password, row.value.passwordHash) else Ok(false));
      if gate.Err? then Err(gate.error)
      else
        var token := CreateToken(gate.value, now, encode);
        if token.Err? then Err(token.error)
        else if insertFault.Some? then Err(insertFault.value)
        else Ok(AuthResponse(token.value, GenerateRefreshToken(bytes, now).0, gate.value))
  }

  /** The refresh-token rows a `login` outcome adds: one for a success. */
  function IssuedRows(r: Result<AuthResponse, ServiceError>, now: int): seq<RefreshToken> {
    if r.Ok? then [RefreshToken(r.value.user.id, r.value.refreshToken, now + RefreshTokenLifetime)] else []
  }

  /** The refresh tokens that survive `cleanup_expired_refresh_tokens` at
      time `now` (rows with `expires_at < NOW()` are deleted). */
  function Unexpired(tokens: seq<RefreshToken>, now: int): (kept: seq<RefreshToken>)
    ensures |kept| <= |tokens|
    ensures forall t :: t in kept <==> t in tokens && t.expiresAt >= now
  {
    if tokens == [] then []
    else (if tokens[0].expiresAt >= now then [tokens[0]] else []) + Unexpired(tokens[1..], now)
  }

  /** The sweep keeps the relative order of the surviving rows, and sweeping
      twice at the same time deletes nothing the second time. */
  lemma {:induction false} UnexpiredIdempotent(tokens: seq<RefreshToken>, now: int)
    ensures Unexpired(Unexpired(tokens, now), now) == Unexpired(tokens, now)
  {
    if tokens != [] {
      UnexpiredIdempotent(tokens[1..], now);
      var head := if tokens[0].expiresAt >= now then [tokens[0]] else [];
      UnexpiredAppend(head, Unexpired(tokens[1..], now), now);
      assert Unexpired(head, now) == head by {
        if head != [] { assert head[1..] == []; }
      }
    }
  }

  lemma {:induction false} UnexpiredAppend(a: seq<RefreshToken>, b: seq<RefreshToken>, now: int)
    ensures Unexpired(a + b, now) == Unexpired(a, now) + Unexpired(b, now)
  {
    if a != [] {
      assert (a + b)[1..] == a[1..] + b;
      UnexpiredAppend(a[1..], b, now);
    } else {
      assert a + b == b;
    }
  }

  /** The service with the rows it owns.  `users` is keyed by e-mail. */
  class AuthService {
    var users: map<string, User>
    var refreshTokens: seq<RefreshToken>

    /** The table constraints: e-mails, usernames and ids are unique, and an
        account is verified exactly when it is no longer pending. */
    ghost predicate Valid()
      reads this
    {
      (forall e :: e in users ==> users[e].email == e)
      && (forall e1, e2 :: e1 in users && e2 in users && e1 != e2 ==>
            users[e1].username != users[e2].username && users[e1].id != users[e2].id)
      && (forall e :: e in users ==> (users[e].isVerified <==> users[e].status != PendingVerification))
    }

    constructor ()
      ensures Valid()
      ensures users == map[] && refreshTokens == []
    {
      users := map[];
      refreshTokens := [];
    }

    /** `check_user_exists`: some row has this e-mail or this username. */
    predicate UserExists(email: string, username: string)
      reads this
    {
      email in users || exists e :: e in users && users[e].username == username
    }

    /** `register`.  `hashed` is bcrypt's outcome for the password,
        `insertFault` a failure of the INSERT other than a constraint
        violation (the database unreachable, say) and `freshId` the id the
        database generates.  The new row is pending, unverified and has no
        verification attempts. */
    method Register(req: RegisterRequest, hashed: Result<string, string>, insertFault: Option<ServiceError>,
                    freshId: UserId, now: int)
      returns (r: Result<User, ServiceError>)
      requires Valid()
      modifies this
      ensures Valid()
      ensures refreshTokens == old(refreshTokens)
      ensures hashed.Err? ==> r == Err(Protocol("Failed to hash password: " + hashed.error)) && users == old(users)
      ensures r.Err? ==> users == old(users)
      ensures hashed.Ok? && insertFault.Some? ==> r == Err(insertFault.value)
      ensures hashed.Ok? && insertFault.None? && old(UserExists(req.email, req.username)) ==> r == Err(UniqueViolation)
      ensures r.Ok? <==> (hashed.Ok? && insertFault.None? && !old(UserExists(req.email, req.username))
                          && forall e :: e in old(users) ==> old(users)[e].id != freshId)
      ensures r.Ok? ==>
        r.value == User(freshId, req.email, req.username, hashed.value, req.gender,
                        PendingVerification, false, 0, None, now, now)
        && users == old(users)[req.email := r.value]
    {
      if hashed.Err? {
        return Err(Protocol("Failed to hash password: " + hashed.error));
      }
      if insertFault.Some? {
        return Err(insertFault.value);
      }
      if UserExists(req.email, req.username) || exists e :: e in users && users[e].id == freshId {
        return Err(UniqueViolation);
      }
      var user := User(freshId, req.email, req.username, hashed.value, req.gender,
                       PendingVerification, false, 0, None, now, now);
      users := users[req.email := user];
      r := Ok(user);
    }

    /** `login` (see `LoginResult` for the parameters).  On success one
        refresh-token row is added; every failure leaves the tables as they
        were. */
    method Login(email: string, password: string, fetchFault: Option<ServiceError>,
                 verify: (string, string) -> Result<bool, string>, encode: Claims -> Result<string, string>,
                 bytes: seq<Byte>, insertFault: Option<ServiceError>, now: int)
      returns (r: Result<AuthResponse, ServiceError>)
      requires Valid()
      requires |bytes| == RefreshTokenBytes
      modifies this
      ensures Valid() && users == old(users)
      ensures r == LoginResult(users, email, password, fetchFault, verify, encode, bytes, insertFault, now)
      ensures refreshTokens == old(refreshTokens) + IssuedRows(r, now)
    {
      if fetchFault.Some? {
        return Err(fetchFault.value);
      }
      var row := if email in users then Some(users[email]) else None;
      var check := if row.Some? then verify(password, row.value.passwordHash) else Ok(false);
      var gate := LoginGate(row, check);
      if gate.Err? {
        return Err(gate.error);
      }
      var user := gate.value;
      var token := CreateToken(user, now, encode);
      if token.Err? {
        return Err(token.error);
      }
      var (refresh, expiresAt) := GenerateRefreshToken(bytes, now);
      if insertFault.Some? {
        return Err(insertFault.value);
      }
      refreshTokens := refreshTokens + [RefreshToken(user.id, refresh, expiresAt)];
      r := Ok(AuthResponse(token.value, refresh, user));
    }

    /** `complete_verification`: the row for `email` becomes verified and
        active; a missing row is `RowNotFound`. */
    method CompleteVerification(email: string, now: int) returns (r: Result<(), ServiceError>)
      requires Valid()
      modifies this
      ensures Valid() && refreshTokens == old(refreshTokens)
      ensures r.Ok? <==> email in old(users)
      ensures r.Err? ==> r.error == RowNotFound && users == old(users)
      ensures r.Ok? ==> users == old(users)[email := old(users)[email].(
        status := Active, isVerified := true, verifiedAt := Some(now), updatedAt := now)]
    {
      if email !in users {
        return Err(RowNotFound);
      }
      users := users[email := users[email].(status := Active, isVerified := true, verifiedAt := Some(now), updatedAt := now)];
      r := Ok(());
    }

    /** `cleanup_expired_refresh_tokens`: deletes the rows that expired before
        `now` and returns how many it deleted. */
    method CleanupExpiredRefreshTokens(now: int) returns (deleted: nat)
      modifies this
      ensures users == old(users)
      ensures refreshTokens == Unexpired(old(refreshTokens), now)
      ensures deleted == |old(refreshTokens)| - |refreshTokens|
    {
      var kept := Unexpired(refreshTokens, now);
      deleted := |refreshTokens| - |kept|;
      refreshTokens := kept;
    }
  }

  /** The life of an account: a fresh registration cannot log in until its
      address is verified; after verification the right password logs in. */
  method AccountLifecycle(req: RegisterRequest, hash: string, id: UserId, now: int,
                          verify: (string, string) -> Result<bool, string>,
                          encode: Claims -> Result<string, string>, bytes: seq<Byte>)
    returns (early: Result<AuthResponse, ServiceError>, late: Result<AuthResponse, ServiceError>)
    requires |bytes| == RefreshTokenBytes
    requires verify(req.password, hash) == Ok(true)
    requires forall c :: encode(c).Ok?
    ensures early == Err(Protocol("Email not verified"))
    ensures late.Ok? && late.value.user.id == id && late.value.user.status == Active
    ensures late.Ok? && late.value.token == encode(MakeClaims(late.value.user, now)).value
  {
    var service := new AuthService();
    var reg := service.Register(req, Ok(hash), None, id, now);
    assert reg.Ok?;
    early := service.Login(req.email, req.password, None, verify, encode, bytes, None, now);
    var done := service.CompleteVerification(req.email, now);
    assert done.Ok?;
    late := service.Login(req.email, req.password, None, verify, encode, bytes, None, now);
  }
}
