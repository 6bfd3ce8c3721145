/**
 * The credential guard in front of protected routes, in its three revisions:
 * backend/src/middleware/auth.rs, backend/src/auth/middleware.rs and
 * backend/src/auth/middleware/mod.rs.  Each reads the `Authorization`
 * header, extracts a bearer token, decodes it (the JWT decoder, which also
 * checks the expiry, is a parameter) and on success stores the caller's
 * identity in the request before handing it on.
 */
module BearerGuard {
  import opened Wrappers
  import opened Text
  import opened Accounts
  import opened Api
  import AuthService

  const BearerPrefix := "Bearer "
  const MissingHeaderMessage := "Missing or invalid authorization header"

  /** The identity handlers read from the request. */
  datatype AuthUser = AuthUser(id: UserId, email: string, username: string)

  /** `AuthUser::from(Claims)`: the claims without their expiry. */
  function AuthUserFrom(c: Claims): (u: AuthUser)
    ensures u.id == c.sub && u.email == c.email && u.username == c.username
  {
    AuthUser(c.sub, c.email, c.username)
  }

  /** `str::strip_prefix`. */
  function StripPrefix(s: string, p: string): (r: Option<string>)
    ensures r.Some? <==> IsPrefix(p, s)
    ensures r.Some? ==> p + r.value == s
  {
    if IsPrefix(p, s) then
      assert s == s[..|p|] + s[|p|..];
      Some(s[|p|..])
    else None
  }

  /** `str::trim_start_matches` with a non-empty pattern: removes as many
      leading copies of `p` as there are. */
  function TrimStartMatches(s: string, p: string): (r: string)
    requires |p| > 0
    ensures |r| <= |s| && r == s[|s| - |r|..]
    ensures !IsPrefix(p, r)
    decreases |s|
  {
    if IsPrefix(p, s) then TrimStartMatches(s[|p|..], p) else s
  }

  /** The header's text: absent, or not visible ASCII, gives `None`. */
  function HeaderText(header: Option<seq<Byte>>): (r: Option<string>)
  {
    if header.None? then None else HeaderToStr(header.value)
  }

  /** The token of middleware/auth.rs: the header text after a leading
      "Bearer ", found with `strip_prefix`. */
  function TokenByStripPrefix(header: Option<seq<Byte>>): (r: Option<string>)
  {
    match HeaderText(header)
    case None => None
    case Some(text) => StripPrefix(text, BearerPrefix)
  }

  /** The token of auth/middleware.rs: `starts_with` and then the text from
      offset 7 on. */
  function TokenBySlice(header: Option<seq<Byte>>): (r: Option<string>)
  {
    match HeaderText(header)
    case None => None
    case Some(text) => if IsPrefix(BearerPrefix, text) then Some(text[7..]) else None
  }

  /** The token of auth/middleware/mod.rs: after a `starts_with` check, every
      leading "Bearer " is removed and the rest is trimmed.  Header text is
      visible ASCII or tab, where Rust's and JavaScript's white space agree. */
  function TokenByTrim(header: Option<seq<Byte>>): (r: Option<string>)
  {
    match HeaderText(header)
    case None => None
    case Some(text) => if IsPrefix(BearerPrefix, text) then Some(TrimmedToken(text)) else None
  }

  function TrimmedToken(text: string): string {
    Trim(TrimStartMatches(text, BearerPrefix))
  }

  /** The two fixed-prefix parsers are the same function, and all three
      accept exactly the same headers. */
  lemma TokenParsersAgree(header: Option<seq<Byte>>)
    ensures TokenByStripPrefix(header) == TokenBySlice(header)
    ensures TokenByTrim(header).Some? <==> TokenByStripPrefix(header).Some?
  {
  }

  /** The trimming parser differs only on tokens that themselves start with
      "Bearer " or carry surrounding white space; on any other token the
      three parsers agree. */
  lemma TrimmingParserAgreesOnPlainTokens(header: Option<seq<Byte>>, token: string)
    requires TokenByStripPrefix(header) == Some(token)
    requires !IsPrefix(BearerPrefix, token)
    requires token == [] || (!IsJsWhitespace(token[0]) && !IsJsWhitespace(token[|token| - 1]))
    ensures TokenByTrim(header) == Some(token)
  {
    var text := HeaderText(header).value;
    assert text[7..] == token;
    assert TrimStartMatches(text, BearerPrefix) == TrimStartMatches(token, BearerPrefix) by {
      assert text[|BearerPrefix|..] == token;
    }
    assert TrimStartMatches(token, BearerPrefix) == token;
    assert TrimStart(token) == token;
    assert TrimEnd(token) == token;
  }

  /** A header that repeats the prefix is read differently: "Bearer Bearer x"
      gives the token "Bearer x" to the first two guards and "x" to the third. */
  lemma RepeatedPrefixExample(header: Option<seq<Byte>>)
    requires HeaderText(header) == Some("Bearer Bearer x")
    ensures TokenByStripPrefix(header) == Some("Bearer x") && TokenByTrim(header) == Some("x")
  {
    RepeatedPrefixStripped();
  }

  lemma RepeatedPrefixStripped()
    ensures StripPrefix("Bearer Bearer x", BearerPrefix) == Some("Bearer x")
    ensures TrimmedToken("Bearer Bearer x") == "x"
  {
    var text := "Bearer Bearer x";
    assert IsPrefix(BearerPrefix, text) && text[7..] == "Bearer x";
    assert IsPrefix(BearerPrefix, "Bearer x") && "Bearer x"[7..] == "x";
    assert !IsPrefix(BearerPrefix, "x");
    assert TrimStartMatches(text, BearerPrefix) == "x";
    assert !IsJsWhitespace('x');
    assert TrimStart("x") == "x";
  }

  /** What a guard decides: hand the request on with an identity, or reply. */
  datatype Verdict<T> = Pass(identity: T) | Reject(reply: Reply)

  /** middleware/auth.rs: a bad header is 401 UNAUTHORIZED, a token the
      decoder refuses is 401 INVALID_TOKEN with the decoder's message. */
  function GuardWithUser(header: Option<seq<Byte>>, decode: string -> Result<Claims, string>, now: int)
    : (v: Verdict<AuthUser>)
    ensures v.Pass? <==> TokenByStripPrefix(header).Some? && decode(TokenByStripPrefix(header).value).Ok?
    ensures v.Pass? ==> v.identity == AuthUserFrom(decode(TokenByStripPrefix(header).value).value)
    ensures TokenByStripPrefix(header).None? ==>
      v == Reject(ErrorReply(Unauthorized401, MissingHeaderMessage, "UNAUTHORIZED", now))
    ensures TokenByStripPrefix(header).Some? && decode(TokenByStripPrefix(header).value).Err? ==>
      v == Reject(ErrorReply(Unauthorized401, "Invalid token: " + decode(TokenByStripPrefix(header).value).error,
                             "INVALID_TOKEN", now))
  {
    match TokenByStripPrefix(header)
    case None => Reject(ErrorReply(Unauthorized401, MissingHeaderMessage, "UNAUTHORIZED", now))
    case Some(token) =>
      match decode(token)
      case Err(e) => Reject(ErrorReply(Unauthorized401, "Invalid token: " + e, "INVALID_TOKEN", now))
      case Ok(claims) => Pass(AuthUserFrom(claims))
  }

  /** auth/middleware.rs: as above, but a refused token is also coded
      UNAUTHORIZED. */
  function GuardWithUserLegacy(header: Option<seq<Byte>>, decode: string -> Result<Claims, string>, now: int)
    : (v: Verdict<AuthUser>)
    ensures TokenBySlice(header).None? ==>
      v == Reject(ErrorReply(Unauthorized401, MissingHeaderMessage, "UNAUTHORIZED", now))
    ensures TokenBySlice(header).Some? ==> match decode(TokenBySlice(header).value)
      case Ok(c) => v == Pass(AuthUserFrom(c))
      case Err(e) => v == Reject(ErrorReply(Unauthorized401, "Invalid token: " + e, "UNAUTHORIZED", now))
  {
    match TokenBySlice(header)
    case None => Reject(ErrorReply(Unauthorized401, MissingHeaderMessage, "UNAUTHORIZED", now))
    case Some(token) =>
      match decode(token)
      case Err(e) => Reject(ErrorReply(Unauthorized401, "Invalid token: " + e, "UNAUTHORIZED", now))
      case Ok(claims) => Pass(AuthUserFrom(claims))
  }

  /** auth/middleware/mod.rs: every refusal is a bare 401, and the claims
      themselves are stored. */
  function GuardWithClaims(header: Option<seq<Byte>>, decode: string -> Result<Claims, string>)
    : (v: Verdict<Claims>)
    ensures v.Pass? <==> TokenByTrim(header).Some? && decode(TokenByTrim(header).value).Ok?
    ensures v.Pass? ==> v.identity == decode(TokenByTrim(header).value).value
    ensures v.Reject? ==> v.reply == Reply(Unauthorized401, NoBody)
  {
    match TokenByTrim(header)
    case None => Reject(Reply(Unauthorized401, NoBody))
    case Some(token) =>
      match decode(token)
      case Err(_) => Reject(Reply(Unauthorized401, NoBody))
      case Ok(claims) => Pass(claims)
  }

  /** The first two guards let the same requests through with the same
      identity; they differ only in the code of a refused token. */
  lemma UserGuardsAgree(header: Option<seq<Byte>>, decode: string -> Result<Claims, string>, now: int)
    ensures GuardWithUser(header, decode, now).Pass? <==> GuardWithUserLegacy(header, decode, now).Pass?
    ensures GuardWithUser(header, decode, now).Pass? ==>
      GuardWithUser(header, decode, now) == GuardWithUserLegacy(header, decode, now)
    ensures GuardWithUser(header, decode, now).Reject? ==>
      GuardWithUser(header, decode, now).reply.body.error.message ==
      GuardWithUserLegacy(header, decode, now).reply.body.error.message
  {
    TokenParsersAgree(header);
  }

  /** A token issued by login passes the guard as "Bearer <token>" and
      identifies the account it was issued to, provided the decoder accepts
      what the encoder produced. */
  lemma IssuedTokenAuthenticates(user: User, now: int, encode: Claims -> Result<string, string>,
                                 decode: string -> Result<Claims, string>)
    requires AuthService.CreateToken(user, now, encode).Ok?
    requires var t := AuthService.CreateToken(user, now, encode).value;
      (forall i :: 0 <= i < |t| ==> 32 <= t[i] as int < 127) &&
      decode(t) == Ok(AuthService.MakeClaims(user, now))
    ensures var t := AuthService.CreateToken(user, now, encode).value;
      GuardWithUser(Some(AsciiBytes(BearerPrefix + t)), decode, now) ==
      Pass(AuthUser(user.id, user.email, user.username))
  {
    var t := AuthService.CreateToken(user, now, encode).value;
    var text := BearerPrefix + t;
    HeaderToStrAsciiBytes(text);
    assert HeaderText(Some(AsciiBytes(text))) == Some(text);
    assert IsPrefix(BearerPrefix, text);
    assert text[7..] == t;
  }

  /** A request passing through the guards: its `Authorization` header and
      the extensions the guards write. */
  class Request {
    var authorization: Option<seq<Byte>>
    var authUser: Option<AuthUser>
    var claims: Option<Claims>

    constructor (authorization: Option<seq<Byte>>)
      ensures this.authorization == authorization && authUser.None? && claims.None?
    {
      this.authorization := authorization;
      authUser := None;
      claims := None;
    }
  }

  /** The `auth` middleware of middleware/auth.rs: on success the identity is
      inserted (replacing any earlier one) and `None` means "run the next
      handler"; on failure the request is left alone and the reply returned. */
  method Authenticate(request: Request, decode: string -> Result<Claims, string>, now: int)
    returns (refusal: Option<Reply>)
    modifies request
    ensures request.authorization == old(request.authorization) && request.claims == old(request.claims)
    ensures match GuardWithUser(old(request.authorization), decode, now)
      case Pass(u) => refusal.None? && request.authUser == Some(u)
      case Reject(r) => refusal == Some(r) && request.authUser == old(request.authUser)
  {
    match GuardWithUser(request.authorization, decode, now)
    case Pass(u) =>
      request.authUser := Some(u);
      refusal := None;
    case Reject(r) =>
      refusal := Some(r);
  }

  /** `auth_middleware` of auth/middleware.rs. */
  method AuthenticateLegacy(request: Request, decode: string -> Result<Claims, string>, now: int)
    returns (refusal: Option<Reply>)
    modifies request
    ensures request.authorization == old(request.authorization) && request.claims == old(request.claims)
    ensures match GuardWithUserLegacy(old(request.authorization), decode, now)
      case Pass(u) => refusal.None? && request.authUser == Some(u)
      case Reject(r) => refusal == Some(r) && request.authUser == old(request.authUser)
  {
    match GuardWithUserLegacy(request.authorization, decode, now)
    case Pass(u) =>
      request.authUser := Some(u);
      refusal := None;
    case Reject(r) =>
      refusal := Some(r);
  }

  /** `auth_middleware` of auth/middleware/mod.rs: stores the claims. */
  method AuthenticateClaims(request: Request, decode: string -> Result<Claims, string>)
    returns (refusal: Option<Reply>)
    modifies request
    ensures request.authorization == old(request.authorization) && request.authUser == old(request.authUser)
    ensures match GuardWithClaims(old(request.authorization), decode)
      case Pass(c) => refusal.None? && request.claims == Some(c)
      case Reject(r) => refusal == Some(r) && request.claims == old(request.claims)
  {
    match GuardWithClaims(request.authorization, decode)
    case Pass(c) =>
      request.claims := Some(c);
      refusal := None;
    case Reject(r) =>
      refusal := Some(r);
  }
}
