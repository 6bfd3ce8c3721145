# LinkSphere authentication core, in Dafny

LinkSphere lets people share and browse links. Its backend is a Rust (axum) service. It registers accounts, sends a one-time e-mail code (OTP) through an Upstash cache and SMTP, verifies that code, and issues JWT access tokens plus opaque refresh tokens on login. Bearer-token middleware guards the other routes. A React front end lists, filters, sorts and pages links, uploads new ones, and drives registration and OTP verification.

This project models that core and proves properties of the model. Each source file maps to one module:

- `accounts.dfy` (`Accounts`): the records of `models/auth.rs` and `auth/models.rs`.
- `validation.dfy` (`Validation`): the request constraints of both model revisions and of `api/models.rs`, plus `auth/validation.rs` (the e-mail pattern and the length-then-strength password rule).
- `base64url.dfy` (`Base64Url`): unpadded URL-safe Base64 (section 5 of RFC 4648), which refresh tokens use.
- `auth_service.dfy` (`AuthService`): `services/auth.rs`.
  - The class `AuthService` owns the users table, keyed by e-mail, and the refresh-token rows.
  - `register`, `login`, `complete_verification` and `cleanup_expired_refresh_tokens` are methods that change them.
- `otp_mail.dfy` (`OtpMail`): `services/email.rs` and its older twin `auth/email.rs`.
  - The class `EmailService` holds the cache entries and the outbox of sent mails.
- `auth_handlers.dfy` (`AuthHandlers`): the handlers of `handlers/auth.rs`.
- `legacy_routes.dfy` (`LegacyRoutes`): the older routes of `auth/routes.rs`.
- `bearer_guard.dfy` (`BearerGuard`): the three bearer-token middlewares.
- `api_response.dfy` (`Api`): the reply envelopes of `api/mod.rs`.
- `api_error.dfy` (`ApiErrors`): the errors of `error.rs`.
- `logging.dfy` (`Logging`): `logging.rs`.
- `lists.dfy` (`Lists`): the JavaScript array operations the pages use: `filter`, a stable `sort`, `slice`, and page arithmetic.
- `link_lists.dfy` (`LinkLists`): the list pages.
  - `LinksList` and `ViewLinks` are classes whose fields are the components' state.
  - The admin and dashboard searches are filters.
- `date_utils.dfy` (`DateUtils`): `dateUtils.ts`.
- `upload_forms.dfy` (`UploadForms`): the two upload forms, `UploadForm` and `UploadPage`.
- `auth_pages.dfy` (`AuthPages`): the registration page, the OTP verification page and the OTP verification form with their countdowns.

Foreign code becomes parameters. This covers:

- bcrypt, JWT encoding and decoding, zxcvbn, the validator crate's e-mail check, `Url::parse`, and random draws;
- the clock, the cache's and the mail transport's answers, and database faults;
- `Date` parsing and `Intl` formatting, and `localeCompare` or `<` on strings, which the model treats as a rank function.

A handler or page reports the calls it makes to operations that are not part of this model. Timestamps are integers (seconds in the backend, milliseconds in the front end).

Where the code and its own documentation disagree, the model follows the code:

- A refresh token lives 2 days (`services/auth.rs:131`), not the 30 days of the doc comment at line 126.
- The page size of `LinksList` is 10 (`LinksList.tsx:24`).

## Model

| member | source | states |
|---|---|---|
| Accounts.GenderDisplay | backend/src/models/auth.rs:15-19 | a gender displays as its variant name |
| Accounts.GenderDisplayInjective | backend/src/models/auth.rs:9-19 | distinct genders display differently |
| Validation.MatchRepeat | backend/src/models/auth.rs:121-128 | the matcher accepts exactly the strings of length lo..hi drawn from the character class |
| Validation.ValidateUsername | backend/src/models/auth.rs:121-128 | a username is accepted iff it is 3 to 50 ASCII letters, digits or underscores |
| Validation.UsernamePatternImpliesLength | backend/src/models/auth.rs:58-76 | every username the pattern accepts also meets the separate 3..50 length constraint |
| Validation.RegisterRequestErrors | backend/src/models/auth.rs:58-76 | a field is reported iff its constraint fails (e-mail check, username pattern, password of at least 6 characters), and no other field is reported |
| Validation.VerifyEmailRequestErrors | backend/src/models/auth.rs:96-103 | "email" is reported iff the e-mail check fails and "otp" iff the code is not exactly 6 characters; no other field is reported |
| Validation.EmailOnlyErrors | backend/src/models/auth.rs:107-110 | only the e-mail is checked |
| Validation.ValidateOtp | backend/src/api/models.rs:102-108 | the code is accepted iff every character is an ASCII digit |
| Validation.ApiVerifyEmailRequestErrors | backend/src/api/models.rs:77-88 | "email" is reported iff the e-mail check fails and "otp" iff the code is not exactly 6 characters or not all ASCII digits; no other field is reported |
| Validation.OtpFieldAcceptsSixDigits | backend/src/api/models.rs:77-108 | the length rule and `validate_otp` together accept exactly six ASCII digits |
| Validation.CreateLinkRequestErrors | backend/src/api/models.rs:9-33 | "url" is reported iff the URL does not parse, "title" iff it is not 1..255 characters, "description" iff it is not 1..1000 characters; no other field is reported |
| Validation.ValidateUrl | backend/src/api/models.rs:36-43 | the URL is accepted exactly when the parser accepts it, and the parser's error is passed on |
| Validation.ValidEmailIff | backend/src/auth/validation.rs:5-19 | the e-mail pattern holds iff some '@' splits the address into a non-empty local part of allowed characters and a domain of well-formed labels |
| Validation.ValidEmailShape | backend/src/auth/validation.rs:5-19 | an accepted address has exactly one '@', a non-empty local part and a domain ending in a letter or digit |
| Validation.EmailRejections | backend/src/auth/validation.rs:5-19 | addresses without '@', with an empty domain, or with a domain ending in '.' or '-' are rejected |
| Validation.ValidatePassword | backend/src/auth/validation.rs:21-53 | fewer than 8 UTF-8 bytes fails with the length error before the estimator runs; otherwise a score below 3 fails with the estimator's feedback |
| Validation.ShortPasswordSkipsEstimator | backend/src/auth/validation.rs:22-28 | for a short password the outcome does not depend on the estimator |
| Validation.LengthCheckCountsBytes | backend/src/auth/validation.rs:22-28 | the length check counts bytes, so some 2-character passwords pass it |
| Base64Url.ValueOfCharOf | backend/src/services/auth.rs:130 | each alphabet character decodes back to its 6-bit value |
| Base64Url.DecodeEncodeGroups | backend/src/services/auth.rs:130 | decoding the 6-bit groups of an encoding gives back the bytes |
| Base64Url.Encode | backend/src/services/auth.rs:130 | the encoding has the unpadded length and uses only URL-safe characters |
| Base64Url.DecodeEncode | backend/src/services/auth.rs:130 | decoding inverts encoding |
| Base64Url.EncodeInjective | backend/src/services/auth.rs:130 | distinct byte strings never share an encoding |
| AuthService.ErrorText | backend/src/services/auth.rs:41-165 | a protocol error displays with the sqlx prefix, and every error text (row not found, unique violation, protocol, I/O) starts with a lower-case letter |
| AuthService.MakeClaims | backend/src/services/auth.rs:147-158 | the claims carry the user's id, e-mail and username and expire 24 hours after `now` |
| AuthService.CreateToken | backend/src/services/auth.rs:147-166 | the token is the encoder's output for those claims; an encoder failure becomes the protocol error "Failed to create token: …" |
| AuthService.GenerateRefreshToken | backend/src/services/auth.rs:127-133 | the token is 43 URL-safe characters that decode to the 32 random bytes, and it expires 2 days after `now` |
| AuthService.RefreshTokensDistinct | backend/src/services/auth.rs:127-133 | different random bytes give different tokens, and a refresh token outlives the access token |
| AuthService.LoginGate | backend/src/services/auth.rs:73-108 | login proceeds iff the row exists, the password verifies, and the account is verified and active; each failure has its own error, in the source's order |
| AuthService.WrongPasswordHidesAccountState | backend/src/services/auth.rs:94-98 | a wrong password gives the same error whatever the account's state |
| AuthService.Unexpired | backend/src/services/auth.rs:136-141 | exactly the rows expiring at or after `now` survive the sweep |
| AuthService.UnexpiredIdempotent | backend/src/services/auth.rs:136-141 | sweeping twice at the same time removes nothing more |
| AuthService.UnexpiredAppend | backend/src/services/auth.rs:136-141 | the sweep works row by row and keeps the survivors' order |
| AuthService.AuthService.constructor | backend/src/services/auth.rs:21-23 | a new service starts with no users and no refresh tokens |
| AuthService.AuthService.Register | backend/src/services/auth.rs:41-71 | a hash failure, another INSERT failure (returned as is) or an existing e-mail or username leaves the table unchanged; otherwise exactly one pending, unverified row with zero attempts is added and returned |
| AuthService.LoginResult | backend/src/services/auth.rs:73-124 | a failed row query is returned first; login succeeds iff the row exists, the password verifies, the account is verified and active, the token encodes and the refresh-token insert succeeds; the access token is the encoding of the user's claims and the refresh token decodes to the random bytes; each failure returns its own error in the source's order |
| AuthService.AuthService.Login | backend/src/services/auth.rs:73-124 | the result is `LoginResult` of the table; exactly one refresh-token row (user id, token, expiry 2 days on) is added on success and none on failure; users never change |
| AuthService.AuthService.CompleteVerification | backend/src/services/auth.rs:143-145 | a known account becomes verified and active and only that row changes; an unknown one gives RowNotFound |
| AuthService.AuthService.CleanupExpiredRefreshTokens | backend/src/services/auth.rs:136-141 | the refresh tokens become the unexpired ones, and the returned count is the number deleted |
| AuthService.AccountLifecycle | backend/src/services/auth.rs:41-124 | a fresh registration cannot log in ("Email not verified") until verified, and then logs in with a token for its own claims |
| OtpMail.GenerateOtp | backend/src/services/email.rs:167-172 | the code is six ASCII digits, the i-th being the i-th draw |
| OtpMail.GenerateOtpBijective | backend/src/services/email.rs:167-172 | draws and six-digit codes correspond one to one |
| OtpMail.OtpKey | backend/src/services/email.rs:44 | the corrected cache key: "otp:" followed by the whole address |
| OtpMail.OtpKeyInjective | backend/src/services/email.rs:44 | with the corrected key, different addresses never share a key |
| OtpMail.PathPart | backend/src/services/email.rs:44 | the part of an unescaped path the server receives: the longest prefix without '?' or '#' |
| OtpMail.UnescapedKeysCollide | backend/src/services/email.rs:44-129 | as written, the accepted addresses "a#1@host" and "a#2@host" reach the same cache key "otp:a" |
| OtpMail.FragmentAddress | backend/src/services/email.rs:44 | every address "a#" + digit + "@host" is accepted by the e-mail pattern and its key as written is "otp:a" |
| OtpMail.OtpMessage | backend/src/services/email.rs:57-121 | the mail goes to the address, as an HTML page with the code (services/email.rs) or as plain text (auth/email.rs) |
| OtpMail.CodeOfOtpMessage | backend/src/auth/email.rs:55-63 | in both layouts the code can be read back from the mail |
| OtpMail.EmailService.constructor | backend/src/services/email.rs:20-37 | a new service starts with an empty cache and no mail |
| OtpMail.EmailService.SendOtp | backend/src/services/email.rs:39-125 | a stored code replaces the entry for the address with a 300-second entry; an unreachable cache stops before mailing; a mail is appended iff the cache was reached and the transport delivered it; a failure is the first failing step, and leaves the outbox unchanged |
| OtpMail.EmailService.VerifyOtp | backend/src/services/email.rs:127-165 | true iff the lookup succeeds and the stored value equals the code |
| OtpMail.SendThenVerify | backend/src/services/email.rs:39-165 | after a stored send, a guess verifies iff it is the sent code, and other addresses' answers are unchanged |
| OtpMail.ResendReplacesCode | backend/src/services/email.rs:44-54 | after a second send the first code still verifies only if both draws were equal |
| Api.Success | backend/src/api/mod.rs:40-48 | a successful envelope with the data, no message and no pagination |
| Api.SuccessWithMessage | backend/src/api/mod.rs:50-58 | as `success`, with the message |
| Api.WithPagination | backend/src/api/mod.rs:60-63 | only the pagination changes |
| Api.ResponseKeys | backend/src/api/mod.rs:9-20 | "pagination" is serialized iff present; the four other keys always are |
| Api.NewError | backend/src/api/mod.rs:67-74 | an unsuccessful envelope with the message and an empty code |
| Api.WithCode | backend/src/api/mod.rs:76-79 | only the code changes |
| Api.ErrorResponseStatus | backend/src/api/mod.rs:82-86 | an error envelope used directly as a response is a 500 |
| Api.WithCodeLastWins | backend/src/api/mod.rs:67-79 | the last code set wins, and `new` plus `with_code` rebuilds any error envelope |
| Api.ErrorReply | backend/src/api/mod.rs:67-79 | a coded error reply with the given status, message and code |
| Api.HeaderToStr | backend/src/handlers/auth.rs:420-443 | a header converts iff every byte is visible ASCII or tab, and the text is those bytes |
| Api.HeaderToStrAsciiBytes | backend/src/handlers/auth.rs:420-443 | a string of header characters survives the trip to bytes and back |
| ApiErrors.Display | backend/src/error.rs:8-17 | each variant's display text, e.g. "Bad request: …" |
| ApiErrors.IntoResponse | backend/src/error.rs:19-31 | each variant gets its own status (404, 500, 400, 401) |
| ApiErrors.ResponseBodyAgreesWithDisplay | backend/src/error.rs:8-31 | the body is the display text, except that a bad request sends only its detail; the response determines the error |
| Logging.AsMillis | backend/src/logging.rs:121-134 | whole milliseconds, rounded down |
| Logging.LevelFor | backend/src/logging.rs:77-83 | error iff status >= 500, warn iff 400..499, info iff below 400 |
| Logging.LevelForIsNeverDebug | backend/src/logging.rs:77-83 | the debug fallback is never reached, and the level is monotone in the status |
| Logging.LogRequest | backend/src/logging.rs:70-106 | a "Request completed" record at that level with id, method, path, status and duration |
| Logging.LogError | backend/src/logging.rs:111-119 | an error-level "Error occurred" record with error and context |
| Logging.LogQuery | backend/src/logging.rs:121-134 | warn "Slow query detected" iff strictly over 100 ms, otherwise debug "Query executed" |
| Logging.SlowQueryBoundary | backend/src/logging.rs:121-134 | 100 ms exactly is not slow, while one nanosecond more is, and both show 100 ms |
| Logging.Hex | backend/src/logging.rs:64-67 | lower-case hexadecimal without leading zeros |
| Logging.ParseHexOfHex | backend/src/logging.rs:64-67 | the hexadecimal rendering reads back to the number |
| Logging.RequestId | backend/src/logging.rs:64-67 | "req-" followed by 1 to 16 lower-case hex digits of the draw |
| Logging.RequestIdInjective | backend/src/logging.rs:64-67 | the id reads back to the draw, so distinct draws give distinct ids |
| BearerGuard.AuthUserFrom | backend/src/middleware/auth.rs:24-32 | the identity is the claims' subject, e-mail and username |
| BearerGuard.StripPrefix | backend/src/middleware/auth.rs:40-45 | succeeds iff the prefix is present, and prefix + rest is the input |
| BearerGuard.TrimStartMatches | backend/src/auth/middleware/mod.rs:38 | removes a suffix-preserving run of the pattern so that the rest does not start with it |
| BearerGuard.TokenParsersAgree | backend/src/auth/middleware.rs:48-58 | slicing after `starts_with` equals `strip_prefix`, and all three parsers accept the same headers |
| BearerGuard.TrimmingParserAgreesOnPlainTokens | backend/src/auth/middleware/mod.rs:34-38 | on a token that neither repeats the prefix nor has outer white space, the trimming parser yields the same token |
| BearerGuard.RepeatedPrefixExample | backend/src/auth/middleware/mod.rs:38 | "Bearer Bearer x" is read as "Bearer x" by one parser and as "x" by the other |
| BearerGuard.GuardWithUser | backend/src/middleware/auth.rs:34-68 | passes iff the header yields a token that decodes, with the decoded identity; otherwise 401 with a message |
| BearerGuard.GuardWithUserLegacy | backend/src/auth/middleware.rs:42-82 | the same decisions, with the older codes on refusal |
| BearerGuard.GuardWithClaims | backend/src/auth/middleware/mod.rs:22-47 | passes iff the trimmed token decodes, with its claims; every refusal is a bare 401 |
| BearerGuard.UserGuardsAgree | backend/src/auth/middleware.rs:42-82 | the two user guards pass the same requests with the same identity, and both refuse with 401 |
| BearerGuard.IssuedTokenAuthenticates | backend/src/services/auth.rs:147-166 | a token from `create_token`, sent as "Bearer <token>", passes the guard as the user it was issued for |
| BearerGuard.Request.constructor | backend/src/middleware/auth.rs:34-40 | a request starts with its header and no identity |
| BearerGuard.Authenticate | backend/src/middleware/auth.rs:34-68 | on pass the identity is stored in the request, and on refusal nothing changes |
| BearerGuard.AuthenticateLegacy | backend/src/auth/middleware.rs:42-82 | as above, for the older middleware |
| BearerGuard.AuthenticateClaims | backend/src/auth/middleware/mod.rs:22-47 | on pass the claims are stored, and on refusal nothing changes |
| AuthHandlers.CodeReply | backend/src/handlers/auth.rs:208-222 | an unsuccessful envelope carrying the code in `data` |
| AuthHandlers.DataReply | backend/src/handlers/auth.rs:78-89 | a successful envelope with data and message |
| AuthHandlers.UserJsonAsWritten | backend/src/handlers/auth.rs:138-145 | the derived serialization of a user includes "password_hash" |
| AuthHandlers.PublicUserJson | backend/src/handlers/auth.rs:138-145 | the corrected user object has id, e-mail, username and status but no "password_hash" |
| AuthHandlers.LoginReplyExposesPasswordHash | backend/src/handlers/auth.rs:134-151 | as written, the login reply carries the stored bcrypt hash |
| AuthHandlers.LoginReplyHidesPasswordHash | backend/src/handlers/auth.rs:134-151 | the corrected reply has the same tokens and every user field except the hash |
| AuthHandlers.LoginReply | backend/src/handlers/auth.rs:134-151 | 200 "Login successful" with the corrected, hash-free payload iff the service succeeded; otherwise 401 LOGIN_ERROR with "Login failed: " and the error text |
| AuthHandlers.Register | backend/src/handlers/auth.rs:20-131 | 422 on validation, 500 on a lookup fault, 409 for an existing non-pending user, 200 and a resend job for a pending one, 201 and a register job for a new one |
| AuthHandlers.RunJob | backend/src/handlers/auth.rs:62-108 | a resend job calls `initiate_otp_process` and changes no row; a register job initiates the OTP iff its insert added a row, and then the table is the old one plus exactly the new pending row |
| AuthHandlers.Login | backend/src/handlers/auth.rs:134-151 | the reply is `LoginReply` of the service's `LoginResult` and the refresh-token rows grow by that result's row; 200 exactly when one refresh token is added, 401 otherwise |
| AuthHandlers.VerifyEmail | backend/src/handlers/auth.rs:155-205 | 400 on validation or a wrong code, with no change; a right code for a known account makes exactly that row verified and active, stamped with `now`, and for an unknown one gives 500 |
| AuthHandlers.ResendOtp | backend/src/handlers/auth.rs:208-304 | 422, 500, 404 and 400 in the source's order; the OTP is initiated iff the account exists and is pending, and its outcome decides 200 or 500 |
| AuthHandlers.ResetOtpAttempts | backend/src/handlers/auth.rs:307-392 | any existing account has its attempts reset with an empty secret; the reply reports username and status |
| AuthHandlers.AdminResetOtpAttempts | backend/src/handlers/auth.rs:402-470 | 422 on the e-mail, 401 MISSING_TOKEN or INVALID_TOKEN on the header; otherwise the token text is forwarded and the reset outcome decides 200 |
| AuthHandlers.AdminTokenForwardedVerbatim | backend/src/handlers/auth.rs:420-460 | an admin token of header characters reaches the reset as exactly that text |
| LegacyRoutes.Done | backend/src/auth/routes.rs:143-148 | a 200 success envelope with the message and no data |
| LegacyRoutes.RegisterRejection | backend/src/auth/routes.rs:100-132 | no rejection iff all checks pass; otherwise the first failing check, in order: validation, e-mail pattern, password, existence |
| LegacyRoutes.RegisterFirstFailureWins | backend/src/auth/routes.rs:105-122 | an earlier failure decides the reply whatever the later checks say |
| LegacyRoutes.Register | backend/src/auth/routes.rs:100-155 | the account is inserted iff admitted and created; the OTP is sent only after a successful insert; then the cache holds the new code iff the cache stored it, a 200 appends the OTP mail to the outbox, and a failed send is 500 EMAIL_SEND_ERROR "Failed to send verification email: " with the first failing step and an unchanged outbox |
| LegacyRoutes.VerifyEmail | backend/src/auth/routes.rs:211-248 | 400 on validation, 401 on a wrong code, then 200, 404 or 500 by the update's outcome, which is reached iff the code matches |
| LegacyRoutes.VerifiedCodesAreSixDigits | backend/src/auth/routes.rs:211-230 | only six ASCII digits that equal the stored code reach the update |
| LegacyRoutes.ResendOtp | backend/src/auth/routes.rs:298-355 | a send is attempted iff the address is valid, known and unverified; otherwise the cache and outbox are unchanged; an attempted send stores the new code iff the cache accepted it, a 200 appends the OTP mail, and a failure is 500 EMAIL_SEND_ERROR "Failed to resend verification code: " with the first failing step and an unchanged outbox |
| LegacyRoutes.LoginErrorReplyAsWritten | backend/src/auth/routes.rs:444-462 | the as-written mapping from the error's display text to 401, 403 or 400 |
| LegacyRoutes.LowerCaseTextIsGeneric | backend/src/auth/routes.rs:444-462 | a text starting with a lower-case letter always gets the generic 400 |
| LegacyRoutes.LoginMappingNeverMatchesServiceErrors | backend/src/auth/routes.rs:444-462 | unverified and inactive accounts get the same 400 as a wrong password |
| LegacyRoutes.LoginErrorReply | backend/src/auth/routes.rs:444-462 | the corrected mapping: 401 EMAIL_NOT_VERIFIED, 403 ACCOUNT_INACTIVE, 400 otherwise |
| LegacyRoutes.LoginStatusesFollowAccountState | backend/src/auth/routes.rs:444-462 | through the corrected mapping, an unverified account gets 401 and an inactive one 403 |
| LegacyRoutes.Login | backend/src/auth/routes.rs:425-462 | 400 on validation, otherwise 200 with the payload or the corrected error reply |
| Lists.Filter | my-link-uploader/src/components/LinksList.tsx:34-38 | keeps exactly the elements satisfying the predicate |
| Lists.FilterIsSubsequence | my-link-uploader/src/components/LinksList.tsx:34-38 | the kept elements appear in their original order |
| Lists.FilterAll | my-link-uploader/src/pages/ViewLinks.tsx:50-57 | a filter that keeps everything returns the list unchanged |
| Lists.FilterCounts | my-link-uploader/src/components/LinksList.tsx:34-38 | each kept element keeps its multiplicity |
| Lists.FilterFilter | my-link-uploader/src/pages/ViewLinks.tsx:50-57 | filtering twice equals filtering once by the conjunction |
| Lists.Flip | my-link-uploader/src/components/LinksList.tsx:53-60 | flipping changes the direction |
| Lists.SortBy | my-link-uploader/src/pages/ViewLinks.tsx:60-70 | the result is sorted by the key in the direction and is a permutation of the input |
| Lists.SortByIsStable | my-link-uploader/src/pages/ViewLinks.tsx:60-70 | elements with equal keys keep their relative order |
| Lists.SortedPermutationUnique | my-link-uploader/src/components/LinksList.tsx:40-46 | with distinct keys, two sorted permutations are equal |
| Lists.JsSlice | my-link-uploader/src/components/LinksList.tsx:51 | `slice` with in-range bounds is the subsequence, and never longer than the list |
| Lists.PageCount | my-link-uploader/src/components/LinksList.tsx:49 | `Math.ceil(n / size)`: the least page count covering n items |
| Lists.Page | my-link-uploader/src/pages/ViewLinks.tsx:77-80 | a page holds at most `size` items |
| Lists.PageContents | my-link-uploader/src/pages/ViewLinks.tsx:77-80 | pages 1..count hold the items at their offset, and later pages are empty |
| LinkLists.MatchesEmpty | my-link-uploader/src/components/LinksList.tsx:35-36 | an empty filter matches every field |
| LinkLists.FilterLinks | my-link-uploader/src/components/LinksList.tsx:34-38 | a link is kept iff its topic and uploader contain the filters, ignoring ASCII case; empty filters keep the list |
| LinkLists.FilterLinksSubsequence | my-link-uploader/src/components/LinksList.tsx:34-38 | filtered links keep their order and multiplicities |
| LinkLists.SortAfterClick | my-link-uploader/src/components/LinksList.tsx:53-60 | the same column flips the direction, and a new column sorts ascending |
| LinkLists.SortClickTwice | my-link-uploader/src/components/LinksList.tsx:53-60 | clicking a column twice restores the direction |
| LinkLists.ShowingRange | my-link-uploader/src/components/LinksList.tsx:138 | the "Showing a to b" figures for a page |
| LinkLists.NextPageAsWrittenReachesPageZero | my-link-uploader/src/components/LinksList.tsx:49-153 | with no matching rows, the enabled Next button moves to page 0, which shows "-9 to 0" |
| LinkLists.NextPage | my-link-uploader/src/components/LinksList.tsx:152-153 | the corrected Next never goes below page 1, advances by one below the last page, and never passes it |
| LinkLists.PreviousPage | my-link-uploader/src/components/LinksList.tsx:142-143 | Previous never goes below page 1 |
| LinkLists.PageButtonsStayInRange | my-link-uploader/src/components/LinksList.tsx:142-153 | from a page in 1..max(1, total), both buttons stay in that range; with no pages the corrected Next stays on page 1 where the written one gives page 0 |
| LinkLists.LinksList.constructor | my-link-uploader/src/components/LinksList.tsx:27-31 | page 1, sorted by upload date descending, no filters |
| LinkLists.LinksList.HandleSort | my-link-uploader/src/components/LinksList.tsx:53-60 | the sort state becomes `SortAfterClick` of the old one, and nothing else changes |
| LinkLists.LinksList.SetFilterTopic | my-link-uploader/src/components/LinksList.tsx:70 | only the topic filter changes |
| LinkLists.LinksList.SetFilterUploader | my-link-uploader/src/components/LinksList.tsx:77 | only the uploader filter changes |
| LinkLists.LinksList.Previous | my-link-uploader/src/components/LinksList.tsx:142 | the page becomes `PreviousPage` of the old one |
| LinkLists.LinksList.Next | my-link-uploader/src/components/LinksList.tsx:152 | the page becomes the corrected `NextPage` of the old one |
| LinkLists.LinksListShowsSortedMatches | my-link-uploader/src/components/LinksList.tsx:34-51 | the shown rows are at most 10 matching links, and the sorted list is a sorted permutation of the matches |
| LinkLists.LinksListOrderFixedByDistinctKeys | my-link-uploader/src/components/LinksList.tsx:40-46 | with distinct column values, the row order is the only sorted one |
| LinkLists.SortAfterChange | my-link-uploader/src/pages/ViewLinks.tsx:88-95 | the same option flips the direction, and a new option sorts descending |
| LinkLists.ArrangedIsSortedPermutation | my-link-uploader/src/pages/ViewLinks.tsx:46-74 | the arranged list is a stable, sorted permutation of the filtered links |
| LinkLists.ViewLinks.constructor | my-link-uploader/src/pages/ViewLinks.tsx:11-24 | the initial state |
| LinkLists.ViewLinks.ApplyFiltersAndSort | my-link-uploader/src/pages/ViewLinks.tsx:46-74 | the filtered list becomes `Arranged` of the links and the page resets to 1 |
| LinkLists.ViewLinks.Loaded | my-link-uploader/src/pages/ViewLinks.tsx:27-43 | the fetched links are stored and arranged |
| LinkLists.ViewLinks.HandleSortChange | my-link-uploader/src/pages/ViewLinks.tsx:88-95 | the sort state becomes `SortAfterChange` and the list is rearranged |
| LinkLists.ViewLinks.HandleFilterChange | my-link-uploader/src/pages/ViewLinks.tsx:97-103 | the named filter is set, and the list is rearranged iff the value changed |
| LinkLists.ViewLinks.HandlePageChange | my-link-uploader/src/pages/ViewLinks.tsx:83-85 | only the page changes |
| LinkLists.AdminFilter | my-link-uploader/src/components/AdminDashboard.tsx:92-113 | a link is shown iff it matches the search (or the search is empty) and the tab |
| LinkLists.DashboardSearch | my-link-uploader/src/pages/dashboard/DashboardPage.tsx:47-64 | an empty query shows every link; otherwise a link is shown iff its title or description contains the query |
| LinkLists.DashboardSearchKeepsMatches | my-link-uploader/src/pages/dashboard/DashboardPage.tsx:51-57 | the search result is an order-preserving sublist |
| DateUtils.FormatDate | my-link-uploader/src/utils/dateUtils.ts:1-15 | "Invalid date" iff parsing fails, otherwise the formatter's text |
| DateUtils.BucketByDirectDivision | my-link-uploader/src/utils/dateUtils.ts:26-45 | the nested floors equal direct division by 60, 3600 and 86400, so the bucket boundaries are 1 minute, 1 hour, 1 day and 1 week |
| DateUtils.Ago | my-link-uploader/src/utils/dateUtils.ts:34-44 | the unit takes an "s" iff the count is not 1 |
| DateUtils.AgoSingularIff | my-link-uploader/src/utils/dateUtils.ts:34-44 | the singular form is used iff the count is 1 |
| DateUtils.RelativeTime | my-link-uploader/src/utils/dateUtils.ts:17-49 | "Invalid date" iff parsing fails, otherwise the description of its bucket |
| DateUtils.RelativeTimeBuckets | my-link-uploader/src/utils/dateUtils.ts:26-48 | which phrase appears, stated by whole seconds elapsed |
| UploadForms.With | my-link-uploader/src/components/UploadForm.tsx:70-78 | only the named field changes |
| UploadForms.Clear | my-link-uploader/src/components/UploadForm.tsx:70-78 | only the named error is cleared |
| UploadForms.FormErrorsOf | my-link-uploader/src/components/UploadForm.tsx:46-67 | each field's message: link required or malformed, topic required, description required or under 10 UTF-16 units |
| UploadForms.FormValidIff | my-link-uploader/src/components/UploadForm.tsx:46-67 | the form is valid iff the link is an http(s) URL, the topic is non-empty and the description has at least 10 units |
| UploadForms.UploadForm.constructor | my-link-uploader/src/components/UploadForm.tsx:23-31 | an empty form with no errors |
| UploadForms.UploadForm.Validate | my-link-uploader/src/components/UploadForm.tsx:46-67 | the errors become `FormErrorsOf(data)`, and the result is true iff there are none |
| UploadForms.UploadForm.HandleChange | my-link-uploader/src/components/UploadForm.tsx:70-78 | the field is set and its error cleared |
| UploadForms.UploadForm.HandleSubmit | my-link-uploader/src/components/UploadForm.tsx:81-117 | an invalid form posts nothing; a valid one is posted, and only a successful answer resets the form and sets the message |
| UploadForms.PageErrorsOf | my-link-uploader/src/pages/dashboard/UploadPage.tsx:73-94 | blank title or description, missing or malformed URL, and a description under 10 units |
| UploadForms.CollectPageErrors | my-link-uploader/src/pages/dashboard/UploadPage.tsx:73-94 | the step-by-step checks compute `PageErrorsOf` |
| UploadForms.PageValidIff | my-link-uploader/src/pages/dashboard/UploadPage.tsx:73-94 | the page is valid iff the URL is http(s), the title is not blank, and the description is not blank and has at least 10 units |
| UploadForms.PageStricterThanForm | my-link-uploader/src/pages/dashboard/UploadPage.tsx:73-94 | whatever the page accepts, the dialog form accepts too |
| UploadForms.SubmitFailureMessage | my-link-uploader/src/pages/dashboard/UploadPage.tsx:125-139 | a thrown error's message, the session message for a foreign-key failure, or the generic text |
| UploadForms.UploadPage.constructor | my-link-uploader/src/pages/dashboard/UploadPage.tsx:40-49 | an empty form with the given storage |
| UploadForms.UploadPage.RedirectIfSignedOut | my-link-uploader/src/pages/dashboard/UploadPage.tsx:33-38 | a signed-out visitor, or one without a stored token, is sent to /login; nothing else changes |
| UploadForms.UploadPage.HandleDrop | my-link-uploader/src/pages/dashboard/UploadPage.tsx:63-71 | dropped text starting with http:// or https:// becomes the URL, and anything else is ignored |
| UploadForms.UploadPage.Validate | my-link-uploader/src/pages/dashboard/UploadPage.tsx:73-94 | the errors become `PageErrorsOf(data)`, and the result is true iff there are none |
| UploadForms.UploadPage.Post | my-link-uploader/src/pages/dashboard/UploadPage.tsx:120-139 | success resets the form; a foreign-key failure clears the session and goes to /login |
| UploadForms.UploadPage.SubmitSignedIn | my-link-uploader/src/pages/dashboard/UploadPage.tsx:106-142 | a valid form is posted iff a token is stored; without one the error says the session is missing; an invalid form leaves `isSubmitting` as it was |
| UploadForms.UploadPage.HandleSubmit | my-link-uploader/src/pages/dashboard/UploadPage.tsx:96-143 | signed out means go to /login and post nothing; signed in means validate, then post with a token; when nothing is posted for being signed out or invalid, `isSubmitting` is unchanged |
| AuthPages.FailureText | my-link-uploader/src/pages/auth/RegisterPage.tsx:44-46 | a thrown error shows its message, anything else the fallback |
| AuthPages.ScanPasswordMeaning | my-link-uploader/src/pages/auth/RegisterPage.tsx:25-30 | the one-pass scan finds each character class iff the password has such a character |
| AuthPages.PasswordPatternIff | my-link-uploader/src/pages/auth/RegisterPage.tsx:25-30 | the regular expression holds iff the password has 8+ allowed characters with a lower, an upper, a digit and a special one |
| AuthPages.RegisterPage.constructor | my-link-uploader/src/pages/auth/RegisterPage.tsx:9-17 | empty fields, no error, not loading |
| AuthPages.RegisterPage.HandleSubmit | my-link-uploader/src/pages/auth/RegisterPage.tsx:19-49 | the complexity message first, then the mismatch message, otherwise one register call; success goes to /verify-email; loading always ends |
| AuthPages.PageOtpInput | my-link-uploader/src/pages/auth/VerifyEmailPage.tsx:74-79 | the digits typed are taken if there are at most 6, otherwise the old code stays |
| AuthPages.FormOtpInput | my-link-uploader/src/components/auth/VerifyEmailForm.tsx:136 | the first 6 digits typed |
| AuthPages.OtpInputsCompared | my-link-uploader/src/pages/auth/VerifyEmailPage.tsx:74-79 | the two inputs agree up to 6 digits; beyond that the page keeps the old code and the form truncates |
| AuthPages.SixDigitsPassThrough | my-link-uploader/src/components/auth/VerifyEmailForm.tsx:136 | a six-digit code is accepted unchanged by both inputs |
| AuthPages.PageTick | my-link-uploader/src/pages/auth/VerifyEmailPage.tsx:30-37 | a running countdown decreases by one, and reaching 0 enables resending |
| AuthPages.PageTickKeepsValid | my-link-uploader/src/pages/auth/VerifyEmailPage.tsx:30-37 | the countdown stays within 0..30 and is disabled while positive |
| AuthPages.PageCountsDown | my-link-uploader/src/pages/auth/VerifyEmailPage.tsx:30-37 | after k ticks from c the countdown shows c - k, and at c it is 0 and enabled |
| AuthPages.VerifyEmailPage.constructor | my-link-uploader/src/pages/auth/VerifyEmailPage.tsx:10-14 | an empty code and a 30-second disabled countdown |
| AuthPages.VerifyEmailPage.RedirectWithoutEmail | my-link-uploader/src/pages/auth/VerifyEmailPage.tsx:18-27 | without a pending e-mail the page navigates to /register; nothing else changes |
| AuthPages.VerifyEmailPage.HandleOtpChange | my-link-uploader/src/pages/auth/VerifyEmailPage.tsx:74-79 | the code becomes `PageOtpInput` of the old code and the typed text |
| AuthPages.VerifyEmailPage.Tick | my-link-uploader/src/pages/auth/VerifyEmailPage.tsx:30-37 | the timer becomes `PageTick` of the old one |
| AuthPages.VerifyEmailPage.HandleSubmit | my-link-uploader/src/pages/auth/VerifyEmailPage.tsx:39-57 | one verify call with the pending e-mail and code; success goes to /login, failure shows the message |
| AuthPages.VerifyEmailPage.HandleResendOtp | my-link-uploader/src/pages/auth/VerifyEmailPage.tsx:59-72 | one resend call; success restarts the 30-second countdown, failure shows the message |
| AuthPages.FormTick | my-link-uploader/src/components/auth/VerifyEmailForm.tsx:27-37 | a positive countdown decreases by one, and otherwise it stays |
| AuthPages.FormCountsDown | my-link-uploader/src/components/auth/VerifyEmailForm.tsx:27-37 | after k ticks from c the countdown is max(c - k, 0) |
| AuthPages.VerifyEmailForm.constructor | my-link-uploader/src/components/auth/VerifyEmailForm.tsx:9-13 | an empty code and countdown 0 |
| AuthPages.VerifyEmailForm.RedirectWithoutEmail | my-link-uploader/src/components/auth/VerifyEmailForm.tsx:17-26 | without a pending e-mail the form navigates to /register; nothing else changes |
| AuthPages.VerifyEmailForm.HandleOtpChange | my-link-uploader/src/components/auth/VerifyEmailForm.tsx:136 | the code becomes `FormOtpInput` of the typed text |
| AuthPages.VerifyEmailForm.Tick | my-link-uploader/src/components/auth/VerifyEmailForm.tsx:27-37 | the countdown becomes `FormTick` of the old one |
| AuthPages.VerifyEmailForm.HandleSubmit | my-link-uploader/src/components/auth/VerifyEmailForm.tsx:39-59 | one verify call; success removes the pending e-mail and goes to /login, failure shows the message |
| AuthPages.VerifyEmailForm.HandleResendOtp | my-link-uploader/src/components/auth/VerifyEmailForm.tsx:61-74 | nothing while the countdown runs; otherwise one resend call, with success setting the countdown to 30 |

## Left out

- `check_user_exists`, `is_user_verified` and `complete_registration` of `database/queries.rs` are not part of this model. The handlers take their outcomes as parameters. `complete_verification`'s effect is modelled as setting the account verified and active, or RowNotFound.
- `crate::auth::service` (used by `auth/routes.rs`) is not part of this model. The legacy routes take the account service's outcome as a parameter and assume it reports errors like `services/auth.rs`.
- `initiate_otp_process` and `admin_reset_attempts` are not part of this model. Handlers record the call and take its outcome as a parameter.
- bcrypt, JWT signing and decoding, zxcvbn, the validator crate's e-mail check, `Url::parse`, and the random sources are parameters. Their internals are not modelled.
- The Upstash entry's 300-second expiry is stored with the entry but not enforced: time does not pass inside the cache model.
- The validator crate's rendering of field errors is a parameter (`render`).
- The background `tokio::spawn` and the 2-second sleep in `register`: the handler returns the job, and `RunJob` runs it separately. Interleavings with other requests are not modelled.
- `init_logging`, the `EnvFilter` set-up and the tracing subscriber: only the records' level, message and fields are modelled.
- Lower-casing is ASCII only. Unicode case mapping is not modelled.
- `localeCompare`, string `<` and `Date` parsing are rank or parse functions supplied by the caller.
- LinkLists.LinksList: its comparator returns -1 for equal keys, which is not a consistent order. The model uses a stable sort, so for equal keys the row order is only as the model states. With distinct keys the order is fully determined (`LinksListOrderFixedByDistinctKeys`).
- DashboardPage's 300 ms debounce timer: the search is modelled as applied once the timer fires.
- AuthPages.VerifyEmailPage.HandleSubmit, AuthPages.VerifyEmailPage.HandleResendOtp, AuthPages.VerifyEmailForm.HandleSubmit, AuthPages.VerifyEmailForm.HandleResendOtp: these require a pending e-mail. The source reads it with a non-null assertion, and without one the page redirects to /register (`RedirectWithoutEmail`) or renders nothing.
- Rendering, animation, alerts, drag highlighting, modals and navigation side effects other than the recorded path.
- A `createdAt` that is NaN is not modelled. Timestamps are integers.
- The "seconds ago" phrase is never singular, as in the source (`dateUtils.ts:29`).
- `services/link_preview.rs`, the `routes/` files and `services/api.ts` are not part of this model (outside the authentication, validation and list core).
- AuthHandlers.LoginReply: the reply carries the corrected payload, without `password_hash`. The source sends the whole `User`, hash included; that payload is `AuthResponseJsonAsWritten` (see Findings).
- AuthHandlers.Login: its reply is `LoginReply`, so it sends the corrected payload too.
- LegacyRoutes.Login: failures go through the corrected `LoginErrorReply` on the error value. The source compares the error's display text (`LoginErrorReplyAsWritten`), which under the assumption above never matches, so every failure there is 400 "Invalid credentials" (see Findings).
- AuthHandlers.PublicUserFields and AuthHandlers.PendingUserJson: the user's UUID `id` (and, in the former, its timestamps) are written as JSON numbers. serde writes them as strings (a hyphenated UUID and RFC 3339 dates); only the field names and the other values follow the source.
- OtpKeyInjective: it holds of the corrected key only. The source pastes the address into the cache's URL unescaped, so addresses with '?' or '#' in the local part share a key as written (`OtpKeyAsWritten`, see Findings). Percent-decoding of '%' escapes by the cache's server is not modelled either.
- OtpMail.OtpKey: the cache model is keyed by the corrected key, so the collisions of the written key are not reproduced in `SendOtp` and `VerifyOtp`.
- LinkLists.LinksList.Next: the class uses the corrected `NextPage`. The as-written behaviour is kept separately as `NextPageAsWritten` (see Findings).

## Findings

| source | as written | input that shows it | evidently intended | confidence | as-written member | corrected member |
|---|---|---|---|---|---|---|
| backend/src/handlers/auth.rs:134-151 | the login reply serializes the whole `User`, whose derived `Serialize` includes `password_hash` | any successful login | the reply omits the password hash | high, not executed | AuthHandlers.LoginReplyExposesPasswordHash | AuthHandlers.LoginReplyHidesPasswordHash |
| backend/src/auth/routes.rs:444-462 | the error arm matches the display text against "Email not verified" and "Account is not active", but sqlx prefixes protocol errors with "encountered unexpected or invalid data: " | login with the right password to an unverified account gets 400 "Invalid credentials" | 401 EMAIL_NOT_VERIFIED and 403 ACCOUNT_INACTIVE | low (the account service it calls is not part of this model), not executed | LegacyRoutes.LoginMappingNeverMatchesServiceErrors | LegacyRoutes.LoginStatusesFollowAccountState |
| backend/src/services/email.rs:44-129 | the address is pasted into the cache's set and get URLs without escaping, so a '?' or '#' in the local part (allowed by the e-mail pattern) cuts the key short | "a#1@host" and "a#2@host" both use the key "otp:a" | each address has its own key | medium (depends on the cache server's URL handling), not executed | OtpMail.UnescapedKeysCollide | OtpMail.OtpKeyInjective |
| my-link-uploader/src/components/LinksList.tsx:49-153 | with no matching links `totalPages` is 0, so Next (enabled since 1 != 0) sets the page to min(0, 2) = 0 | a topic filter that matches nothing, then Next | the page stays at 1 | high, not executed | LinkLists.NextPageAsWrittenReachesPageZero | LinkLists.PageButtonsStayInRange |
