# devmun-shop-server authentication core in Dafny

This project models the authentication core of the devmun shop server, an
Express/Mongoose/Redis back end. It covers:

- **Sign-up.** The address is normalised and checked against existing
  accounts. A six-digit one-time code is drawn and sealed, together with the
  pending account data, in an encrypted envelope. The envelope goes inside a
  JWT that expires after ten minutes, and the code is mailed to the user.
- **E-mail verification.** The token is verified and the envelope decrypted.
  The code is compared in constant time. The account is then created, and a
  bcrypt pre-save hook hashes its password.
- **Sign-in.** The user is looked up by e-mail and bcrypt compares the
  password.
- **Access-token guard.** The signed access cookie is checked, then
  `jwt.verify`, then the request-signature check. A tampered cookie or a
  signature mismatch clears the cookies and forwards a 401. A missing cookie
  or a token that fails `jwt.verify` forwards the thrown error instead, and
  the cookies are left alone.
- **Session storage.** A Redis batch adds the HMAC of the access token to a
  session set and stores a snapshot of the user, each key with its own TTL.
  At the same time a session sub-document is pushed onto the user.
- **Cookie construction, device detection and `normalizeMail`.**
- **Request validation.** This covers the express-validator schemas of the
  auth application and the `runSchema` middleware that turns the first
  error into a 422.
- **Configuration loading.** Required variables are checked, with an exit
  when one is missing. Defaults, `ISPRODUCTION` and the database URL follow.

The cryptographic primitives are symbolic: scrypt/AES, HMAC-SHA256,
JSON Web Tokens and bcrypt. A ciphertext is a value that only the right key
opens. A JWT records its claims, its secret and its expiry. A bcrypt hash
records its cost and the text it hashes. These stand-ins let the round trips
be proved without trusting any library.

Everything the code gets from its surroundings is a parameter:

- random draws;
- library failures;
- the clock;
- whether Redis, MongoDB or the mailer succeed;
- the new document id;
- the `isEmail`/`isNumeric` validators;
- `checkTokenSignature`.

Classes stand for the objects whose state the handlers change:

- the user collection: `Users.AccountStore`;
- a user document during save: `Users.UserDocument`;
- the Redis keyspace: `SessionStore.Redis`;
- the guard's request/response pair: `Guard.Exchange`;
- the request that `signin` and `runSchema` update.

## Model

| member | source | states |
|---|---|---|
| Crypto.HexRoundTrip | libs/security/src/lib/CryptoServices.ts:36-37 | hex-encoding any byte string and decoding it gives back the bytes |
| Crypto.Cipheriv | libs/security/src/lib/CryptoServices.ts:21-45 | fails exactly when the cipher library fails, with the "Encryption failed using scrypt: " prefix before its message; otherwise the salt is 32 hex digits and the IV is twice its byte length in hex, and both decode to the drawn bytes |
| Crypto.Decipheriv | libs/security/src/lib/CryptoServices.ts:47-65 | yields a value only when the key derived from the password and the envelope's salt is the sealing key, and then yields exactly the sealed value; every failure carries the same prefix |
| Crypto.CipherRoundTrip | libs/security/src/lib/CryptoServices.ts:21-65 | decrypting with the same password gives back the encrypted value (for JSON-stable values; see Left out) |
| Crypto.WrongPasswordFails | libs/security/src/lib/CryptoServices.ts:47-65 | decrypting with any other password fails |
| Crypto.RandomHexString | libs/security/src/lib/CryptoServices.ts:75-77 | `length` random bytes become 2·length hex digits that decode back to those bytes |
| Crypto.SafeCompare | libs/security/src/lib/CryptoServices.ts:100-105 | true exactly when the two strings are equal, the length mismatch included |
| Crypto.TimingSafeEqual | apps/auth/src/services/auth/AuthService.ts:125-128 | throws exactly when the lengths differ; otherwise true exactly when the contents are equal |
| Jwt.Sign | libs/authentication/src/lib/core/AuthEngine.ts:83-85 | fails exactly when the secret is empty; otherwise the token carries the claims and expires `expiresIn` seconds after signing |
| Jwt.Verify | libs/authentication/src/lib/AuthGuard.ts:35-37 | accepts exactly a well-formed token signed with this non-empty secret before its expiry, and returns its claims; a malformed token is reported before a missing secret |
| Jwt.SignVerifyRoundTrip | libs/authentication/src/lib/core/AuthEngine.ts:83-85 | a signed token verifies to its claims until it expires and is refused as expired afterwards |
| Jwt.OtherSecretRejected | apps/auth/src/services/auth/AuthService.ts:110-112 | a token never verifies under a different secret |
| Mail.NormalizeMail | libs/authentication/src/lib/core/AuthEngine.ts:96-104 | fails (undefined domain) exactly when there is no '@'; a result still holds an '@' |
| Mail.NormalizeGmail | libs/authentication/src/lib/core/AuthEngine.ts:96-101 | an address whose domain is gmail.com in any case becomes its local part without dots, followed by "@gmail.com"; anything after a second '@' is dropped |
| Mail.NormalizeOther | libs/authentication/src/lib/core/AuthEngine.ts:103 | any other address is lower-cased whole |
| Mail.GmailDomainAddress | apps/auth/src/services/auth/particles/AuthEngine.ts:45-53 | a local part followed by '@' and any casing of gmail.com normalises to the local part without dots followed by "@gmail.com" |
| Mail.GmailDotsIgnored | apps/auth/src/services/auth/particles/AuthEngine.ts:45-53 | two gmail addresses that differ only in dots normalise to the same address |
| Mail.DottedGmailExample | apps/auth/src/services/auth/particles/AuthEngine.ts:45-53 | a.da@gmail.com and ada@gmail.com both normalise to ada@gmail.com |
| Mail.GmailCaseKept | libs/authentication/src/lib/core/AuthEngine.ts:96-101 | the gmail branch keeps the case of the local part |
| Mail.NormalizeIdempotent | libs/authentication/src/lib/core/AuthEngine.ts:96-104 | normalising a normalised address changes nothing |
| Device.FirstSetLabelUnknown | libs/authentication/src/lib/core/AuthEngine.ts:15-47 | the chain ends in 'unknown' exactly when no flag is set |
| Device.FirstSetLabelIsFirst | libs/authentication/src/lib/core/AuthEngine.ts:15-47 | the label chosen is that of the first set flag in chain order |
| Device.DeviceType | libs/authentication/src/lib/core/AuthEngine.ts:14-47 | without a parsed user agent the type is 'unknown'; otherwise it is 'unknown' or one of the sixteen labels |
| Device.DeviceTypeUnknown | libs/authentication/src/lib/core/AuthEngine.ts:15-47 | a parsed user agent gives 'unknown' exactly when none of its sixteen flags is set |
| Device.MobileBeforeIphone | libs/authentication/src/lib/core/AuthEngine.ts:21-30 | an iPhone that also reports mobile is classified 'mobile', because that test comes first |
| Device.GetDeviceInfo | libs/authentication/src/lib/core/AuthEngine.ts:49-54 | os and browser come from the parsed agent or are 'unknown'; the user-agent header defaults to 'unknown' |
| Sessions.NewSession | libs/models/src/lib/schemas/sessionSchema.ts:20-30 | a pushed session holds the token, device, location and IP, is active, not revoked, untrusted, with risk 0, both timestamps set to now, and expiry three days later |
| Otp.RandomIntCovers | libs/authentication/src/lib/core/AuthEngine.ts:72 | every value of [min, max) can be drawn and max never is |
| Otp.Issue | libs/authentication/src/lib/core/AuthEngine.ts:68-93 | fails with the 500 "Failed to create OTP" error exactly when the cipher fails or the activation secret is empty; otherwise the code lies in [100000, 999999) |
| Otp.CreateOtp | libs/authentication/src/lib/core/AuthEngine.ts:64-94 | the same failure condition and code range for the library engine's payload |
| Otp.CreateOtpWithDevice | apps/auth/src/services/auth/particles/AuthEngine.ts:11-43 | the same failure condition and code range for the application engine's payload |
| Otp.OpenOtp | apps/auth/src/services/auth/AuthService.ts:110-123 | a token opens only if it verifies with the activation secret and decrypts, and then opens to the sealed payload |
| Otp.IssueRoundTrip | libs/authentication/src/lib/core/AuthEngine.ts:74-85 | an issued token opens to exactly the data, code, IP, browser and device packed into it until ten minutes after issue, and fails as expired afterwards |
| Otp.CreateOtpRoundTrip | libs/authentication/src/lib/core/AuthEngine.ts:74-81 | the library engine's token opens to the data, code and IP, with no browser or device |
| Otp.CreateOtpWithDeviceRoundTrip | apps/auth/src/services/auth/particles/AuthEngine.ts:21-30 | the application engine's token also carries the parsed browser and OS |
| Otp.OtherActivationSecretRejected | apps/auth/src/services/auth/AuthService.ts:110-112 | a token opened with another activation secret always fails |
| Otp.CodeIsSixDigits | libs/authentication/src/lib/core/AuthEngine.ts:69-72 | every drawn code prints as exactly six digits with no leading zero |
| Numbers.ParseDecimalRoundTrip | libs/authentication/src/lib/core/CookieService.ts:6-14 | `parseInt` of the decimal string of a non-negative integer gives back that integer |
| Cookies.AccessTtl | libs/authentication/src/lib/core/CookieService.ts:6-9 | an undefined ACCESS_TOKEN_EXPIRE would give 30 |
| Cookies.RefreshTtl | libs/authentication/src/lib/core/CookieService.ts:11-14 | an undefined REFRESH_TOKEN_EXPIRE would give 3 |
| Cookies.TtlDefaultsOnlyWhenMissing | libs/authentication/src/lib/core/CookieService.ts:6-14 | an empty value is NaN, not the default, and a decimal value is taken as written |
| Cookies.AccessCookieExp | libs/authentication/src/lib/core/CookieService.ts:17-20 | the access lifetime in minutes becomes milliseconds, and expiry is load time plus that; NaN propagates |
| Cookies.RefreshCookieExp | libs/authentication/src/lib/core/CookieService.ts:23-26 | the refresh lifetime in days becomes milliseconds, and expiry is load time plus that; NaN propagates |
| Cookies.ConfiguredTtls | libs/authentication/src/lib/core/CookieService.ts:6-14 | `config` always supplies a string for both lifetimes, so the `??` fallbacks never apply; after validation the lifetimes are parsed from the non-empty environment values |
| Cookies.DefaultLifetimes | libs/authentication/src/lib/core/CookieService.ts:16-26 | the fallbacks would give 30 minutes and 3 days, but configuration never reaches them (ConfiguredTtls) |
| Cookies.BaseOptions | libs/authentication/src/lib/core/CookieService.ts:32-38 | http-only, secure, SameSite none, path '/', with domain .devmun.xyz in production and localhost otherwise, and no expiry |
| Cookies.WithExpiry | libs/authentication/src/lib/core/CookieService.ts:67-69 | the spread sets expires and maxAge and leaves every other option as it was |
| Cookies.CreateAccessCookie | libs/authentication/src/lib/core/CookieService.ts:60-78 | named with the access cookie name and carrying the payload (default ''); it persists with the access expiry only when remember is set |
| Cookies.CreateRefreshCookie | libs/authentication/src/lib/core/CookieService.ts:80-98 | the same for the refresh cookie, with the refresh expiry; its name never equals the access cookie's, so neither cookie overwrites the other |
| Cookies.CookieService.constructor | apps/auth/src/services/auth/particles/CookieService.ts:44-49 | the service keeps the cookie configuration it is given |
| Users.ParseRole | libs/models/src/lib/useSchema.ts:31-35 | a string is a role exactly when it names one of the four roles |
| Users.RoleRoundTrip | libs/models/src/lib/useSchema.ts:31-35 | a role's name parses back to the role |
| Users.CastRole | libs/models/src/lib/useSchema.ts:31-35 | a missing role defaults to buyer; a given value is accepted exactly when it is in the enum |
| Users.FullName | libs/models/src/lib/useSchema.ts:45-47 | the virtual never starts or ends with white space |
| Users.FullNameBoth | libs/models/src/lib/useSchema.ts:45-47 | trimmed first and last names are joined by one space |
| Users.FullNameFirstOnly | libs/models/src/lib/useSchema.ts:45-47 | a missing last name leaves only the first name, without a trailing space |
| Users.FullNameLastOnly | libs/models/src/lib/useSchema.ts:45-47 | a missing first name leaves only the last name, without a leading space |
| Users.IsPasswordValid | libs/models/src/lib/useSchema.ts:64-69 | only a stored bcrypt hash can accept a password |
| Users.HashedOnSave | libs/models/src/lib/useSchema.ts:50-61 | an unmodified password is kept; a modified one becomes a cost-12 bcrypt hash |
| Users.SavedPasswordValidates | libs/models/src/lib/useSchema.ts:50-69 | after a save hashes the password, a candidate is accepted exactly when it agrees with the password on the first 72 bytes; for passwords of at most 72 bytes, exactly that password is accepted |
| Users.LongPasswordPrefixAccepted | libs/models/src/lib/useSchema.ts:50-69 | a password longer than 72 bytes is also accepted from its first 72 bytes alone |
| Users.RehashLocksOut | libs/models/src/lib/useSchema.ts:50-69 | hashing an already hashed password again rejects every plain password, the original included; saving without modification keeps the password working |
| Users.UserDocument.PreSave | libs/models/src/lib/useSchema.ts:50-61 | a hashing failure is reported and leaves the password unchanged; otherwise the password becomes HashedOnSave of the old one |
| Users.CastEmail | libs/models/src/lib/useSchema.ts:15-21 | a stored e-mail is trimmed and holds no upper-case ASCII letter |
| Users.Stored | libs/models/src/lib/useSchema.ts:15-35 | a created document keeps the id and role, has no sessions, and holds the cast addresses and the bcrypt hash of the password |
| Users.Insert | libs/models/src/lib/useSchema.ts:15-30 | creation succeeds exactly when the required fields are present, hashing succeeds, and neither unique key clashes; it appends one stored document and keeps the keys unique |
| Users.InsertTwiceRefused | libs/models/src/lib/useSchema.ts:15-29 | creating the same account twice is refused as a duplicate key |
| Users.FindIndex | apps/auth/src/services/auth/AuthService.ts:37-41 | finds the first matching document, or reports that none matches |
| Users.View | apps/auth/src/services/auth/AuthService.ts:171-174 | the returned document never exposes normalizeMail; it exposes the password exactly when it was selected |
| Users.WithSession | libs/authentication/src/lib/core/AuthEngine.ts:131-144 | the update keeps the number of documents and the uniqueness of keys |
| Users.WithSessionAppendsOne | libs/authentication/src/lib/core/AuthEngine.ts:131-144 | the document with the id gains the session at the end of its list; every other document is unchanged |
| Users.WithSessionUnknownId | libs/authentication/src/lib/core/AuthEngine.ts:131-144 | an id that matches no document changes nothing |
| Users.AccountStore.FindOne | apps/auth/src/services/auth/AuthService.ts:171-174 | finds nothing exactly when no document matches; otherwise returns the view of the first match |
| Users.AccountStore.Create | apps/auth/src/services/auth/AuthService.ts:151 | on success exactly one stored document is appended; on failure the collection is unchanged and the insert's error is returned |
| Users.AccountStore.PushSession | libs/authentication/src/lib/core/AuthEngine.ts:131-144 | the collection becomes WithSession of the old one, keeping the store invariant |
| SessionStore.KeysDisjoint | libs/authentication/src/lib/core/AuthEngine.ts:122-126 | a session-set key never equals a snapshot key, and distinct ids give distinct session keys |
| SessionStore.Sadd | libs/authentication/src/lib/core/AuthEngine.ts:123 | SADD adds the member to the set at the key and adds no key but that one |
| SessionStore.Expire | libs/authentication/src/lib/core/AuthEngine.ts:125-126 | EXPIRE on a missing key does nothing; a non-positive time deletes the key; a positive one sets its TTL; other keys are untouched |
| SessionStore.SessionBatchEffect | libs/authentication/src/lib/core/AuthEngine.ts:121-128 | with positive lifetimes the session set gains the token digest, the snapshot holds the user, and each key gets its own TTL |
| SessionStore.SessionBatchFrame | libs/authentication/src/lib/core/AuthEngine.ts:121-128 | keys other than the user's two are left as they were |
| SessionStore.NonPositiveTtlDeletes | libs/authentication/src/lib/core/AuthEngine.ts:125-126 | a lifetime of zero or less deletes the key it was meant for |
| SessionStore.Redis.ExecSessionBatch | libs/authentication/src/lib/core/AuthEngine.ts:121-128 | the keyspace becomes SessionBatch of the old one, and its values stay well typed |
| SessionStore.Engine.StoreSession | libs/authentication/src/lib/core/AuthEngine.ts:106-152 | fails with the 500 "Failed to store session" error exactly when either write fails; each store that succeeds receives its update with the HMAC of the token, and a failing store is left unchanged |
| Guard.AccessCookie | libs/authentication/src/lib/AuthGuard.ts:27 | the cookie read is the signed cookie under the access cookie name, or undefined |
| Guard.Decide | libs/authentication/src/lib/AuthGuard.ts:27-48 | the request proceeds exactly when the cookie is intact, verifies and matches the request. A tampered cookie or a signature mismatch gives the 401; a missing cookie or a failed verification forwards the library's thrown error; the guard never responds itself |
| Guard.FreshTokenAdmitted | libs/authentication/src/lib/AuthGuard.ts:35-48 | an access token signed with the access secret is admitted until it expires, provided it matches the request |
| Guard.ExpiredTokenThrown | libs/authentication/src/lib/AuthGuard.ts:35-37 | an expired token is refused with the library's thrown error, not the 401 |
| Guard.SessionUnauthorized | libs/authentication/src/lib/core/AuthEngine.ts:154-162 | clears the cookies and forwards the 401 session-expired error |
| Guard.ValidateToken | libs/authentication/src/lib/AuthGuard.ts:18-50 | the outcome is Decide's, and the cookies are cleared exactly on the guard's own 401. The user id and token are recorded exactly when the token verifies, even if the signature check then fails |
| Auth.AfterIssue | apps/auth/src/services/auth/AuthService.ts:63-96 | an OTP failure is forwarded and no mail is sent; otherwise the code is mailed to the first name and address, and the answer is 200 with the token or 500 if sending was rejected |
| Auth.AuthService.Signup | apps/auth/src/services/auth/AuthService.ts:24-98 | an address without '@' throws. The 400 "already registered" answer comes exactly when an account has the e-mail or the normalised e-mail. An address that is not registered gets the OTP issuance: an OTP failure is forwarded without mail; otherwise the code is mailed, and the answer is 200 with the token, or 500 when sending is rejected. A 200 answer carries a token that opens to the pending data, the mailed code and the IP |
| Auth.AuthServices.Signup | apps/auth/src/services/auth/AuthServices.ts:20-94 | the same, including the issuance for an unregistered address, and the token also carries the browser and OS of the parsed user agent |
| Auth.AuthService.VerifyEmail | apps/auth/src/services/auth/AuthService.ts:100-159 | errors from opening the token or comparing the codes are thrown, and a wrong code gives 400; none of these changes the collection. For the correct code, the answer is 201 exactly when the insert succeeds, and otherwise the insert's error is thrown. The collection changes exactly when the answer is 201, and then by one account built from the sealed data with the service's role |
| Auth.AuthService.Signin | apps/auth/src/services/auth/AuthService.ts:161-196 | the request proceeds exactly when the first account with the e-mail accepts the password, and then carries that account without its password and the remember flag; otherwise it is 401 and the request is untouched |
| Rules.Failures | apps/auth/src/middlewares/validations/auth/authSchema.ts:5-50 | a chain reports nothing exactly when every check passes, and otherwise reports first the message of its first failing check |
| Rules.Capitalize | apps/auth/src/middlewares/validations/auth/authSchema.ts:12-14 | the first letter is upper-cased and the rest lower-cased, with the length kept |
| Rules.NameErrors | apps/auth/src/middlewares/validations/auth/authSchema.ts:6-26 | a name passes exactly when trimmed it is 2 to 32 characters long (the capitalise callback never adds a failure of its own); a blank name reports its 'required' message first |
| Rules.EmailErrors | apps/auth/src/middlewares/validations/auth/authSchema.ts:28-33 | an address passes exactly when trimmed it is non-empty and a valid e-mail; a blank one reports 'required' first |
| Rules.PasswordErrors | apps/auth/src/middlewares/validations/auth/authSchema.ts:35-43 | a password passes exactly when it is strong: at least 8 characters, no line terminator, and an ASCII upper-case letter, lower-case letter, digit and non-alphanumeric character; an empty one reports 'required' first |
| Rules.SignupErrors | apps/auth/src/middlewares/validations/auth/authSchema.ts:5-50 | a sign-up body passes exactly when both names fit, the e-mail is valid, the password is strong and the confirmation equals it; a blank first name is reported first |
| Rules.VerifyEmailErrors | apps/auth/src/middlewares/validations/auth/authSchema.ts:53-62 | passes exactly when the code is six numeric characters and the token is non-empty; a missing code is reported first |
| Rules.IssuedCodeAccepted | apps/auth/src/middlewares/validations/auth/authSchema.ts:53-62 | every code the OTP issuer can draw passes the verification schema |
| Rules.SigninErrors | apps/auth/src/middlewares/validations/auth/authSchema.ts:65-74 | passes exactly when the e-mail is valid and the password non-empty; a blank e-mail is reported first |
| Rules.SigninRemember | apps/auth/src/middlewares/validations/auth/authSchema.ts:72-73 | remember stays absent when absent; a present value becomes false exactly when it is "", "0" or "false" in any case, so every other string, "no" and "off" included, becomes true |
| Rules.UpdatePasswordErrors | apps/auth/src/middlewares/validations/auth/authSchema.ts:81-103 | passes exactly when the current password is given and the new password is strong, differs from it and is confirmed; a missing current password is reported first |
| Rules.UpdateEmailErrors | apps/auth/src/middlewares/validations/auth/authSchema.ts:106-128 | passes exactly when the trimmed new address is valid, the confirmation repeats it, it differs from the signed-in user's address, and the password is given |
| Rules.Optional | apps/auth/src/middlewares/validations/auth/authSchema.ts:133-157 | an absent optional field reports nothing; a present one runs its whole chain |
| Rules.SettingsErrors | apps/auth/src/middlewares/validations/auth/authSchema.ts:133-157 | passes exactly when the optional region, language and currency are at most 100, 50 and 10 characters once trimmed and the currency is upper-case |
| Rules.ProfileErrors | apps/auth/src/middlewares/validations/auth/authSchema.ts:260-303 | passes exactly when optional names are at most 50 characters once trimmed, a gender is one of male, female, other, prefer-not-to-say, and at most 13 materials are listed |
| Rules.FeedbackErrors | apps/auth/src/middlewares/validations/auth/authSchema.ts:371-399 | passes exactly when the reason is not blank and an optional description is at most 500 characters once trimmed |
| Validation.Verdict | libs/middleware/src/lib/validations/runSchema.ts:15-27 | the request proceeds exactly when no error was collected; otherwise the first error is forwarded as a 422 |
| Validation.RunSchema | libs/middleware/src/lib/validations/runSchema.ts:10-28 | the outcome is Verdict's; the body is replaced by the matched data only when the request proceeds |
| Validation.BlankFirstNameReported | libs/middleware/src/lib/validations/runSchema.ts:15-22 | a sign-up body with a blank first name is answered 422 with the first-name message, whatever else is wrong |
| Validation.ValidSignupProceeds | libs/middleware/src/lib/validations/runSchema.ts:25-27 | a sign-up body meeting every rule reaches the handler |
| Validation.MissingCodeReported | libs/middleware/src/lib/validations/runSchema.ts:15-22 | a verification body without a code is answered 422 with the code message |
| Config.MissingVars | libs/config/src/lib/config.ts:58-60 | the filter keeps exactly the required names that are undefined or empty |
| Config.MissingVarsConcat | libs/config/src/lib/config.ts:58-60 | the filter keeps list order |
| Config.ExitCode | libs/config/src/lib/config.ts:62-65 | the process exits, with code 1, exactly when some required variable is unset |
| Config.Setting | libs/config/src/lib/config.ts:71-120 | a variable that is present is taken as it is, even when empty; a missing one gets its default |
| Config.Load | libs/config/src/lib/config.ts:71-125 | exposes every required variable with its setting; production exactly when NODE_ENV is "production"; otherwise the local database |
| Config.ValidatedEnvKeepsValues | libs/config/src/lib/config.ts:58-120 | once validation passes, no default is used and every value is non-empty |
| Config.DevelopmentDefaults | libs/config/src/lib/config.ts:72-73 | without NODE_ENV and PORT the service runs as development on port 8080 against the local database |
| Config.ProductionDbPassword | libs/config/src/lib/config.ts:123-125 | in production the first `<db_password>` of DATABASE_ONLINE is replaced by the password with its `$` patterns expanded, and everything around it is kept; a password without `$` is inserted as it stands |
| Text.Substitution | libs/config/src/lib/config.ts:123-125 | the text `replace` inserts for a string pattern: `$$`, `$&`, `` $` `` and `$'` are expanded, and a replacement without `$` is inserted as it stands |
| Config.PasswordPatternsExpanded | libs/config/src/lib/config.ts:123-125 | a password holding `$&` brings the placeholder back, and `$$` becomes one `$` |
| Config.ProductionDbWithoutPlaceholder | libs/config/src/lib/config.ts:123-125 | a production URL without the placeholder is used as it stands |

## Left out

- Cryptography, JWT and bcrypt are symbolic. Scrypt key derivation, AES, HMAC-SHA256, JWT encoding and bcrypt are not computed; their algebra stands in for them: the right key opens, a signature binds a secret, and a hash binds its text.
- Crypto.Hmac: the 64-hex-digit length of the digest is not modelled. `hash` (SHA-256) is unused by the core and is left out. So are the RSA helpers (`generateRSAKeyPair`, `encryptWithPublicKey`, `decryptWithPrivateKey`).
- Crypto.CipherRoundTrip: `encrypt` serialises the value with `JSON.stringify` and `decrypt` returns `JSON.parse` of it. The model returns the sealed value itself, so the round trip holds for JSON-stable values only. A `Date` or `NaN` would come back changed, and an `undefined` field would come back absent. The OTP payloads the core seals hold strings, a number and possibly undefined browser and device fields; an absent field reads back as undefined, so for them the round trip is exact.
- Users.Compare counts characters as bytes when it cuts a password at 72 bytes. For non-ASCII passwords bcryptjs cuts the UTF-8 encoding, and the model does not.
- Users.RehashLocksOut: a hash's own 60-character text would validate against the double hash. The symbolic model has no text for a hash, so the lemma covers plain passwords only.
- Crypto.TimingSafeEqual compares characters, not UTF-8 bytes. The two differ only for non-ASCII codes, and a code the issuer draws is always ASCII digits.
- Randomness (`randomInt`, `randomFillSync`, `randomBytes`), the clock, the mailer, Redis and MongoDB success, document ids and `getLocationInfo` are parameters. IP-info lookup is not part of this model.
- Concurrency is not modelled. `Promise.all` in `storeSession` runs the Redis batch and the Mongo push independently, so the model applies each one exactly when it succeeds. Neither depends on the other, and their order does not matter.
- SessionStore.Engine.StoreSession: a NaN TTL (unparsable ACCESS_TOKEN_EXPIRE) is not modelled; the lifetimes are integers. ACCESS_TTL is multiplied as days for Redis, as the code does, although the cookie reads it as minutes.
- Users.AccountStore.PushSession: the user schema declares no `sessions` path, so Mongoose's strict mode may drop the `$push`. The model applies the push the code evidently intends.
- Auth.AuthService.Signup: the rejected-mail branch is kept. `SendEmail` swallows its own errors, so that branch is likely unreachable; `sendRejects` covers both cases.
- Cookies.CreateAccessCookie and Cookies.CreateRefreshCookie: the try/catch around them cannot fire, because building a tuple does not throw, so the error path is left out.
- Guard.Decide: the `!decoded` test is not modelled. `jwt.verify` never returns a falsy value for object claims. `checkTokenSignature` (which compares IP, browser and device) is a parameter, because its body is not part of this model.
- Mail.NormalizeMail keeps the case of a gmail local part, as the code does. Only the domain is replaced by the literal "gmail.com"; other addresses are lower-cased whole.
- Text.Lower and Text.Upper are ASCII only: JavaScript's Unicode case mapping and Mongoose's lowercase setter on non-ASCII text are not modelled. Trim uses JavaScript's white-space set as far as `char` allows. The length checks count characters. validator.js `isLength` also leaves out the variation selectors U+FE0E and U+FE0F, and the model does not.
- Mongoose setters such as `lowercase` and `trim` rewrite both the stored e-mail fields and the query values that are compared with them. The model applies `Users.CastEmail` in both places. Other setters are not modelled.
- Validation: several things are left out:
  - the `.escape()` sanitizer and the sanitized values of `matchedData` (the matched body is an input);
  - non-string JSON values;
  - the boolean preference fields (`isBoolean`/`toBoolean`);
  - `birthday` (`isISO8601`), `includeOnProfile`/`include`, and the element type of `favoriteMaterials.*`;
  - the address, getFields and signout-session schemas.
- Rate limiting, the gateway, routing, logging (`console.error`) and `process.exit` itself are left out. `Config.ExitCode` reports the exit code instead of exiting.
- Configuration: a test in the repository expects NODE_ENV to be one of development, production or test. The code does not enforce this; it only defaults NODE_ENV to "development", and the model follows the code.
- SessionStore.Redis: the values are well-typed, with a set at the session key and JSON at the snapshot key. This is an invariant the model keeps; it is not something Redis enforces, and a WRONGTYPE error is not modelled.
