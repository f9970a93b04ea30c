/** The sign-up, e-mail verification and sign-in handlers of the two auth
    services. Each works on the user collection (`model`) and finishes by
    responding or by calling `next`; errors thrown inside the handler reach
    `next` through `catchAsync`. */
module Auth {
  import opened Wrappers
  import opened Http
  import Numbers
  import Crypto
  import Jwt
  import Device
  import Mail
  import Otp
  import Users
  import Cookies

  const ALREADY_REGISTERED := "This email is already registered. Use a different email address."
  const CODE_SENT := "Verification code sent successfully to your email address."
  const SEND_FAILURE := "An error occurred while sending the verification email. Please try again later."
  const OTP_MISMATCH := "The OTP you entered does not match. Please double-check the code and try again."
  const VERIFIED := "Your account has been successfully verified."
  const BAD_CREDENTIALS := "Incorrect email or password. Please check your credentials and try again."

  /** `ISignup`. */
  datatype SignupBody = SignupBody(firstName: string, lastName: string, email: string, password: string)

  /** The sign-up data that travels inside the OTP token until the code is confirmed. */
  datatype PendingSignup = PendingSignup(
    firstName: string, lastName: string, email: string, normalizeMail: string, password: string)

  /** The data handed to `SendEmail`: the user's first name and address and the code. */
  datatype VerificationMail = VerificationMail(name: string, email: string, otp: nat)

  /** What `signup` ends with, and the verification mail it sent, if any. */
  datatype SignupResult = SignupResult(outcome: Outcome<Otp.OtpToken<PendingSignup>>, mail: Option<VerificationMail>)

  /** The random draws and library faults of one OTP issuance. */
  datatype Draw = Draw(entropy: nat, salt: seq<Crypto.byte>, iv: seq<Crypto.byte>, fault: Option<string>)

  /** The pending data `signup` packs: the body with the normalised address. */
  function Pending(body: SignupBody, normalized: string): (p: PendingSignup)
    ensures p.firstName == body.firstName && p.lastName == body.lastName && p.email == body.email
    ensures p.password == body.password && p.normalizeMail == normalized
  {
    PendingSignup(body.firstName, body.lastName, body.email, normalized, body.password)
  }

  /** Some stored account has this e-mail, or this normalised e-mail. */
  predicate Registered(accounts: seq<Users.Account>, email: string, normalized: string) {
    exists i :: 0 <= i < |accounts| && Users.Matches(accounts[i], Users.ByEmailOrNormalized(email, normalized))
  }

  /** The end of `signup` once the token exists: the mail is sent, then the
      handler answers 200 with the token, or 500 if sending was rejected. */
  function AfterIssue(body: SignupBody, issued: Result<Otp.Issued<PendingSignup>, Failure>, sendRejects: bool)
    : (r: SignupResult)
    ensures issued.Err? ==> r == SignupResult(Forward(issued.error), None)
    ensures issued.Ok? ==> r.mail == Some(VerificationMail(body.firstName, body.email, issued.value.solidOTP))
    ensures issued.Ok? ==> r.outcome == if sendRejects then Forward(ApiError(SEND_FAILURE, INTERNAL_SERVER_ERROR))
                                        else Respond(OK, CODE_SENT, issued.value.token)
  {
    match issued
    case Err(f) => SignupResult(Forward(f), None)
    case Ok(Issued(token, solidOTP)) =>
      var mail := VerificationMail(body.firstName, body.email, solidOTP);
      if sendRejects then SignupResult(Forward(ApiError(SEND_FAILURE, INTERNAL_SERVER_ERROR)), Some(mail))
      else SignupResult(Respond(OK, CODE_SENT, token), Some(mail))
  }

  /** `AuthService` of the application: sign-up, verification and sign-in on
      the library engine, whose OTP carries no browser or device. */
  class AuthService {
    const store: Users.AccountStore
    const role: Users.Role
    const otp: Otp.OtpConfig

    constructor(store: Users.AccountStore, role: Users.Role, otp: Otp.OtpConfig)
      ensures this.store == store && this.role == role && this.otp == otp
    {
      this.store := store;
      this.role := role;
      this.otp := otp;
    }

    /** `signup`: `ip` is the request IP, `now` the time in seconds, `draw` the
      OTP's random draws and `sendRejects` whether the mailer rejects. */
    method Signup(body: SignupBody, ip: string, now: int, draw: Draw, sendRejects: bool) returns (r: SignupResult)
      requires |draw.salt| == 16
      ensures Mail.NormalizeMail(body.email).Err? ==> r == SignupResult(Forward(Thrown(Mail.UNDEFINED_DOMAIN)), None)
      ensures Mail.NormalizeMail(body.email).Ok? ==>
                (r.outcome == Forward(ApiError(ALREADY_REGISTERED, BAD_REQUEST)) <==>
                 Registered(store.accounts, body.email, Mail.NormalizeMail(body.email).value))
      ensures Mail.NormalizeMail(body.email).Ok? && Registered(store.accounts, body.email, Mail.NormalizeMail(body.email).value) ==>
                r == SignupResult(Forward(ApiError(ALREADY_REGISTERED, BAD_REQUEST)), None)
      ensures Mail.NormalizeMail(body.email).Ok? && !Registered(store.accounts, body.email, Mail.NormalizeMail(body.email).value) ==>
                r == AfterIssue(body, Otp.CreateOtp(Pending(body, Mail.NormalizeMail(body.email).value), ip, otp,
                                                    draw.entropy, draw.salt, draw.iv, draw.fault, now), sendRejects)
      ensures r.mail.Some? ==> r.mail.value.name == body.firstName && r.mail.value.email == body.email
      ensures r.mail.Some? && sendRejects ==> r.outcome == Forward(ApiError(SEND_FAILURE, INTERNAL_SERVER_ERROR))
      ensures r.outcome.Respond? ==>
                !sendRejects && r.outcome.status == OK && r.outcome.message == CODE_SENT && r.mail.Some? &&
                Otp.OpenOtp(r.outcome.data, otp, now, None) ==
                  Ok(Otp.OtpPayload(Pending(body, Mail.NormalizeMail(body.email).value), r.mail.value.otp, ip, None, None))
    {
      var normalized := Mail.NormalizeMail(body.email);
      if normalized.Err? {
        return SignupResult(Forward(Thrown(normalized.error)), None);
      }
      var existing := store.FindOne(Users.ByEmailOrNormalized(body.email, normalized.value), false);
      if existing.Some? {
        return SignupResult(Forward(ApiError(ALREADY_REGISTERED, BAD_REQUEST)), None);
      }
      var pending := Pending(body, normalized.value);
      var issued := Otp.CreateOtp(pending, ip, otp, draw.entropy, draw.salt, draw.iv, draw.fault, now);
      if issued.Ok? {
        Otp.CreateOtpRoundTrip(pending, ip, otp, draw.entropy, draw.salt, draw.iv, now, now);
      }
      r := AfterIssue(body, issued, sendRejects);
    }

    /** `verifyEmail`: the token is unsealed at time `now`; `decipherFault` is a
      decryption failure, `freshId` the new document's id and `hashFault` a
      bcrypt failure in the save hook. */
    method VerifyEmail(otpCode: string, token: Otp.OtpToken<PendingSignup>, now: int, decipherFault: Option<string>,
                       freshId: Users.UserId, hashFault: Option<string>) returns (o: Outcome<()>)
      requires store.Valid()
      modifies store
      ensures store.Valid()
      ensures var unsealed := Otp.OpenOtp(token, otp, now, decipherFault);
              unsealed.Err? ==> o == Forward(Thrown(unsealed.error)) && store.accounts == old(store.accounts)
      ensures var unsealed := Otp.OpenOtp(token, otp, now, decipherFault);
              unsealed.Ok? && Crypto.TimingSafeEqual(Numbers.DecimalString(unsealed.value.solidOTP), otpCode).Err? ==>
                o.Forward? && o.failure.Thrown? && store.accounts == old(store.accounts)
      ensures var unsealed := Otp.OpenOtp(token, otp, now, decipherFault);
              unsealed.Ok? && Crypto.TimingSafeEqual(Numbers.DecimalString(unsealed.value.solidOTP), otpCode) == Ok(false) ==>
                o == Forward(ApiError(OTP_MISMATCH, BAD_REQUEST)) && store.accounts == old(store.accounts)
      ensures var unsealed := Otp.OpenOtp(token, otp, now, decipherFault);
              unsealed.Ok? && Crypto.TimingSafeEqual(Numbers.DecimalString(unsealed.value.solidOTP), otpCode) == Ok(true) ==>
                var p := unsealed.value.data;
                var ins := Users.Insert(old(store.accounts),
                                        Users.NewAccount(p.firstName, p.lastName, p.email, p.normalizeMail, p.password, role),
                                        freshId, hashFault);
                o == (if ins.Ok? then Respond(CREATED, VERIFIED, ()) else Forward(Thrown(ins.error)))
      ensures o.Respond? <==> store.accounts != old(store.accounts)
      ensures o.Respond? ==>
                o == Respond(CREATED, VERIFIED, ()) &&
                var unsealed := Otp.OpenOtp(token, otp, now, decipherFault);
                unsealed.Ok? && Numbers.DecimalString(unsealed.value.solidOTP) == otpCode &&
                var p := unsealed.value.data;
                store.accounts == old(store.accounts) +
                  [Users.Stored(Users.NewAccount(p.firstName, p.lastName, p.email, p.normalizeMail, p.password, role), freshId)]
    {
      var unsealed := Otp.OpenOtp(token, otp, now, decipherFault);
      if unsealed.Err? {
        return Forward(Thrown(unsealed.error));
      }
      var correct := Crypto.TimingSafeEqual(Numbers.DecimalString(unsealed.value.solidOTP), otpCode);
      if correct.Err? {
        return Forward(Thrown(correct.error));
      }
      if !correct.value {
        return Forward(ApiError(OTP_MISMATCH, BAD_REQUEST));
      }
      var p := unsealed.value.data;
      var created := store.Create(Users.NewAccount(p.firstName, p.lastName, p.email, p.normalizeMail, p.password, role),
                                  freshId, hashFault);
      if created.Err? {
        return Forward(Thrown(created.error));
      }
      return Respond(CREATED, VERIFIED, ());
    }

    /** `signin`: on success the request carries the user, with its password
      removed, and the remember flag, and the chain continues. */
    method Signin(req: SigninRequest, email: string, password: string, remember: Option<bool>) returns (o: Outcome<()>)
      modifies req
      ensures var k := Users.FindIndex(store.accounts, Users.ByEmail(email), 0);
              o == if k.Some? && Users.IsPasswordValid(password, Some(store.accounts[k.value].password)) then Proceed
                   else Forward(ApiError(BAD_CREDENTIALS, UNAUTHORIZED))
      ensures o.Proceed? ==>
                var k := Users.FindIndex(store.accounts, Users.ByEmail(email), 0);
                k.Some? && req.self == Some(Users.View(store.accounts[k.value], false)) && req.remember == remember
      ensures !o.Proceed? ==> req.self == old(req.self) && req.remember == old(req.remember)
    {
      var user := store.FindOne(Users.ByEmail(email), true);
      var k := Users.FindIndex(store.accounts, Users.ByEmail(email), 0);
      if user.None? || !Users.IsPasswordValid(password, user.value.password) {
        return Forward(ApiError(BAD_CREDENTIALS, UNAUTHORIZED));
      }
      assert k.Some? && user.value == Users.View(store.accounts[k.value], true);
      req.self := Some(user.value.(password := None));
      req.remember := remember;
      return Proceed;
    }
  }

  /** The request fields `signin` sets for the handlers after it. */
  class SigninRequest {
    var self: Option<Users.UserView>
    var remember: Option<bool>

    constructor()
      ensures self.None? && remember.None?
    {
      self := None;
      remember := None;
    }
  }

  /** `AuthServices` of the application engine: the same `signup`, with an OTP
      that also carries the browser and OS of the parsed user agent. */
  class AuthServices {
    const store: Users.AccountStore
    const role: Users.Role
    const otp: Otp.OtpConfig
    const cookies: Cookies.AuthCookies

    constructor(store: Users.AccountStore, role: Users.Role, otp: Otp.OtpConfig, cookies: Cookies.AuthCookies)
      ensures this.store == store && this.role == role && this.otp == otp && this.cookies == cookies
    {
      this.store := store;
      this.role := role;
      this.otp := otp;
      this.cookies := cookies;
    }

    method Signup(body: SignupBody, ip: string, ua: Option<Device.UserAgent>, now: int, draw: Draw, sendRejects: bool)
      returns (r: SignupResult)
      requires |draw.salt| == 16
      ensures Mail.NormalizeMail(body.email).Err? ==> r == SignupResult(Forward(Thrown(Mail.UNDEFINED_DOMAIN)), None)
      ensures Mail.NormalizeMail(body.email).Ok? ==>
                (r.outcome == Forward(ApiError(ALREADY_REGISTERED, BAD_REQUEST)) <==>
                 Registered(store.accounts, body.email, Mail.NormalizeMail(body.email).value))
      ensures Mail.NormalizeMail(body.email).Ok? && Registered(store.accounts, body.email, Mail.NormalizeMail(body.email).value) ==>
                r == SignupResult(Forward(ApiError(ALREADY_REGISTERED, BAD_REQUEST)), None)
      ensures Mail.NormalizeMail(body.email).Ok? && !Registered(store.accounts, body.email, Mail.NormalizeMail(body.email).value) ==>
                r == AfterIssue(body, Otp.CreateOtpWithDevice(Pending(body, Mail.NormalizeMail(body.email).value), ip, ua, otp,
                                                              draw.entropy, draw.salt, draw.iv, draw.fault, now), sendRejects)
      ensures r.mail.Some? ==> r.mail.value.name == body.firstName && r.mail.value.email == body.email
      ensures r.mail.Some? && sendRejects ==> r.outcome == Forward(ApiError(SEND_FAILURE, INTERNAL_SERVER_ERROR))
      ensures r.outcome.Respond? ==>
                !sendRejects && r.outcome.status == OK && r.outcome.message == CODE_SENT && r.mail.Some? &&
                Otp.OpenOtp(r.outcome.data, otp, now, None) ==
                  Ok(Otp.OtpPayload(Pending(body, Mail.NormalizeMail(body.email).value), r.mail.value.otp, ip,
                                    if ua.Some? then Some(ua.value.browser) else None,
                                    if ua.Some? then Some(ua.value.os) else None))
    {
      var normalized := Mail.NormalizeMail(body.email);
      if normalized.Err? {
        return SignupResult(Forward(Thrown(normalized.error)), None);
      }
      var existing := store.FindOne(Users.ByEmailOrNormalized(body.email, normalized.value), false);
      if existing.Some? {
        return SignupResult(Forward(ApiError(ALREADY_REGISTERED, BAD_REQUEST)), None);
      }
      var pending := Pending(body, normalized.value);
      var issued := Otp.CreateOtpWithDevice(pending, ip, ua, otp, draw.entropy, draw.salt, draw.iv, draw.fault, now);
      if issued.Ok? {
        Otp.IssueRoundTrip(pending, ip, if ua.Some? then Some(ua.value.browser) else None,
                           if ua.Some? then Some(ua.value.os) else None, otp, draw.entropy, draw.salt, draw.iv, now, now);
      }
      r := AfterIssue(body, issued, sendRejects);
    }
  }
}
