/** One-time passcodes for e-mail verification (`creatOtp` in both engines):
    a six-digit code is drawn, packed with the pending sign-up data, the client
    IP (and, in the application engine, the browser and OS) into an encrypted
    envelope, and the envelope is signed into a JWT that expires in ten minutes. */
module Otp {
  import opened Wrappers
  import opened Http
  import Numbers
  import Crypto
  import Jwt
  import Device

  /** `Math.pow(10, 6 - 1)` and `Math.pow(10, 6) - 1`. */
  const OTP_MIN: int := Numbers.Pow(10, 5)
  const OTP_MAX: int := Numbers.Pow(10, 6) - 1

  const OTP_FAILURE := "Failed to create OTP. Please try again."

  /** `crypto.randomInt(min, max)`: a value of the half-open range [min, max),
      chosen by the random source; `entropy` stands for that choice. */
  function RandomInt(min: int, max: int, entropy: nat): (r: int)
    requires min < max
    ensures min <= r < max
  {
    min + entropy % (max - min)
  }

  /** Every value of the range can be drawn, and the upper bound never is. */
  lemma RandomIntCovers(min: int, max: int, r: int)
    requires min <= r < max
    ensures RandomInt(min, max, r - min) == r
    ensures forall e: nat :: RandomInt(min, max, e) != max
  {
  }

  /** The object that is encrypted: the caller's data spread together with the
      code and the request IP; `browser` and `device` are present only in the
      application engine and only when a user agent was parsed (JSON drops
      undefined fields). */
  datatype OtpPayload<T> = OtpPayload(data: T, solidOTP: nat, ip: string,
                                      browser: Option<string>, device: Option<string>)

  /** `jwt.sign({ encrypted }, ...)`: the claims are the one-field object holding the envelope. */
  type OtpToken<T> = Jwt.Token<Crypto.Envelope<OtpPayload<T>>>

  datatype Issued<T> = Issued(token: OtpToken<T>, solidOTP: nat)

  /** The configuration `creatOtp` reads: `CRYPTO_SECRET`, `ACTIVATION_SECRET`,
      `ALGORITHM` and `KEY_LENGTH`. */
  datatype OtpConfig = OtpConfig(cryptoSecret: string, activationSecret: string, cipher: Crypto.CipherConfig)

  /** The try-block shared by both engines. `entropy`, `salt` and `iv` are the
      random draws, `fault` a failure inside the cipher library, `now` the
      signing time in seconds. */
  function Issue<T>(data: T, ip: string, browser: Option<string>, device: Option<string>, cfg: OtpConfig,
                    entropy: nat, salt: seq<Crypto.byte>, iv: seq<Crypto.byte>, fault: Option<string>,
                    now: int): (r: Result<Issued<T>, Failure>)
    requires |salt| == 16
    ensures r.Err? <==> fault.Some? || cfg.activationSecret == ""
    ensures r.Err? ==> r.error == ApiError(OTP_FAILURE, INTERNAL_SERVER_ERROR)
    ensures r.Ok? ==> OTP_MIN <= r.value.solidOTP < OTP_MAX
  {
    var solidOTP: nat := RandomInt(OTP_MIN, OTP_MAX, entropy);
    var payload := OtpPayload(data, solidOTP, ip, browser, device);
    var encrypted := Crypto.Cipheriv(payload, cfg.cryptoSecret, cfg.cipher, salt, iv, fault);
    if encrypted.Err? then Err(ApiError(OTP_FAILURE, INTERNAL_SERVER_ERROR))
    else
      var token := Jwt.Sign(encrypted.value, cfg.activationSecret, now, Jwt.TEN_MINUTES);
      if token.Err? then Err(ApiError(OTP_FAILURE, INTERNAL_SERVER_ERROR))
      else Ok(Issued(token.value, solidOTP))
  }

  /** `creatOtp` of the authentication library: data plus `solidOTP` and `ip`. */
  function CreateOtp<T>(data: T, ip: string, cfg: OtpConfig, entropy: nat, salt: seq<Crypto.byte>,
                        iv: seq<Crypto.byte>, fault: Option<string>, now: int): (r: Result<Issued<T>, Failure>)
    requires |salt| == 16
    ensures r.Err? <==> fault.Some? || cfg.activationSecret == ""
    ensures r.Err? ==> r.error == ApiError(OTP_FAILURE, INTERNAL_SERVER_ERROR)
    ensures r.Ok? ==> OTP_MIN <= r.value.solidOTP < OTP_MAX
  {
    Issue(data, ip, None, None, cfg, entropy, salt, iv, fault, now)
  }

  /** `creatOtp` of the application engine: also the browser and, as `device`, the OS. */
  function CreateOtpWithDevice<T>(data: T, ip: string, ua: Option<Device.UserAgent>, cfg: OtpConfig,
                                  entropy: nat, salt: seq<Crypto.byte>, iv: seq<Crypto.byte>,
                                  fault: Option<string>, now: int): (r: Result<Issued<T>, Failure>)
    requires |salt| == 16
    ensures r.Err? <==> fault.Some? || cfg.activationSecret == ""
    ensures r.Err? ==> r.error == ApiError(OTP_FAILURE, INTERNAL_SERVER_ERROR)
    ensures r.Ok? ==> OTP_MIN <= r.value.solidOTP < OTP_MAX
  {
    var browser := if ua.Some? then Some(ua.value.browser) else None;
    var device := if ua.Some? then Some(ua.value.os) else None;
    Issue(data, ip, browser, device, cfg, entropy, salt, iv, fault, now)
  }

  /** What `verifyEmail` does with a token: `jwt.verify` with the activation
      secret, then `Crypto.decipheriv` with the crypto secret; the error is the
      message either library throws. */
  function OpenOtp<T>(token: OtpToken<T>, cfg: OtpConfig, now: int, fault: Option<string>): (r: Result<OtpPayload<T>, string>)
    ensures r.Ok? ==> fault.None? && Jwt.Verify(token, cfg.activationSecret, now).Ok?
    ensures r.Ok? ==> r.value == token.claims.data.plaintext
  {
    var claims := Jwt.Verify(token, cfg.activationSecret, now);
    if claims.Err? then Err(claims.error)
    else
      var payload := Crypto.Decipheriv(claims.value, cfg.cryptoSecret, cfg.cipher, fault);
      if payload.Err? then Err(payload.error) else Ok(payload.value)
  }

  /** An issued token opens, until ten minutes after issue, to exactly the data,
      code and request details that were packed into it; afterwards it fails as
      expired. */
  lemma IssueRoundTrip<T>(data: T, ip: string, browser: Option<string>, device: Option<string>, cfg: OtpConfig,
                          entropy: nat, salt: seq<Crypto.byte>, iv: seq<Crypto.byte>, now: int, at: int)
    requires |salt| == 16 && cfg.activationSecret != ""
    ensures var r := Issue(data, ip, browser, device, cfg, entropy, salt, iv, None, now);
            r.Ok? &&
            OpenOtp(r.value.token, cfg, at, None) ==
              if at < now + Jwt.TEN_MINUTES then Ok(OtpPayload(data, r.value.solidOTP, ip, browser, device))
              else Err(Jwt.EXPIRED)
  {
    var solidOTP: nat := RandomInt(OTP_MIN, OTP_MAX, entropy);
    var payload := OtpPayload(data, solidOTP, ip, browser, device);
    Crypto.CipherRoundTrip(payload, cfg.cryptoSecret, cfg.cipher, salt, iv);
    var env := Crypto.Cipheriv(payload, cfg.cryptoSecret, cfg.cipher, salt, iv, None).value;
    Jwt.SignVerifyRoundTrip(env, cfg.activationSecret, now, Jwt.TEN_MINUTES, at);
  }

  /** The library engine's token carries no browser or device. */
  lemma CreateOtpRoundTrip<T>(data: T, ip: string, cfg: OtpConfig, entropy: nat, salt: seq<Crypto.byte>,
                              iv: seq<Crypto.byte>, now: int, at: int)
    requires |salt| == 16 && cfg.activationSecret != "" && at < now + Jwt.TEN_MINUTES
    ensures var r := CreateOtp(data, ip, cfg, entropy, salt, iv, None, now);
            r.Ok? && OpenOtp(r.value.token, cfg, at, None) == Ok(OtpPayload(data, r.value.solidOTP, ip, None, None))
  {
    IssueRoundTrip(data, ip, None, None, cfg, entropy, salt, iv, now, at);
  }

  /** The application engine's token carries the browser and the OS of the parsed user agent. */
  lemma CreateOtpWithDeviceRoundTrip<T>(data: T, ip: string, ua: Device.UserAgent, cfg: OtpConfig, entropy: nat,
                                        salt: seq<Crypto.byte>, iv: seq<Crypto.byte>, now: int, at: int)
    requires |salt| == 16 && cfg.activationSecret != "" && at < now + Jwt.TEN_MINUTES
    ensures var r := CreateOtpWithDevice(data, ip, Some(ua), cfg, entropy, salt, iv, None, now);
            r.Ok? && OpenOtp(r.value.token, cfg, at, None) ==
                     Ok(OtpPayload(data, r.value.solidOTP, ip, Some(ua.browser), Some(ua.os)))
  {
    IssueRoundTrip(data, ip, Some(ua.browser), Some(ua.os), cfg, entropy, salt, iv, now, at);
  }

  /** A token verified with another activation secret never opens. */
  lemma OtherActivationSecretRejected<T>(data: T, ip: string, browser: Option<string>, device: Option<string>,
                                         cfg: OtpConfig, other: OtpConfig, entropy: nat, salt: seq<Crypto.byte>,
                                         iv: seq<Crypto.byte>, now: int, at: int)
    requires |salt| == 16 && cfg.activationSecret != "" && other.activationSecret != cfg.activationSecret
    ensures var r := Issue(data, ip, browser, device, cfg, entropy, salt, iv, None, now);
            r.Ok? && OpenOtp(r.value.token, other, at, None).Err?
  {
  }

  /** Every code drawn prints as exactly six digits with no leading zero. */
  lemma CodeIsSixDigits(code: int)
    requires OTP_MIN <= code < OTP_MAX
    ensures |Numbers.DecimalString(code)| == 6 && Numbers.DecimalString(code)[0] != '0'
  {
    assert Numbers.Pow(10, 5) == 100000 by {
      assert Numbers.Pow(10, 2) == 100;
      assert Numbers.Pow(10, 4) == 10000;
    }
    assert Numbers.Pow(10, 6) == 1000000;
    Numbers.DecimalStringLength(code, 6);
  }
}
