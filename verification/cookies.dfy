/** Cookie policy of both cookie services: lifetimes parsed from the
    environment, the shared option object, and the `[name, payload, options]`
    tuples the library engine hands to `res.cookie`. `loadTime` is the
    `Date.now()` read when the module is loaded, in milliseconds. */
module Cookies {
  import opened Wrappers
  import opened Numbers
  import Config

  const ACCESS_COOKIE_NAME := "__Secure-gk_9sLrTf2sa"
  const REFRESH_COOKIE_NAME := "__Host-qX_sr2pR8dK"

  const MINUTE_MS := 60 * 1000
  const DAY_MS := 24 * 60 * 60 * 1000

  /** `parseInt(config.ACCESS_TOKEN_EXPIRE ?? '30', 10)`, in minutes. */
  function AccessTtl(accessTokenExpire: Option<string>): (ttl: Num)
    ensures accessTokenExpire.None? ==> ttl == Finite(30)
  {
    assert DecimalString(30) == "30" by { assert DecimalString(3) == "3"; }
    ParseDecimalRoundTrip(30);
    ParseInt10(accessTokenExpire.GetOr("30"))
  }

  /** `parseInt(config.REFRESH_TOKEN_EXPIRE ?? '3', 10)`, in days. */
  function RefreshTtl(refreshTokenExpire: Option<string>): (ttl: Num)
    ensures refreshTokenExpire.None? ==> ttl == Finite(3)
  {
    assert DecimalString(3) == "3";
    ParseDecimalRoundTrip(3);
    ParseInt10(refreshTokenExpire.GetOr("3"))
  }

  /** The default applies only to a missing variable: a value that is present
      is parsed as it stands, so an empty one gives NaN and a number gives itself. */
  lemma TtlDefaultsOnlyWhenMissing(n: nat)
    ensures AccessTtl(Some("")) == NaN && RefreshTtl(Some("")) == NaN
    ensures AccessTtl(Some(DecimalString(n))) == Finite(n) && RefreshTtl(Some(DecimalString(n))) == Finite(n)
  {
    ParseDecimalRoundTrip(n);
  }

  /** `{ expires, maxAge }`: a lifetime in milliseconds and the instant it ends.
      A NaN lifetime gives an invalid date, modelled as NaN. */
  datatype Expiry = Expiry(expires: Num, maxAge: Num)

  /** `ACCESS_COOKIE_EXP` / `accessCookieExp`: the TTL counts minutes. */
  function AccessCookieExp(ttl: Num, loadTime: int): (e: Expiry)
    ensures ttl.NaN? ==> e.maxAge.NaN? && e.expires.NaN?
    ensures ttl.Finite? ==> e.maxAge == Finite(ttl.n * 60000) && e.expires == Finite(loadTime + ttl.n * 60000)
  {
    var maxAge := ttl.Times(MINUTE_MS);
    Expiry(if maxAge.Finite? then Finite(loadTime + maxAge.n) else NaN, maxAge)
  }

  /** `REFRESH_COOKIE_EXP` / `refreshCookieExp`: the TTL counts days. */
  function RefreshCookieExp(ttl: Num, loadTime: int): (e: Expiry)
    ensures ttl.NaN? ==> e.maxAge.NaN? && e.expires.NaN?
    ensures ttl.Finite? ==> e.maxAge == Finite(ttl.n * 86400000) && e.expires == Finite(loadTime + ttl.n * 86400000)
  {
    var maxAge := ttl.Times(DAY_MS);
    Expiry(if maxAge.Finite? then Finite(loadTime + maxAge.n) else NaN, maxAge)
  }

  /** The `??` fallbacks never apply in the running service: `config` always
      holds a string for both variables, and once the environment has passed
      validation that string is the non-empty value the environment holds. */
  lemma {:induction false} ConfiguredTtls(env: Config.Env)
    ensures var c := Config.Load(env);
            "ACCESS_TOKEN_EXPIRE" in c.values && "REFRESH_TOKEN_EXPIRE" in c.values &&
            AccessTtl(Some(c.values["ACCESS_TOKEN_EXPIRE"])) == ParseInt10(Config.Setting(env, "ACCESS_TOKEN_EXPIRE")) &&
            RefreshTtl(Some(c.values["REFRESH_TOKEN_EXPIRE"])) == ParseInt10(Config.Setting(env, "REFRESH_TOKEN_EXPIRE"))
    ensures Config.ExitCode(env).None? ==>
              "ACCESS_TOKEN_EXPIRE" in env && env["ACCESS_TOKEN_EXPIRE"] != "" &&
              "REFRESH_TOKEN_EXPIRE" in env && env["REFRESH_TOKEN_EXPIRE"] != "" &&
              AccessTtl(Some(Config.Load(env).values["ACCESS_TOKEN_EXPIRE"])) == ParseInt10(env["ACCESS_TOKEN_EXPIRE"]) &&
              RefreshTtl(Some(Config.Load(env).values["REFRESH_TOKEN_EXPIRE"])) == ParseInt10(env["REFRESH_TOKEN_EXPIRE"])
  {
    assert Config.REQUIRED_VARS[18] == "ACCESS_TOKEN_EXPIRE" && Config.REQUIRED_VARS[19] == "REFRESH_TOKEN_EXPIRE";
    if Config.ExitCode(env).None? {
      Config.ValidatedEnvKeepsValues(env, "ACCESS_TOKEN_EXPIRE");
      Config.ValidatedEnvKeepsValues(env, "REFRESH_TOKEN_EXPIRE");
    }
  }

  /** The fallbacks themselves, unreachable once configuration is loaded (see
      `ConfiguredTtls`): 30 minutes for the access cookie and 3 days for the
      refresh cookie. */
  lemma DefaultLifetimes(loadTime: int)
    ensures AccessCookieExp(AccessTtl(None), loadTime).maxAge == Finite(30 * 60 * 1000)
    ensures RefreshCookieExp(RefreshTtl(None), loadTime).maxAge == Finite(3 * 24 * 60 * 60 * 1000)
  {
  }

  /** The fields of an express `CookieOptions` object the services set. */
  datatype CookieOptions = CookieOptions(
    httpOnly: bool, sameSite: string, secure: bool, path: string, domain: string,
    expires: Option<Num>, maxAge: Option<Num>)

  /** `COOKIE_OPTIONS` / `cookieOptions`. */
  function BaseOptions(isProduction: bool): (o: CookieOptions)
    ensures o.httpOnly && o.secure && o.sameSite == "none" && o.path == "/"
    ensures o.domain == (if isProduction then ".devmun.xyz" else "localhost")
    ensures o.expires.None? && o.maxAge.None?
  {
    CookieOptions(true, "none", true, "/", if isProduction then ".devmun.xyz" else "localhost", None, None)
  }

  /** `ENABLE_SIGNATURE` / `enableSignature`: `{ signed: true }`. */
  const SIGNED := true

  /** `{ ...options, ...exp }`: the spread adds the two expiry fields. */
  function WithExpiry(o: CookieOptions, exp: Expiry): (r: CookieOptions)
    ensures r.expires == Some(exp.expires) && r.maxAge == Some(exp.maxAge)
    ensures r.(expires := o.expires, maxAge := o.maxAge) == o
  {
    o.(expires := Some(exp.expires), maxAge := Some(exp.maxAge))
  }

  /** The tuple `[name, payload, options]` handed to `res.cookie`. */
  datatype Cookie = Cookie(name: string, payload: string, options: CookieOptions)

  /** What the two `create*Cookie` functions share: the payload defaults to ''
      and remember to false; the options are the base options, extended with
      the lifetime when the user asked to be remembered. */
  function MakeCookie(name: string, exp: Expiry, isProduction: bool, payload: Option<string>,
                      remember: Option<bool>): (c: Cookie)
    ensures c.name == name && c.payload == payload.GetOr("")
    ensures !remember.GetOr(false) ==> c.options == BaseOptions(isProduction)
    ensures remember.GetOr(false) ==>
              c.options.(expires := None, maxAge := None) == BaseOptions(isProduction) &&
              c.options.expires == Some(exp.expires) && c.options.maxAge == Some(exp.maxAge)
  {
    var base := BaseOptions(isProduction);
    Cookie(name, payload.GetOr(""), if remember.GetOr(false) then WithExpiry(base, exp) else base)
  }

  /** `createAccessCookie(payload = '', remember = false)`. */
  function CreateAccessCookie(ttl: Num, loadTime: int, isProduction: bool, payload: Option<string>,
                              remember: Option<bool>): (c: Cookie)
    ensures c.name == ACCESS_COOKIE_NAME && c.payload == payload.GetOr("")
    ensures !remember.GetOr(false) ==> c.options == BaseOptions(isProduction)
    ensures remember.GetOr(false) ==>
              c.options.(expires := None, maxAge := None) == BaseOptions(isProduction) &&
              c.options.maxAge == Some(AccessCookieExp(ttl, loadTime).maxAge) &&
              c.options.expires == Some(AccessCookieExp(ttl, loadTime).expires)
  {
    MakeCookie(ACCESS_COOKIE_NAME, AccessCookieExp(ttl, loadTime), isProduction, payload, remember)
  }

  /** `createRefreshCookie(payload = '', remember = false)`. */
  function CreateRefreshCookie(ttl: Num, loadTime: int, isProduction: bool, payload: Option<string>,
                               remember: Option<bool>): (c: Cookie)
    ensures c.name == REFRESH_COOKIE_NAME && c.payload == payload.GetOr("")
    ensures c.name != ACCESS_COOKIE_NAME
    ensures !remember.GetOr(false) ==> c.options == BaseOptions(isProduction)
    ensures remember.GetOr(false) ==>
              c.options.(expires := None, maxAge := None) == BaseOptions(isProduction) &&
              c.options.maxAge == Some(RefreshCookieExp(ttl, loadTime).maxAge) &&
              c.options.expires == Some(RefreshCookieExp(ttl, loadTime).expires)
  {
    MakeCookie(REFRESH_COOKIE_NAME, RefreshCookieExp(ttl, loadTime), isProduction, payload, remember)
  }

  /** `ICookieMeta`: a name, a lifetime and options. */
  datatype CookieMeta = CookieMeta(name: string, ttl: Expiry, options: CookieOptions)

  /** `IAuthCookies`. */
  datatype AuthCookies = AuthCookies(access: CookieMeta, refresh: CookieMeta)

  /** The application engine's `CookieService`: it keeps the cookie settings it
      is constructed with in a read-only field. */
  class CookieService {
    const cookies: AuthCookies

    constructor(cookies: AuthCookies)
      ensures this.cookies == cookies
    {
      this.cookies := cookies;
    }
  }
}
