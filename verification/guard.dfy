/** `AuthGuard.validateToken`: the middleware that admits a request only when
    its signed access cookie holds a JWT that verifies and whose signature
    matches the request. Rejections that the guard decides itself go through
    `sessionUnauthorized`, which clears the cookies before forwarding a 401;
    an exception thrown by `jwt.verify` reaches `next` through `catchAsync`. */
module Guard {
  import opened Wrappers
  import opened Http
  import Jwt
  import Cookies
  import Users

  const SESSION_EXPIRED := "Your session has expired or is no longer available. Please log in again to continue."

  /** What `jwt.verify` throws when handed `undefined`. */
  const JWT_REQUIRED := "jwt must be provided"

  /** `TokenSignature`: the claims of an access token. */
  datatype TokenSignature = TokenSignature(
    ip: string, browser: string, device: string, id: string, role: Users.Role, remember: bool, token: string)

  type AccessToken = Jwt.Token<TokenSignature>

  /** A value of `req.signedCookies`: `false` when the cookie's signature does
      not check out, otherwise the unsigned value. */
  datatype SignedValue = Tampered | Intact(token: AccessToken)

  /** `req.signedCookies[name]`; a missing cookie reads as `undefined` (None). */
  function AccessCookie(signedCookies: map<string, SignedValue>): (c: Option<SignedValue>)
    ensures c.Some? <==> Cookies.ACCESS_COOKIE_NAME in signedCookies
    ensures c.Some? ==> c.value == signedCookies[Cookies.ACCESS_COOKIE_NAME]
  {
    if Cookies.ACCESS_COOKIE_NAME in signedCookies then Some(signedCookies[Cookies.ACCESS_COOKIE_NAME]) else None
  }

  /** The 401 `sessionUnauthorized` forwards. */
  const UNAUTHORIZED_SESSION := ApiError(SESSION_EXPIRED, UNAUTHORIZED)

  /** The accept/reject chain of `validateToken`: cookie, then `jwt.verify`
      with `ACCESS_TOKEN` at time `now`, then `checkTokenSignature`
      (`mismatch`, true when the claims do not fit the request), then `next()`. */
  function Decide(cookie: Option<SignedValue>, secret: string, now: int, mismatch: TokenSignature -> bool)
    : (r: Outcome<()>)
    ensures r.Proceed? <==>
              cookie.Some? && cookie.value.Intact? && Jwt.Verify(cookie.value.token, secret, now).Ok? &&
              !mismatch(cookie.value.token.claims)
    ensures r.Respond? == false
    ensures r == Forward(UNAUTHORIZED_SESSION) <==>
              cookie == Some(Tampered) ||
              (cookie.Some? && cookie.value.Intact? && Jwt.Verify(cookie.value.token, secret, now).Ok? &&
               mismatch(cookie.value.token.claims))
    ensures cookie.None? ==> r == Forward(Thrown(JWT_REQUIRED))
    ensures cookie.Some? && cookie.value.Intact? && Jwt.Verify(cookie.value.token, secret, now).Err? ==>
              r == Forward(Thrown(Jwt.Verify(cookie.value.token, secret, now).error))
  {
    match cookie
    case Some(Tampered) => Forward(UNAUTHORIZED_SESSION)
    case None => Forward(Thrown(JWT_REQUIRED))
    case Some(Intact(token)) =>
      match Jwt.Verify(token, secret, now)
      case Err(e) => Forward(Thrown(e))
      case Ok(decoded) => if mismatch(decoded) then Forward(UNAUTHORIZED_SESSION) else Proceed
  }

  /** A token the service signed with `ACCESS_TOKEN` is admitted until it
      expires, provided it matches the request. */
  lemma FreshTokenAdmitted(claims: TokenSignature, secret: string, issuedAt: int, expiresIn: nat, now: int,
                           mismatch: TokenSignature -> bool)
    requires secret != "" && now < issuedAt + expiresIn && !mismatch(claims)
    ensures Decide(Some(Intact(Jwt.Sign(claims, secret, issuedAt, expiresIn).value)), secret, now, mismatch) == Proceed
  {
    Jwt.SignVerifyRoundTrip(claims, secret, issuedAt, expiresIn, now);
  }

  /** Once expired the same token is refused with the library's error, and it
      is a thrown error rather than the guard's own 401. */
  lemma ExpiredTokenThrown(claims: TokenSignature, secret: string, issuedAt: int, expiresIn: nat, now: int,
                           mismatch: TokenSignature -> bool)
    requires secret != "" && now >= issuedAt + expiresIn
    ensures Decide(Some(Intact(Jwt.Sign(claims, secret, issuedAt, expiresIn).value)), secret, now, mismatch) ==
            Forward(Thrown(Jwt.EXPIRED))
  {
    Jwt.SignVerifyRoundTrip(claims, secret, issuedAt, expiresIn, now);
  }

  /** The request and response `validateToken` works on: the signed cookies it
      reads, the two request fields it sets, and whether the response was told
      to clear the cookies. */
  class Exchange {
    const signedCookies: map<string, SignedValue>
    var userId: Option<string>
    var accessToken: Option<AccessToken>
    var cookiesCleared: bool

    constructor(signedCookies: map<string, SignedValue>)
      ensures this.signedCookies == signedCookies
      ensures userId.None? && accessToken.None? && !cookiesCleared
    {
      this.signedCookies := signedCookies;
      userId := None;
      accessToken := None;
      cookiesCleared := false;
    }
  }

  /** `sessionUnauthorized(res, next)`: `clearAllCookies(res)`, then the 401. */
  method SessionUnauthorized(x: Exchange) returns (r: Outcome<()>)
    modifies x`cookiesCleared
    ensures x.cookiesCleared
    ensures r == Forward(UNAUTHORIZED_SESSION)
  {
    x.cookiesCleared := true;
    r := Forward(UNAUTHORIZED_SESSION);
  }

  /** `validateToken(req, res, next)`. The outcome is `Decide`'s; the cookies
      are cleared exactly when the guard itself rejects; the user id and the
      raw token are recorded as soon as the token verifies, whether or not the
      signature check then passes. */
  method ValidateToken(x: Exchange, secret: string, now: int, mismatch: TokenSignature -> bool)
    returns (r: Outcome<()>)
    modifies x
    ensures r == Decide(AccessCookie(x.signedCookies), secret, now, mismatch)
    ensures x.cookiesCleared == (old(x.cookiesCleared) || r == Forward(UNAUTHORIZED_SESSION))
    ensures var c := AccessCookie(x.signedCookies);
            if c.Some? && c.value.Intact? && Jwt.Verify(c.value.token, secret, now).Ok?
            then x.userId == Some(c.value.token.claims.id) && x.accessToken == Some(c.value.token)
            else x.userId == old(x.userId) && x.accessToken == old(x.accessToken)
  {
    var accessCookie := AccessCookie(x.signedCookies);
    if accessCookie == Some(Tampered) {
      r := SessionUnauthorized(x);
      return;
    }
    if accessCookie.None? {
      return Forward(Thrown(JWT_REQUIRED));
    }
    var token := accessCookie.value.token;
    var decoded := Jwt.Verify(token, secret, now);
    if decoded.Err? {
      return Forward(Thrown(decoded.error));
    }
    x.userId := Some(decoded.value.id);
    x.accessToken := Some(token);
    if mismatch(decoded.value) {
      r := SessionUnauthorized(x);
      return;
    }
    r := Proceed;
  }
}
