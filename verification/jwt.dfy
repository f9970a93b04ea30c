/** `jsonwebtoken` sign/verify, modelled symbolically: a token carries its claims,
    the secret that signed it and its expiry time (`exp`, in seconds). */
module Jwt {
  import opened Wrappers

  datatype Token<T> = Signed(claims: T, secret: string, exp: int) | Malformed(raw: string)

  /** `expiresIn: '10m'`. */
  const TEN_MINUTES := 600

  const NO_SECRET := "secretOrPrivateKey must have a value"
  const NO_VERIFY_SECRET := "secret or public key must be provided"
  const MALFORMED := "jwt malformed"
  const BAD_SIGNATURE := "invalid signature"
  const EXPIRED := "jwt expired"

  /** `jwt.sign(claims, secret, { expiresIn })` at time `now`. */
  function Sign<T>(claims: T, secret: string, now: int, expiresIn: nat): (r: Result<Token<T>, string>)
    ensures r.Err? <==> secret == ""
    ensures r.Ok? ==> r.value.Signed? && r.value.claims == claims && r.value.exp == now + expiresIn
  {
    if secret == "" then Err(NO_SECRET) else Ok(Signed(claims, secret, now + expiresIn))
  }

  /** `jwt.verify(token, secret)` at time `now`: the claims, or the error it
      throws. The token's shape is checked before the secret. */
  function Verify<T>(token: Token<T>, secret: string, now: int): (r: Result<T, string>)
    ensures r.Ok? <==> secret != "" && token.Signed? && token.secret == secret && now < token.exp
    ensures r.Ok? ==> r.value == token.claims
  {
    match token
    case Malformed(_) => Err(MALFORMED)
    case Signed(claims, s, exp) =>
      if secret == "" then Err(NO_VERIFY_SECRET)
      else if s != secret then Err(BAD_SIGNATURE)
      else if now >= exp then Err(EXPIRED)
      else Ok(claims)
  }

  /** A token verifies with the secret that signed it exactly while it has not expired. */
  lemma SignVerifyRoundTrip<T>(claims: T, secret: string, now: int, expiresIn: nat, at: int)
    requires secret != ""
    ensures Verify(Sign(claims, secret, now, expiresIn).value, secret, at) ==
            (if at < now + expiresIn then Ok(claims) else Err(EXPIRED))
  {
  }

  /** A token signed with one secret never verifies under another. */
  lemma OtherSecretRejected<T>(claims: T, secret: string, other: string, now: int, expiresIn: nat, at: int)
    requires secret != "" && other != secret
    ensures Verify(Sign(claims, secret, now, expiresIn).value, other, at).Err?
  {
  }
}
