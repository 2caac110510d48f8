/** JSON Web Tokens as the handlers use them, reduced to an algebra: a token
    carries its claims, the secret it was signed with, the issue time and the
    expiry time (`iat` and `exp`, sections 4.1.6 and 4.1.4 of RFC 7519).
    The byte-level encoding and the HMAC are an oracle `Jwt`; all that is
    assumed of it is that decoding an encoded token gives the token back. */
module Jws {
  import opened Values

  /** The registration form embedded in an activation token (the password
      is already hashed). */
  datatype Registration = Registration(email: string, password: string, fullName: string, companyName: string)

  /** The payloads the program signs. */
  datatype Claims =
    | IdClaims(id: Option<int>)
    | EmailClaims(email: string)
    | ActivationClaims(user: Registration, activationCode: string)
    | InviteClaims(inviteId: Option<int>, inviteEmail: Option<string>, inviteCompany: Option<string>, inviteName: Option<string>)

  datatype Token = Token(claims: Claims, secret: string, issuedAt: int, expiresAt: int)

  /** The encoding oracle: `encode` serialises and signs, `decode` parses a
      compact serialisation and recovers what was signed, or fails. */
  datatype Jwt = Jwt(encode: Token -> string, decode: string -> Option<Token>)

  /** What is assumed of the oracle: decoding an encoded token gives it back,
      and an encoded token is a non-empty string without spaces (the compact
      serialisation of section 7.1 of RFC 7515 uses base64url and dots only). */
  ghost predicate Sound(j: Jwt) {
    forall t :: j.decode(j.encode(t)) == Some(t) && j.encode(t) != [] && ' ' !in j.encode(t)
  }

  /** The error `jwt.sign` throws for a missing or empty secret. */
  const MissingSecret := "secretOrPrivateKey must have a value"

  /** `jwt.sign(claims, secret, { expiresIn: ttl })` at time `now` (seconds). */
  function Sign(j: Jwt, claims: Claims, secret: Option<string>, now: int, ttl: nat): (r: Result<string>)
    ensures r.Err? <==> !Truthy(secret)
    ensures r.Err? ==> r.message == MissingSecret
  {
    if Truthy(secret) then Ok(j.encode(Token(claims, secret.value, now, now + ttl)))
    else Err(MissingSecret)
  }

  /** What `jwt.verify` does: return the payload, throw `TokenExpiredError`,
      or throw `JsonWebTokenError`. */
  datatype Verified = Valid(claims: Claims) | Expired | Invalid

  /** `jwt.verify(token, secret)` at time `now`: a missing secret, an
      undecodable token or a signature under another secret is invalid; a
      correctly signed token is expired from its `exp` second on. */
  function Verify(j: Jwt, token: string, secret: Option<string>, now: int): (r: Verified)
    ensures r.Valid? <==> Truthy(secret) && j.decode(token).Some?
                          && j.decode(token).value.secret == secret.value
                          && now < j.decode(token).value.expiresAt
    ensures r.Valid? ==> r.claims == j.decode(token).value.claims
    ensures r.Expired? ==> Truthy(secret) && j.decode(token).Some?
                           && now >= j.decode(token).value.expiresAt
  {
    if !Truthy(secret) then Invalid
    else
      match j.decode(token)
      case None => Invalid
      case Some(t) =>
        if t.secret != secret.value then Invalid
        else if now >= t.expiresAt then Expired
        else Valid(t.claims)
  }

  /** Signing then verifying: under the signing secret the claims come back
      until `ttl` seconds have passed and the token is expired from then on;
      under any other secret it is invalid, whatever the time. */
  lemma SignThenVerify(j: Jwt, claims: Claims, secret: Option<string>, issued: int, ttl: nat,
                       other: Option<string>, now: int)
    requires Sound(j) && Truthy(secret)
    ensures Sign(j, claims, secret, issued, ttl).Ok?
    ensures Sign(j, claims, secret, issued, ttl).value != [] && ' ' !in Sign(j, claims, secret, issued, ttl).value
    ensures var tok := Sign(j, claims, secret, issued, ttl).value;
            Verify(j, tok, other, now)
            == if Truthy(other) && other.value == secret.value
               then (if now < issued + ttl then Valid(claims) else Expired)
               else Invalid
  {
    var t := Token(claims, secret.value, issued, issued + ttl);
    assert j.decode(j.encode(t)) == Some(t);
  }
}
