/**
 * The entities the server works on: the account record as the store keeps it,
 * the password digest, the claims a session token carries and the verdict of the
 * token verifier.
 */
module Model {

  import opened Optional

  /** Account identifiers; the store allocates a fresh one per created record. */
  type Id = nat

  /** The output of the password hasher (a bcrypt string). Its own type keeps it apart from plain text. */
  datatype Digest = Digest(text: string)

  /** One stored user document. */
  datatype Account = Account(
    name: string,
    email: string,
    password: Digest,
    isAccountVerified: bool,
    verifyOTP: string,
    verifyOTPExpireAt: int)

  /** The payload fields of a verified token that the gates read. */
  datatype Claims = Claims(id: Option<Id>, userId: Option<Id>)

  /** A signed session token: what it carries and how long it lives. The signature is not modelled. */
  datatype Token = Token(claims: Claims, expiresInMs: int)

  /** One hour in milliseconds: the token lifetime, the cookie age and the OTP validity window. */
  const ONE_HOUR_MS: int := 3600000

  /** The token the auth controller signs for an account: payload { id } and a one-hour expiry. */
  function IssuedToken(id: Id): (t: Token)
    ensures t.claims.id == Some(id) && t.claims.userId.None?
    ensures t.expiresInMs == ONE_HOUR_MS
  {
    Token(Claims(Some(id), None), ONE_HOUR_MS)
  }

  /** What jwt.verify reports for a present cookie token. */
  datatype Verification =
    | Verified(payload: Claims)
    | JsonWebTokenError
    | TokenExpiredError
    | OtherError
}
