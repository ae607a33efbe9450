/** The tokens the server signs (back-end/src/utils/jwt.ts, back-end/src/types/jwt.ts).
    Signing is injective: a signed string is its payload, and two are equal exactly when their payloads are. */
module Tokens {

  datatype Claims =
    | Session                                                  // no purpose: access and refresh tokens
    | EmailVerification
    | PasswordReset
    | EmailChange(code: string, newEmail: string, attempts: nat)

  /** `iat` and `exp` are in whole seconds, as in sections 4.1.6 and 4.1.4 of RFC 7519. */
  datatype Token = Token(userId: string, claims: Claims, iat: nat, exp: int)

  /** A string that a caller presents: one that the server's key signed, or any other. */
  datatype Presented = Signed(token: Token) | Unsigned

  const ACCESS_SECONDS := 3600
  const REFRESH_SECONDS := 604800
  const VERIFICATION_SECONDS := 1800
  const CHANGE_SECONDS := 900

  function Seconds(nowMs: nat): nat { nowMs / 1000 }

  /** The signing contract: the expiry counts from `iat`, which is the current second unless the payload names one. */
  function Sign(userId: string, claims: Claims, iat: nat, expiresIn: int): Token {
    Token(userId, claims, iat, iat + expiresIn)
  }

  predicate Live(t: Token, nowMs: nat) { Seconds(nowMs) < t.exp }

  predicate Verifies(p: Presented, nowMs: nat) { p.Signed? && Live(p.token, nowMs) }
}
