/**
 * The tokens the authentication flows issue. Signing is abstract: a token is
 * its claim set and its lifetime (`expiresIn`), which is all the flows decide.
 */
module Tokens {
  import opened Wrappers
  import opened Text
  import opened ObjectIds

  /** `user_id` always; `otp_code` on a device challenge; `identifier` on a password reset. */
  datatype Claims = Claims(userId: string, otpCode: Option<string>, identifier: Option<string>)

  /** A signed token: its claims and its lifetime in seconds. */
  datatype Token = Token(claims: Claims, ttl: nat)

  /** `'300s'`. */
  const ShortLifetime: nat := 300
  /** `'3d'`. */
  const SessionLifetime: nat := 3 * 24 * 60 * 60

  /** What the OTP generator can return: `Math.floor(100000 + Math.random() * 900000)`. */
  type Otp = n: nat | 100000 <= n <= 999999 witness 100000

  /** `{ user_id }` for 300 s: the account-verification link. */
  function VerificationToken(id: ObjectId): Token {
    Token(Claims(id.hex, None, None), ShortLifetime)
  }

  /** `{ otp_code, user_id }` for 300 s: the server-side copy of a device challenge. */
  function OtpToken(id: ObjectId, otp: Otp): Token {
    Token(Claims(id.hex, Some(DecimalString(otp)), None), ShortLifetime)
  }

  /** `{ user_id }` for three days: the session after full verification. */
  function SessionToken(userId: string): Token {
    Token(Claims(userId, None, None), SessionLifetime)
  }

  /** The marker a password-reset token carries for its user. */
  function ResetIdentifier(userId: string): string {
    "password-reset-" + userId
  }

  /** `{ user_id, identifier }` for 300 s: the password-reset link. */
  function ResetToken(id: ObjectId): Token {
    Token(Claims(id.hex, None, Some(ResetIdentifier(id.hex))), ShortLifetime)
  }
}
