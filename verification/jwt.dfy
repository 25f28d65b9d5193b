/**
  Model of isTokenExpired (jwtHooks.tsx): the JWT decoding library is an
  abstract function and the clock reading is a parameter.
 */
module Jwt {
  import opened Types

  /** What the decoding library makes of a token: it throws on a
      malformed token, otherwise it yields a payload whose `exp` claim
      (seconds since the epoch) may be missing. */
  datatype Decoded = Malformed | Payload(exp: Option<int>)

  /** The decoding library, as a total function of the token text. */
  type Decoder = string -> Decoded

  /** Whole seconds of a clock reading in milliseconds, rounded down. */
  function CurrentTime(nowMs: int): (secs: int)
    ensures secs * 1000 <= nowMs < secs * 1000 + 1000
  {
    // Dafny's division by a positive constant rounds towards minus
    // infinity, as Math.floor of the quotient does.
    nowMs / 1000
  }

  /** The `exp` claim of a decoded payload, a missing claim counting as 0. */
  function ExpOrZero(exp: Option<int>): int {
    match exp
    case Some(e) => e
    case None => 0
  }

  /** True when the token cannot be decoded, or when its expiry second
      lies strictly before the current second. */
  function IsTokenExpired(decode: Decoder, token: string, nowMs: int): (expired: bool)
    ensures decode(token).Malformed? ==> expired
    ensures decode(token).Payload? ==>
              (expired <==> (ExpOrZero(decode(token).exp) + 1) * 1000 <= nowMs)
  {
    match decode(token)
    case Malformed => true
    case Payload(exp) => ExpOrZero(exp) < CurrentTime(nowMs)
  }

  /** A token whose expiry second is the current second is still valid:
      the comparison is strict. */
  lemma ExpiryInstantIsValid(decode: Decoder, token: string, nowMs: int)
    requires decode(token) == Payload(Some(CurrentTime(nowMs)))
    ensures !IsTokenExpired(decode, token, nowMs)
  {
  }

  /** A decodable token with no `exp` claim is expired exactly when the
      current second is past the epoch. */
  lemma MissingExpiryClaim(decode: Decoder, token: string, nowMs: int)
    requires decode(token) == Payload(None)
    ensures IsTokenExpired(decode, token, nowMs) <==> CurrentTime(nowMs) > 0
  {
  }

  /** Expiry is monotone in time: once expired, a token stays expired. */
  lemma ExpiredStaysExpired(decode: Decoder, token: string, nowMs: int, laterMs: int)
    requires nowMs <= laterMs
    requires IsTokenExpired(decode, token, nowMs)
    ensures IsTokenExpired(decode, token, laterMs)
  {
  }
}
