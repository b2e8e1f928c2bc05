/**
 * Wall-clock time, in nanoseconds since the Unix epoch, and the time check of the verifier.
 * Integers are unbounded: timestamps far enough out to overflow Go's time.Time are not modelled.
 */
module Clock {

  const NANOS := 1_000_000_000

  const CLOCK_SKEW := 30 * NANOS

  const FIVE_MINUTES := 300 * NANOS

  /** The instant of Go's zero time.Time: 1 January of year 1, 00:00 UTC. */
  const ZERO_TIME := -62_135_596_800 * NANOS

  /** time.Unix(sec, 0) */
  function Unix(sec: int): (t: int) {
    sec * NANOS
  }

  datatype TimeVerdict = InWindow | PastExpiry | BeforeIssue

  /** A token is refused strictly after `exp`: at the very instant `exp` it still passes. */
  function CheckTime(now: int, iat: int, exp: int): (v: TimeVerdict)
  {
    if exp == 0 || now > Unix(exp) then PastExpiry
    else if iat != 0 && now + CLOCK_SKEW < Unix(iat) then BeforeIssue
    else InWindow
  }

  /** When the package documentation says a token is expired: at `exp` already. */
  predicate ExpiredAsDocumented(now: int, exp: int) {
    exp == 0 || now >= Unix(exp)
  }

  /** The code's expiry test is the documented one everywhere but at the instant of expiry of a token that has one. */
  lemma {:induction false} ExpiryAsDocumentedIff(now: int, iat: int, exp: int)
    ensures (CheckTime(now, iat, exp) == PastExpiry <==> ExpiredAsDocumented(now, exp))
            <==> exp == 0 || now != Unix(exp)
  {
  }
}
