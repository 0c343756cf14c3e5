// Shared vocabulary: the error codes and credential modes of internal/domain, and
// the 64-bit arithmetic Go performs on durations.

module Domain {
  datatype Option<+T> = None | Some(value: T)

  datatype Mode = Server | Caller

  datatype Code =
    | InvalidRequest | Unauthorized | CallerSessionInvalid | ProfileNotFound
    | RateLimited | UpstreamAuthFailed | UpstreamRateLimited | UpstreamTimeout
    | UpstreamUnavailable | UpstreamParseError | Internal

  // An error value as the callers see it: a structured domain error, or any
  // other error (AsError fails on it).
  datatype Error = Structured(code: Code, retryAfter: int) | Foreign

  lemma {:induction false} SubsetSize<T>(a: set<T>, b: set<T>)
    requires a <= b
    ensures |a| <= |b|
  {
    if a != {} {
      var x :| x in a;
      SubsetSize(a - {x}, b - {x});
    }
  }

  function Max(a: int, b: int): int { if a >= b then a else b }

  function Min(a: int, b: int): int { if a <= b then a else b }
}

// Go durations are int64 nanoseconds: products and shifts wrap silently, and
// subtracting two instants saturates.
module Int64 {
  const MAX := 0x7fff_ffff_ffff_ffff
  const MIN := -0x8000_0000_0000_0000
  const SPAN := 0x1_0000_0000_0000_0000
  const SECOND := 1_000_000_000

  predicate Fits(x: int) { MIN <= x <= MAX }

  function Wrap(x: int): (r: int)
    ensures Fits(r)
    ensures Fits(x) <==> r == x
  {
    (x - MIN) % SPAN + MIN
  }

  function Pow2(k: nat): (p: nat)
    ensures p >= 1
  {
    if k == 0 then 1 else 2 * Pow2(k - 1)
  }

  function Shl(x: int, k: nat): int { Wrap(x * Pow2(k)) }

  function Saturate(x: int): int {
    if x > MAX then MAX else if x < MIN then MIN else x
  }
}
