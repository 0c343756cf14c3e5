// internal/linkedin/client.go and errors.go: which failures are retried, and the
// retry loop under its overall deadline.

module RetryLoop {
  import opened Domain
  import opened Int64
  import B = Breaker

  // ---------------------------------------------------------------------------
  // errors.go

  datatype TransportError = DeadlineExceeded | NetTimeout | OtherTransport

  function ClassifyStatus(status: int, retryAfter: int): Error {
    if status == 401 || status == 403 then Structured(UpstreamAuthFailed, 0)
    else if 300 <= status < 400 then Structured(UpstreamAuthFailed, 0)
    else if status == 404 then Structured(ProfileNotFound, 0)
    else if status == 429 then Structured(UpstreamRateLimited, retryAfter)
    else Structured(UpstreamUnavailable, 0)
  }

  predicate RetryableStatus(status: int) { 500 <= status < 600 }

  predicate RetryableCode(code: Code) { code == UpstreamTimeout || code == UpstreamUnavailable }

  function ClassifyTransport(e: TransportError): Error {
    if e == OtherTransport then Structured(UpstreamUnavailable, 0) else Structured(UpstreamTimeout, 0)
  }

  // ---------------------------------------------------------------------------
  // One attempt

  datatype Reply =
    | Body
    | BadBody                                    // 200, but unreadable or too large
    | BadRequest                                 // the request could not be built
    | Status(status: int, retryAfter: int)       // any other status
    | Failed(error: TransportError)

  // The error of an attempt, None on success.
  function ErrorOf(r: Reply): Option<Error> {
    match r
    case Body => None
    case BadBody => Some(Structured(UpstreamParseError, 0))
    case BadRequest => Some(Structured(Internal, 0))
    case Status(status, ra) => Some(ClassifyStatus(status, ra))
    case Failed(e) => Some(ClassifyTransport(e))
  }

  predicate SessionRefused(r: Reply) {
    r.Status? && (r.status == 401 || r.status == 403 || 300 <= r.status < 400)
  }

  predicate NobodysFault(r: Reply) {
    r.Body? || r.BadRequest? || (r.Status? && r.status == 404)
  }

  // What the guard's breakers make of an attempt's reply, through both error
  // classifications: a refused session is the session breaker's business, a
  // result, a missing profile or a request that was never sent is nobody's, and
  // everything else is an upstream-wide fault; only a 429 can stretch a cooldown.
  lemma FaultOfReply(r: Reply)
    ensures B.Classify(ErrorOf(r)) == B.AuthFault <==> SessionRefused(r)
    ensures B.Classify(ErrorOf(r)) == B.NoFault <==> NobodysFault(r)
    ensures B.RetryAfterOf(ErrorOf(r)) == if r.Status? && r.status == 429 then r.retryAfter else 0
    ensures (ErrorOf(r).Some? && ErrorOf(r).value.code == ProfileNotFound) <==> r.Status? && r.status == 404
  {
  }

  predicate Retryable(r: Reply, ctxDone: bool) {
    match r
    case Status(status, _) => RetryableStatus(status)
    case Failed(e) => RetryableCode(ClassifyTransport(e).code) && !ctxDone
    case _ => false
  }

  // ---------------------------------------------------------------------------
  // The loop

  datatype Config = Config(timeout: int, maxRetries: int, retryBackoff: int)

  // What config validation and the int64 of a duration guarantee.
  predicate SaneConfig(c: Config) {
    && 0 < c.timeout <= MAX && c.maxRetries >= 0
    && (c.maxRetries > 0 ==> c.retryBackoff > 0) && c.retryBackoff <= MAX
  }

  // The retry after attempt k is allowed, and there is time left to get there.
  predicate InTime(c: Config, k: nat) {
    k < c.maxRetries && c.retryBackoff * (Pow2(k) - 1) < c.timeout
  }

  // The k-th backoff and its largest jitter together are still a duration.
  predicate FitsAt(c: Config, k: nat) {
    c.retryBackoff * Pow2(k) + c.retryBackoff * Pow2(k) / 2 <= MAX
  }

  // Every backoff there is time for fits.
  ghost predicate Roomy(c: Config) {
    forall k: nat :: InTime(c, k) ==> FitsAt(c, k)
  }

  // Every backoff there is time for before attempt k fits.
  ghost predicate FitsBelow(c: Config, k: nat) {
    forall i: nat :: i < k && InTime(c, i) ==> FitsAt(c, i)
  }

  // Everything outside the loop's control, by attempt number: what comes back and
  // how long it takes, the random jitter, whether the backoff timer wins the
  // select and how late. The context is done `doneAt` after the call: at the
  // timeout, or before if the caller's own context ends.
  datatype World = World(reply: nat -> Reply, took: nat -> nat, random: nat -> nat,
                         timerWins: nat -> bool, late: nat -> nat, doneAt: nat)

  predicate ValidWorld(c: Config, w: World) { w.doneAt <= c.timeout }

  // A request under a finished context fails at once.
  function ReplyAt(w: World, k: nat, start: int): Reply {
    if start >= w.doneAt then Failed(DeadlineExceeded) else w.reply(k)
  }

  function TookAt(w: World, k: nat, start: int): nat {
    if start >= w.doneAt then 0 else w.took(k)
  }

  predicate Verdict(w: World, k: nat, start: int) {
    Retryable(ReplyAt(w, k, start), start + TookAt(w, k, start) >= w.doneAt)
  }

  // The wait before attempt k+1: a doubled backoff and up to half of it again,
  // in Go's wrapping arithmetic.
  function Backoff(c: Config, k: nat): int { Shl(c.retryBackoff, k) }

  // Go's division truncates towards zero.
  function Half(x: int): int { if x < 0 then -(-x / 2) else x / 2 }

  // The random draw panics if its bound is not positive.
  predicate Panics(c: Config, k: nat) { Half(Backoff(c, k)) + 1 <= 0 }

  function Jitter(c: Config, w: World, k: nat): int {
    if Panics(c, k) then 0 else w.random(k) % (Half(Backoff(c, k)) + 1)
  }

  function Wait(c: Config, w: World, k: nat): int { Wrap(Backoff(c, k) + Jitter(c, w, k)) }

  // When attempt k starts, counted from the call, if the loop gets that far.
  function StartOf(c: Config, w: World, k: nat): int {
    if k == 0 then 0
    else
      var start := StartOf(c, w, k - 1);
      start + TookAt(w, k - 1, start) + Max(Wait(c, w, k - 1), 0) + w.late(k - 1)
  }

  // Attempt k asks for another one and the attempts are not used up.
  predicate WantsRetry(c: Config, w: World, k: nat) {
    k < c.maxRetries && Verdict(w, k, StartOf(c, w, k))
  }

  predicate Continues(c: Config, w: World, k: nat) { WantsRetry(c, w, k) && !Panics(c, k) && w.timerWins(k) }

  ghost predicate Reaches(c: Config, w: World, k: nat) {
    forall i: nat :: i < k ==> Continues(c, w, i)
  }

  lemma Doubling(b: int, p: int)
    ensures b * (2 * p - 1) == b * (p - 1) + b * p
    ensures b * (p - 1) == b * p - b
  {
  }

  // Only an attempt that started in time asks for a retry.
  lemma RetryStartedInTime(c: Config, w: World, k: nat)
    requires ValidWorld(c, w)
    ensures WantsRetry(c, w, k) ==> StartOf(c, w, k) < c.timeout
  {
  }

  lemma BackoffIsExact(c: Config, w: World, k: nat)
    requires SaneConfig(c) && InTime(c, k) && FitsAt(c, k)
    ensures Backoff(c, k) == c.retryBackoff * Pow2(k) <= c.timeout + c.retryBackoff
    ensures 0 <= Jitter(c, w, k) <= Backoff(c, k) / 2 && !Panics(c, k)
    ensures Wait(c, w, k) == Backoff(c, k) + Jitter(c, w, k)
  {
    hide Pow2, Wrap;
    Doubling(c.retryBackoff, Pow2(k));
    TimesAtLeast(c.retryBackoff, Pow2(k));
  }

  lemma StartGrows(c: Config, w: World, k: nat)
    ensures StartOf(c, w, k + 1) >= StartOf(c, w, k) + Wait(c, w, k)
  {
  }

  // Reaching attempt k takes at least retryBackoff * (2^k - 1), if the backoffs
  // before it fit.
  lemma {:induction false} ReachingTakesTime(c: Config, w: World, k: nat)
    requires SaneConfig(c) && ValidWorld(c, w) && Reaches(c, w, k) && FitsBelow(c, k)
    ensures c.retryBackoff * (Pow2(k) - 1) <= StartOf(c, w, k)
  {
    hide Wait, Backoff, Jitter, Verdict, StartOf;
    if k == 0 {
      assert StartOf(c, w, 0) == 0 by { StartsAtZero(c, w); }
    } else {
      assert Continues(c, w, k - 1);
      ReachingTakesTime(c, w, k - 1);
      RetryStartedInTime(c, w, k - 1);
      assert InTime(c, k - 1);
      BackoffIsExact(c, w, k - 1);
      StartGrows(c, w, k - 1);
      Doubling(c.retryBackoff, Pow2(k - 1));
    }
  }

  lemma StartsAtZero(c: Config, w: World)
    ensures StartOf(c, w, 0) == 0
  {
  }

  // So every backoff the loop computes is exact and bounded by the timeout: the
  // deadline, and nothing else, keeps the shift from overflowing.
  lemma {:induction false} BackoffsFit(c: Config, w: World, k: nat)
    requires SaneConfig(c) && ValidWorld(c, w) && Reaches(c, w, k) && WantsRetry(c, w, k) && FitsBelow(c, k + 1)
    ensures Backoff(c, k) == c.retryBackoff * Pow2(k) <= c.timeout + c.retryBackoff
    ensures !Panics(c, k)
    ensures Wait(c, w, k) == Backoff(c, k) + Jitter(c, w, k) >= c.retryBackoff * Pow2(k)
  {
    ReachingTakesTime(c, w, k);
    RetryStartedInTime(c, w, k);
    assert InTime(c, k);
    BackoffIsExact(c, w, k);
  }

  // The arithmetic of the wait after attempt k is what it reads as.
  predicate WaitIsExact(c: Config, w: World, k: nat) {
    Backoff(c, k) == c.retryBackoff * Pow2(k) && Wait(c, w, k) == Backoff(c, k) + Jitter(c, w, k)
  }

  ghost predicate WaitsAreExact(c: Config, w: World) {
    forall k: nat :: Reaches(c, w, k) && WantsRetry(c, w, k) ==> WaitIsExact(c, w, k)
  }

  // An upstream that fails instantly, and a jitter that is largest at attempt k.
  function FailingFast(c: Config, k: nat): World
    requires c.timeout >= 0
  {
    World(_ => Status(503, 0), _ => 0, n => if n == k then Max(c.retryBackoff * Pow2(k) / 2, 0) else 0,
          _ => true, _ => 0, c.timeout)
  }

  lemma TimesAtLeast(b: int, p: int)
    requires b >= 1 && p >= 0
    ensures b * p >= p
  {
  }

  lemma {:induction false} Pow2Grows(i: nat, k: nat)
    requires i <= k
    ensures Pow2(i) <= Pow2(k)
  {
    if i < k { Pow2Grows(i, k - 1); }
  }

  lemma InTimeBefore(c: Config, i: nat, k: nat)
    requires SaneConfig(c) && InTime(c, k) && i <= k
    ensures InTime(c, i)
  {
    hide Pow2;
    Pow2Grows(i, k);
    TimesGrows(c.retryBackoff, Pow2(i) - 1, Pow2(k) - 1);
  }

  lemma TimesGrows(b: int, p: int, q: int)
    requires b >= 0 && p <= q
    ensures b * p <= b * q
  {
  }

  lemma NoJitter(c: Config, w: World, k: nat)
    requires w.random(k) == 0
    ensures Jitter(c, w, k) == 0
  {
    hide Backoff;
  }

  lemma FailingFastTurn(c: Config, k: nat, i: nat)
    requires c.timeout >= 0 && i < c.maxRetries && i != k && !Panics(c, i)
    ensures StartOf(c, FailingFast(c, k), i) < c.timeout ==> Continues(c, FailingFast(c, k), i)
    ensures Jitter(c, FailingFast(c, k), i) == 0
    ensures StartOf(c, FailingFast(c, k), i) < c.timeout ==>
              StartOf(c, FailingFast(c, k), i + 1)
              == StartOf(c, FailingFast(c, k), i) + Max(Wait(c, FailingFast(c, k), i), 0)
  {
    hide Backoff, Pow2, Wrap, Wait, Jitter;
    NoJitter(c, FailingFast(c, k), i);
  }

  // Against that upstream, attempt i starts exactly after the doubled backoffs.
  lemma {:induction false} FailingFastStart(c: Config, k: nat, i: nat)
    requires SaneConfig(c) && InTime(c, k) && i <= k
    requires forall j: nat :: j < k ==> FitsAt(c, j)
    ensures Reaches(c, FailingFast(c, k), i)
    ensures StartOf(c, FailingFast(c, k), i) == c.retryBackoff * (Pow2(i) - 1)
  {
    hide Wait, Jitter, Backoff, Verdict, StartOf, FitsAt, FailingFast;
    var w := FailingFast(c, k);
    if i == 0 {
      StartsAtZero(c, w);
    } else {
      FailingFastStart(c, k, i - 1);
      InTimeBefore(c, i - 1, k);
      BackoffIsExact(c, w, i - 1);
      FailingFastTurn(c, k, i - 1);
      Doubling(c.retryBackoff, Pow2(i - 1));
    }
  }

  lemma Remainder(n: nat)
    ensures n % (n + 1) == n
  {
  }

  // With the largest jitter the sum leaves the range.
  lemma LargestJitter(c: Config, w: World, k: nat, half: nat)
    requires Backoff(c, k) >= 0 && half == Backoff(c, k) / 2 && w.random(k) == half
    ensures Jitter(c, w, k) == half && !Panics(c, k)
  {
    hide Shl;
    Remainder(half);
  }

  lemma TightWait(c: Config, k: nat)
    requires SaneConfig(c) && InTime(c, k) && !FitsAt(c, k)
    ensures !WaitIsExact(c, FailingFast(c, k), k)
  {
    hide Shl, Pow2, Wrap, Jitter, Backoff;
    var w, b := FailingFast(c, k), c.retryBackoff * Pow2(k);
    TimesAtLeast(c.retryBackoff, Pow2(k));
    if Backoff(c, k) == b {
      LargestJitter(c, w, k, b / 2);
      assert !Fits(b + b / 2);
    }
  }

  lemma {:induction false} FirstTight(c: Config, k: nat) returns (first: nat)
    requires SaneConfig(c) && InTime(c, k) && !FitsAt(c, k)
    ensures InTime(c, first) && !FitsAt(c, first) && forall j: nat :: j < first ==> FitsAt(c, j)
  {
    if j: nat :| j < k && !FitsAt(c, j) {
      InTimeBefore(c, j, k);
      first := FirstTight(c, j);
    } else {
      first := k;
    }
  }

  // The waits of a configuration are exact in every world exactly when one and a
  // half times every backoff the timeout leaves time for is a duration.
  lemma {:induction false} WaitsAreExactIff(c: Config)
    requires SaneConfig(c)
    ensures (forall w :: ValidWorld(c, w) ==> WaitsAreExact(c, w)) <==> Roomy(c)
  {
    hide WaitIsExact, FitsAt, InTime, Reaches, WantsRetry;
    if Roomy(c) {
      forall w, k: nat | ValidWorld(c, w) && Reaches(c, w, k) && WantsRetry(c, w, k) ensures WaitIsExact(c, w, k) {
        ExactWhenRoomy(c, w, k);
      }
    } else {
      var k: nat :| InTime(c, k) && !FitsAt(c, k);
      var first := FirstTight(c, k);
      var w := FailingFast(c, first);
      FailingFastAsks(c, first);
      TightWait(c, first);
      assert ValidWorld(c, w) && !WaitsAreExact(c, w);
    }
  }

  lemma ExactWhenRoomy(c: Config, w: World, k: nat)
    requires SaneConfig(c) && Roomy(c) && ValidWorld(c, w) && Reaches(c, w, k) && WantsRetry(c, w, k)
    ensures WaitIsExact(c, w, k)
  {
    BackoffsFit(c, w, k);
  }

  lemma FailingFastAsks(c: Config, k: nat)
    requires SaneConfig(c) && InTime(c, k) && forall j: nat :: j < k ==> FitsAt(c, j)
    ensures Reaches(c, FailingFast(c, k), k) && WantsRetry(c, FailingFast(c, k), k)
  {
    FailingFastStart(c, k, k);
  }

  // In particular when the timeout and one backoff together stay below 194 years.
  lemma ShortTimeoutsAreRoomy(c: Config)
    requires SaneConfig(c) && 3 * (c.timeout + c.retryBackoff) <= 2 * MAX
    ensures Roomy(c)
  {
    forall k: nat | InTime(c, k) ensures FitsAt(c, k) {
      Doubling(c.retryBackoff, Pow2(k));
    }
  }

  lemma {:induction false} Pow2Exceeds(k: nat)
    ensures Pow2(k) > k
  {
    if k > 0 { Pow2Exceeds(k - 1); }
  }

  // Without the deadline the late retries would overflow, whatever the backoff.
  lemma ShiftAloneOverflows(b: int, k: nat)
    requires 0 < b <= MAX && k >= MAX
    ensures Shl(b, k) != b * Pow2(k)
  {
    hide Pow2, Wrap;
    Pow2Exceeds(k);
    TimesAtLeast(b, Pow2(k));
    assert !Fits(b * Pow2(k));
  }

  // ---------------------------------------------------------------------------
  // The random draw

  // A backoff there is time for does not fit, and it is out of range itself or
  // another attempt may follow it.
  ghost predicate CanPanic(c: Config) {
    exists k: nat :: InTime(c, k) && !FitsAt(c, k) && (c.retryBackoff * Pow2(k) > MAX || k + 1 < c.maxRetries)
  }

  ghost predicate PanicsIn(c: Config, w: World, k: nat) { Reaches(c, w, k) && WantsRetry(c, w, k) && Panics(c, k) }

  lemma WrapsBelowZero(x: int)
    requires MAX < x <= 2 * MAX
    ensures Wrap(x) == x - SPAN <= -2
  {
  }

  lemma PanicNeedsTight(c: Config, w: World, k: nat)
    requires SaneConfig(c) && ValidWorld(c, w) && PanicsIn(c, w, k)
    ensures CanPanic(c)
  {
    hide Wait, Jitter, Verdict, StartOf, Pow2;
    RetryStartedInTime(c, w, k);
    if FitsBelow(c, k) {
      ReachingTakesTime(c, w, k);
      assert InTime(c, k);
      TimesAtLeast(c.retryBackoff, Pow2(k));
      assert c.retryBackoff * Pow2(k) > MAX;
    } else {
      var i: nat :| i < k && InTime(c, i) && !FitsAt(c, i);
      assert i + 1 < c.maxRetries;
    }
  }

  lemma DoubledFits(c: Config, k: nat)
    requires SaneConfig(c) && InTime(c, k) && forall j: nat :: j < k ==> FitsAt(c, j)
    ensures 0 < c.retryBackoff * Pow2(k) <= 2 * MAX
  {
    if k == 0 {
      assert Pow2(0) == 1;
    } else {
      Doubled(c.retryBackoff, k - 1);
      hide Pow2;
      assert FitsAt(c, k - 1);
      TimesAtLeast(c.retryBackoff, Pow2(k - 1));
    }
  }

  lemma Doubled(b: int, k: nat)
    ensures b * Pow2(k + 1) == 2 * (b * Pow2(k))
  {
  }

  // A wait that wraps round is over at once, and the next attempt's backoff is out
  // of range.
  lemma WrappedWait(c: Config, k: nat)
    requires SaneConfig(c) && InTime(c, k) && !FitsAt(c, k) && forall j: nat :: j < k ==> FitsAt(c, j)
    requires c.retryBackoff * Pow2(k) <= MAX && k + 1 < c.maxRetries
    ensures PanicsIn(c, FailingFast(c, k), k + 1)
  {
    hide Jitter, Backoff, Verdict, StartOf, Wrap, Pow2;
    var w, b := FailingFast(c, k), c.retryBackoff * Pow2(k);
    TimesAtLeast(c.retryBackoff, Pow2(k));
    FailingFastAsks(c, k);
    FailingFastStart(c, k, k);
    InRange(c, k);
    LargestJitter(c, w, k, b / 2);
    WrapsBelowZero(b + b / 2);
    FailingFastGoesOn(c, k);
    Doubled(c.retryBackoff, k);
    WrapsBelowZero(2 * b);
    OutOfRange(c, k + 1);
  }

  lemma InRange(c: Config, k: nat)
    requires 0 <= c.retryBackoff * Pow2(k) <= MAX
    ensures Backoff(c, k) == c.retryBackoff * Pow2(k)
  {
  }

  lemma OutOfRange(c: Config, k: nat)
    requires MAX < c.retryBackoff * Pow2(k) <= 2 * MAX
    ensures Panics(c, k)
  {
    WrapsBelowZero(c.retryBackoff * Pow2(k));
    hide Wrap, Pow2;
  }

  lemma FailingFastGoesOn(c: Config, k: nat)
    requires c.timeout > 0 && k + 1 < c.maxRetries && !Panics(c, k)
    requires StartOf(c, FailingFast(c, k), k) < c.timeout && Wait(c, FailingFast(c, k), k) <= 0
    ensures Continues(c, FailingFast(c, k), k) && WantsRetry(c, FailingFast(c, k), k + 1)
  {
    hide Backoff, Pow2, Wrap, Wait, Jitter, Panics;
  }

  // The loop panics in some world exactly when a backoff the timeout leaves time
  // for does not fit and, unless it is out of range itself, is not the last.
  lemma {:induction false} PanicsIff(c: Config)
    requires SaneConfig(c)
    ensures (exists w, k: nat :: ValidWorld(c, w) && PanicsIn(c, w, k)) <==> CanPanic(c)
  {
    hide FitsAt, InTime, Reaches, WantsRetry, Panics, Pow2;
    if CanPanic(c) {
      var k: nat :| InTime(c, k) && !FitsAt(c, k) && (c.retryBackoff * Pow2(k) > MAX || k + 1 < c.maxRetries);
      var first := FirstTight(c, k);
      FirstIsNoLater(c, first, k);
      if c.retryBackoff * Pow2(first) > MAX {
        DoubledFits(c, first);
        OutOfRange(c, first);
        FailingFastAsks(c, first);
        assert PanicsIn(c, FailingFast(c, first), first);
      } else {
        WrappedWait(c, first);
        assert PanicsIn(c, FailingFast(c, first), first + 1);
      }
    } else if w, k: nat :| ValidWorld(c, w) && PanicsIn(c, w, k) {
      PanicNeedsTight(c, w, k);
      assert false;
    }
  }

  lemma FirstIsNoLater(c: Config, first: nat, k: nat)
    requires InTime(c, k) && !FitsAt(c, k) && forall j: nat :: j < first ==> FitsAt(c, j)
    ensures first == k || first + 1 < c.maxRetries
  {
  }

  predicate Transient(e: Option<Error>) {
    e.Some? && e.value.Structured? && (e.value.code == UpstreamTimeout || e.value.code == UpstreamUnavailable)
  }

  // Whatever is retried was classified as a timeout or as unavailable.
  lemma RetriesOnlyTransient(r: Reply, ctxDone: bool)
    requires Retryable(r, ctxDone)
    ensures Transient(ErrorOf(r)) && B.Classify(ErrorOf(r)) == B.GeneralFault
  {
  }

  // What attempt k comes back with.
  function OutcomeOf(c: Config, w: World, k: nat): Option<Error> {
    ErrorOf(ReplyAt(w, k, StartOf(c, w, k)))
  }

  lemma RetriedWereTransient(c: Config, w: World, n: nat)
    requires Reaches(c, w, n)
    ensures forall i: nat :: i < n ==> Transient(OutcomeOf(c, w, i))
  {
    forall i: nat | i < n ensures Transient(OutcomeOf(c, w, i)) {
      assert Continues(c, w, i);
      var start := StartOf(c, w, i);
      RetriesOnlyTransient(ReplyAt(w, i, start), start + TookAt(w, i, start) >= w.doneAt);
    }
  }

  // The error each reply is reported as.
  lemma ErrorOfReply(r: Reply)
    ensures ErrorOf(r) == match r
              case Body => None
              case BadBody => Some(Structured(UpstreamParseError, 0))
              case BadRequest => Some(Structured(Internal, 0))
              case Failed(OtherTransport) => Some(Structured(UpstreamUnavailable, 0))
              case Failed(_) => Some(Structured(UpstreamTimeout, 0))
              case Status(status, ra) =>
                if status == 404 then Some(Structured(ProfileNotFound, 0))
                else if status == 429 then Some(Structured(UpstreamRateLimited, ra))
                else if status == 401 || status == 403 || 300 <= status <= 399 then
                  Some(Structured(UpstreamAuthFailed, 0))
                else Some(Structured(UpstreamUnavailable, 0))
  {
  }

  // What is tried again: an attempt that began before the deadline and came back
  // with a status from 500 to 599, or with no response while there still was time.
  lemma RetriesIff(c: Config, w: World, k: nat)
    ensures var start := StartOf(c, w, k);
            WantsRetry(c, w, k) <==>
              && k < c.maxRetries && start < w.doneAt
              && match w.reply(k)
                 case Status(status, _) => 500 <= status <= 599
                 case Failed(_) => start + w.took(k) < w.doneAt
                 case _ => false
  {
    hide StartOf;
  }

  lemma NoErrorNoRetry(r: Reply, ctxDone: bool)
    ensures ErrorOf(r).None? ==> !Retryable(r, ctxDone)
  {
  }

  lemma VerdictIs(w: World, k: nat, start: int)
    ensures Verdict(w, k, start) == Retryable(ReplyAt(w, k, start), start + TookAt(w, k, start) >= w.doneAt)
  {
  }

  // One turn of the loop: another attempt, after the wait the code computes.
  lemma NextTurn(c: Config, w: World, k: nat)
    requires Reaches(c, w, k) && WantsRetry(c, w, k) && !Panics(c, k)
    ensures var backoff := Shl(c.retryBackoff, k);
            && Half(backoff) + 1 > 0
            && StartOf(c, w, k + 1) == StartOf(c, w, k) + TookAt(w, k, StartOf(c, w, k))
                 + Max(Wrap(backoff + w.random(k) % (Half(backoff) + 1)), 0) + w.late(k)
    ensures w.timerWins(k) ==> Reaches(c, w, k + 1)
  {
  }

  method Get(c: Config, w: World) returns (err: Option<Error>, attempts: nat, retries: nat, panicked: bool)
    requires SaneConfig(c) && ValidWorld(c, w)
    ensures 1 <= attempts <= c.maxRetries + 1
    ensures retries == attempts - 1
    // It stops at the first attempt that does not lead to another one, with that
    // attempt's outcome.
    ensures Reaches(c, w, attempts - 1) && !Continues(c, w, attempts - 1)
    ensures err == OutcomeOf(c, w, attempts - 1)
    ensures forall i: nat :: i < attempts - 1 ==> Transient(OutcomeOf(c, w, i))
    // Or there the random draw panics, which only tight configurations allow.
    ensures panicked <==> PanicsIn(c, w, attempts - 1)
    ensures panicked ==> CanPanic(c)
  {
    hide Shl, Pow2, Verdict, ErrorOf, ReplyAt, TookAt, Retryable, Transient, CanPanic, Half, Wrap;
    var attempt, elapsed := 0, 0;
    retries, panicked := 0, false;
    while true
      invariant 0 <= attempt <= c.maxRetries && retries == attempt && !panicked
      invariant elapsed == StartOf(c, w, attempt)
      invariant Reaches(c, w, attempt)
      decreases c.maxRetries - attempt
    {
      hide StartOf, Reaches;
      NoErrorNoRetry(ReplyAt(w, attempt, elapsed), elapsed + TookAt(w, attempt, elapsed) >= w.doneAt);
      VerdictIs(w, attempt, elapsed);
      var reply, took := ReplyAt(w, attempt, elapsed), TookAt(w, attempt, elapsed);
      err := ErrorOf(reply);
      attempts := attempt + 1;
      var retry := Retryable(reply, elapsed + took >= w.doneAt);
      if err.None? {
        break;
      }
      if attempt >= c.maxRetries || !retry {
        break;
      }
      var backoff := Shl(c.retryBackoff, attempt);
      var bound := Half(backoff) + 1;
      if bound <= 0 {
        PanicNeedsTight(c, w, attempt);
        panicked := true;
        break;
      }
      NextTurn(c, w, attempt);
      var jitter := w.random(attempt) % bound;
      var wait := Max(Wrap(backoff + jitter), 0);
      if !w.timerWins(attempt) {
        break;
      }
      elapsed := elapsed + took + wait + w.late(attempt);
      retries := retries + 1;
      attempt := attempt + 1;
    }
    RetriedWereTransient(c, w, attempt);
  }
}
