// How a probe is lost: the exact step that loses it, and runs in which it happens
// under every configuration, with a limiter that is a real token bucket.

module GuardStranding {
  import opened Domain
  import opened Breaker
  import opened GuardProtocol
  import opened GuardSafety

  // ---------------------------------------------------------------------------
  // The step that loses a probe

  ghost predicate NoOtherInFlight(s: Guard, id: nat) {
    forall j :: 0 <= j < |s.tickets| && j != id ==> !InFlight(s.tickets[j])
  }

  ghost predicate NoOtherServerInFlight(s: Guard, id: nat) {
    forall j :: 0 <= j < |s.tickets| && j != id && s.tickets[j].mode == Server ==> !InFlight(s.tickets[j])
  }

  // The limiter turns away the last call in progress while a probe is out.
  ghost predicate LosesGeneralProbe(s: Guard, st: Step) {
    s.br.general.probing && st.Limit? && !st.allow && At(s, st.id, Checked) && NoOtherInFlight(s, st.id)
  }

  predicate TurnedAway(c: Setup, s: Guard, st: Step) {
    || (st.Limit? && !st.allow && At(s, st.id, Checked))
    || (st.Acquire? && At(s, st.id, Allowed) && s.slots >= c.maxConcurrency)
  }

  // The limiter or the semaphore turns away the last server call in progress
  // while a session probe is out.
  ghost predicate LosesSessionProbe(c: Setup, s: Guard, st: Step) {
    && s.br.session.probing && TurnedAway(c, s, st)
    && s.tickets[st.id].mode == Server && NoOtherServerInFlight(s, st.id)
  }

  // One step strands the general breaker exactly when it is such a rejection.
  lemma StrandsIff(c: Setup, s: Guard, st: Step)
    requires ValidSetup(c) && Inv(c, s) && !GeneralStranded(s)
    ensures GeneralStranded(Next(c, s, st)) <==> LosesGeneralProbe(s, st)
  {
    hide GeneralProbeOk, SessionProbeOk, TicketsOk, BreakerOk, BlockedHint, Observe;
    var s' := Next(c, s, st);
    match st
    case Enter(mode, now) =>
      assert forall i :: 0 <= i < |s.tickets| ==> s'.tickets[i] == s.tickets[i];
      assert s'.br == s.br || InFlight(s'.tickets[|s.tickets|]);
    case Limit(id, allow) =>
      if At(s, id, Checked) {
        assert forall j :: 0 <= j < |s.tickets| && j != id ==> s'.tickets[j] == s.tickets[j];
        assert InFlight(s'.tickets[id]) <==> allow;
      }
    case Acquire(id) =>
      if At(s, id, Allowed) {
        assert forall j :: 0 <= j < |s.tickets| && j != id ==> s'.tickets[j] == s.tickets[j];
        if s.slots >= c.maxConcurrency {
          var h := SomeoneHolds(s.tickets);
          assert InFlight(s'.tickets[h]);
        } else {
          assert InFlight(s'.tickets[id]);
        }
      }
    case Release(id, result) =>
      if At(s, id, Holding) {
        assert InFlight(s'.tickets[id]);
      }
    case Record(id, now) =>
      if Records(s, st) {
        RecordResolves(c, s, id, now);
      }
  }

  lemma RecordResolves(c: Setup, s: Guard, id: nat, now: int)
    requires Records(s, Record(id, now))
    ensures !Next(c, s, Record(id, now)).br.general.probing
    ensures s.tickets[id].mode == Server ==> !Next(c, s, Record(id, now)).br.session.probing
    ensures s.tickets[id].mode == Caller ==> Next(c, s, Record(id, now)).br.session == s.br.session
  {
  }

  // The same for the session breaker.
  lemma SessionStrandsIff(c: Setup, s: Guard, st: Step)
    requires ValidSetup(c) && Inv(c, s) && !SessionStranded(s)
    ensures SessionStranded(Next(c, s, st)) <==> LosesSessionProbe(c, s, st)
  {
    hide GeneralProbeOk, SessionProbeOk, TicketsOk, BreakerOk, BlockedHint, Observe;
    var s' := Next(c, s, st);
    match st
    case Enter(mode, now) =>
      assert forall i :: 0 <= i < |s.tickets| ==> s'.tickets[i] == s.tickets[i];
      assert s'.tickets[|s.tickets|].mode == mode;
    case Limit(id, allow) =>
      if At(s, id, Checked) {
        assert forall j :: 0 <= j < |s.tickets| && j != id ==> s'.tickets[j] == s.tickets[j];
        assert s'.tickets[id].mode == s.tickets[id].mode && (InFlight(s'.tickets[id]) <==> allow);
      }
    case Acquire(id) =>
      if At(s, id, Allowed) {
        assert forall j :: 0 <= j < |s.tickets| && j != id ==> s'.tickets[j] == s.tickets[j];
        assert s'.tickets[id].mode == s.tickets[id].mode && (InFlight(s'.tickets[id]) <==> s.slots < c.maxConcurrency);
      }
    case Release(id, result) =>
      if At(s, id, Holding) {
        assert forall j :: 0 <= j < |s.tickets| && j != id ==> s'.tickets[j] == s.tickets[j];
        assert s'.tickets[id].mode == s.tickets[id].mode && InFlight(s'.tickets[id]);
      }
    case Record(id, now) =>
      if Records(s, st) {
        RecordResolves(c, s, id, now);
        assert forall j :: 0 <= j < |s.tickets| && j != id ==> s'.tickets[j] == s.tickets[j];
      }
  }

  ghost predicate LostAt(c: Setup, steps: seq<Step>, i: int) {
    0 <= i < |steps| && LosesGeneralProbe(Run(c, IDLE, steps[..i]), steps[i])
  }

  lemma LostEarlier(c: Setup, steps: seq<Step>, i: int)
    requires steps != []
    ensures var n := |steps| - 1;
            var init, st := steps[..n], steps[n];
            LostAt(c, steps, i) <==> if i == n then LosesGeneralProbe(Run(c, IDLE, init), st) else LostAt(c, init, i)
  {
    hide LosesGeneralProbe, Run;
    var n := |steps| - 1;
    if 0 <= i < n {
      assert steps[..n][..i] == steps[..i];
    }
  }

  // A run ends with the general breaker stranded exactly when some step of it was
  // the limiter turning away the last call in progress while a probe was out.
  lemma {:induction false} GeneralStrandedIff(c: Setup, steps: seq<Step>)
    requires ValidSetup(c)
    ensures GeneralStranded(Run(c, IDLE, steps)) <==> exists i :: LostAt(c, steps, i)
  {
    if steps != [] {
      hide Next, Inv, GeneralStranded, LosesGeneralProbe, LostAt;
      var n := |steps| - 1;
      var init, st := steps[..n], steps[n];
      GeneralStrandedIff(c, init);
      Reachable(c, init);
      GeneralMoves(c, Run(c, IDLE, init), st);
      forall i
        ensures LostAt(c, steps, i) <==>
                  if i == n then LosesGeneralProbe(Run(c, IDLE, init), st) else LostAt(c, init, i)
      {
        LostEarlier(c, steps, i);
      }
      assert LosesGeneralProbe(Run(c, IDLE, init), st) ==> LostAt(c, steps, n);
    }
  }

  lemma GeneralMoves(c: Setup, s: Guard, st: Step)
    requires ValidSetup(c) && Inv(c, s)
    ensures GeneralStranded(Next(c, s, st)) <==> GeneralStranded(s) || LosesGeneralProbe(s, st)
  {
    if GeneralStranded(s) {
      StrandedStep(c, s, st, Caller);
    } else {
      StrandsIff(c, s, st);
    }
  }

  ghost predicate SessionLostAt(c: Setup, steps: seq<Step>, i: int) {
    0 <= i < |steps| && LosesSessionProbe(c, Run(c, IDLE, steps[..i]), steps[i])
  }

  lemma SessionLostEarlier(c: Setup, steps: seq<Step>, i: int)
    requires steps != []
    ensures var n := |steps| - 1;
            var init, st := steps[..n], steps[n];
            SessionLostAt(c, steps, i) <==>
              if i == n then LosesSessionProbe(c, Run(c, IDLE, init), st) else SessionLostAt(c, init, i)
  {
    hide LosesSessionProbe, Run;
    var n := |steps| - 1;
    if 0 <= i < n {
      assert steps[..n][..i] == steps[..i];
    }
  }

  // The same for the session breaker, the limiter or the semaphore, and the last
  // server call in progress.
  lemma {:induction false} SessionStrandedIff(c: Setup, steps: seq<Step>)
    requires ValidSetup(c)
    ensures SessionStranded(Run(c, IDLE, steps)) <==> exists i :: SessionLostAt(c, steps, i)
  {
    if steps != [] {
      hide Next, Inv, SessionStranded, LosesSessionProbe, SessionLostAt;
      var n := |steps| - 1;
      var init, st := steps[..n], steps[n];
      SessionStrandedIff(c, init);
      Reachable(c, init);
      SessionMoves(c, Run(c, IDLE, init), st);
      forall i
        ensures SessionLostAt(c, steps, i) <==>
                  if i == n then LosesSessionProbe(c, Run(c, IDLE, init), st) else SessionLostAt(c, init, i)
      {
        SessionLostEarlier(c, steps, i);
      }
      assert LosesSessionProbe(c, Run(c, IDLE, init), st) ==> SessionLostAt(c, steps, n);
    }
  }

  lemma SessionMoves(c: Setup, s: Guard, st: Step)
    requires ValidSetup(c) && Inv(c, s)
    ensures SessionStranded(Next(c, s, st)) <==> SessionStranded(s) || LosesSessionProbe(c, s, st)
  {
    if SessionStranded(s) {
      SessionStaysStranded(c, s, st);
    } else {
      SessionStrandsIff(c, s, st);
    }
  }

  lemma SessionStaysStranded(c: Setup, s: Guard, st: Step)
    requires ValidSetup(c) && Inv(c, s) && SessionStranded(s)
    ensures SessionStranded(Next(c, s, st))
  {
    hide SlotsOk, GeneralProbeOk, SessionProbeOk, TicketsOk;
  }

  // ---------------------------------------------------------------------------
  // Runs on one clock, with a token bucket for a limiter

  // num tokens every den nanoseconds, at most burst of them.
  datatype Rate = Rate(num: int, den: int, burst: int)

  // What config validation guarantees.
  predicate ValidRate(r: Rate) { r.num >= 1 && r.den >= 1 && r.burst >= 1 }

  // The level is counted in den-ths of a token.
  datatype Bucket = Bucket(level: int, last: int)

  function Refilled(r: Rate, b: Bucket, at: int): int {
    Min(b.level + (at - b.last) * r.num, r.burst * r.den)
  }

  predicate Allows(r: Rate, b: Bucket, at: int) { Refilled(r, b, at) >= r.den }

  function Asked(r: Rate, b: Bucket, at: int): Bucket {
    Bucket(Refilled(r, b, at) - (if Allows(r, b, at) then r.den else 0), at)
  }

  datatype Timed = Timed(step: Step, at: int)

  function StepsOf(trace: seq<Timed>): seq<Step> {
    if trace == [] then [] else StepsOf(trace[..|trace| - 1]) + [trace[|trace| - 1].step]
  }

  function ClockOf(trace: seq<Timed>): int {
    if trace == [] then 0 else trace[|trace| - 1].at
  }

  // The bucket starts full and is asked by every limiter step.
  function BucketOf(r: Rate, trace: seq<Timed>): Bucket {
    if trace == [] then Bucket(r.burst * r.den, 0)
    else
      var b, last := BucketOf(r, trace[..|trace| - 1]), trace[|trace| - 1];
      if last.step.Limit? then Asked(r, b, last.at) else b
  }

  function After(c: Setup, trace: seq<Timed>): Guard { Run(c, IDLE, StepsOf(trace)) }

  // The clock never goes back, every step reads it, and the limiter is asked by
  // calls that are past the breaker only and answers what the bucket says.
  predicate GenuineNext(c: Setup, r: Rate, trace: seq<Timed>, next: Timed) {
    && next.at >= ClockOf(trace)
    && match next.step
       case Enter(_, now) => now == next.at
       case Record(_, now) => now == next.at
       case Limit(id, allow) =>
         At(After(c, trace), id, Checked) && allow == Allows(r, BucketOf(r, trace), next.at)
       case _ => true
  }

  predicate Genuine(c: Setup, r: Rate, trace: seq<Timed>) {
    trace == [] || (Genuine(c, r, trace[..|trace| - 1]) && GenuineNext(c, r, trace[..|trace| - 1], trace[|trace| - 1]))
  }

  // A genuine run, where it has led, and what the clock and the bucket say.
  ghost predicate Leads(c: Setup, r: Rate, trace: seq<Timed>, s: Guard, b: Bucket, at: int) {
    Genuine(c, r, trace) && After(c, trace) == s && BucketOf(r, trace) == b && ClockOf(trace) == at
  }

  // No call is turned away by the limiter.
  predicate Unrefused(trace: seq<Timed>) {
    forall i :: 0 <= i < |trace| && trace[i].step.Limit? ==> trace[i].step.allow
  }

  // No call ends in an upstream-wide fault.
  predicate Faultless(trace: seq<Timed>) {
    forall i :: 0 <= i < |trace| && trace[i].step.Release? ==> Classify(trace[i].step.result) != GeneralFault
  }

  lemma Extend(c: Setup, r: Rate, trace: seq<Timed>, s: Guard, b: Bucket, at: int, next: Timed)
    requires Leads(c, r, trace, s, b, at) && GenuineNext(c, r, trace, next)
    ensures Leads(c, r, trace + [next], Next(c, s, next.step),
                  if next.step.Limit? then Asked(r, b, next.at) else b, next.at)
  {
    hide Next, GenuineNext, Asked;
    var longer := trace + [next];
    assert longer[..|longer| - 1] == trace;
    assert StepsOf(longer)[..|StepsOf(longer)| - 1] == StepsOf(trace);
  }

  // ---------------------------------------------------------------------------
  // Blocks of steps

  function Done(t: Ticket): Ticket {
    t.(phase := Recorded, frees := t.frees + 1, records := t.records + 1)
  }

  // The last step records this result of this call, in this state of the breaker.
  ghost predicate EndsInRecord(c: Setup, trace: seq<Timed>, id: nat, result: Option<Error>, at: int, br: Pair) {
    && trace != [] && trace[|trace| - 1] == Timed(Record(id, at), at)
    && var s := After(c, trace[..|trace| - 1]);
       At(s, id, Freed(result)) && s.br == br
  }

  // A call past the breaker takes a token, a slot, and finishes with a result.
  lemma Serve(c: Setup, r: Rate, trace: seq<Timed>, s: Guard, b: Bucket, was: int, id: nat, at: int,
              result: Option<Error>) returns (longer: seq<Timed>)
    requires ValidSetup(c) && Leads(c, r, trace, s, b, was) && at >= was
    requires At(s, id, Checked) && s.slots < c.maxConcurrency && Allows(r, b, at)
    ensures Leads(c, r, longer,
                  Guard(AfterRecord(c.breaker, s.br, result, at, s.tickets[id].mode), s.slots,
                        s.tickets[id := Done(s.tickets[id])]),
                  Asked(r, b, at), at)
    ensures trace < longer && EndsInRecord(c, longer, id, result, at, s.br)
    ensures Unrefused(trace) ==> Unrefused(longer)
    ensures Faultless(trace) && Classify(result) != GeneralFault ==> Faultless(longer)
  {
    hide Leads, AfterRecord, Asked, Allows, Classify;
    Unpack(c, r, trace, s, b, was);
    Extend(c, r, trace, s, b, was, Timed(Limit(id, true), at));
    var t1, s1 := trace + [Timed(Limit(id, true), at)], Next(c, s, Limit(id, true));
    Unpack(c, r, t1, s1, Asked(r, b, at), at);
    Extend(c, r, t1, s1, Asked(r, b, at), at, Timed(Acquire(id), at));
    var t2, s2 := t1 + [Timed(Acquire(id), at)], Next(c, s1, Acquire(id));
    Unpack(c, r, t2, s2, Asked(r, b, at), at);
    Extend(c, r, t2, s2, Asked(r, b, at), at, Timed(Release(id, result), at));
    var t3, s3 := t2 + [Timed(Release(id, result), at)], Next(c, s2, Release(id, result));
    Unpack(c, r, t3, s3, Asked(r, b, at), at);
    Extend(c, r, t3, s3, Asked(r, b, at), at, Timed(Record(id, at), at));
    longer := t3 + [Timed(Record(id, at), at)];
    var s4 := Next(c, s3, Record(id, at));
    assert s4.tickets == s.tickets[id := Done(s.tickets[id])];
    assert s4.slots == s.slots;
    assert longer[..|longer| - 1] == t3;
  }

  lemma Unpack(c: Setup, r: Rate, trace: seq<Timed>, s: Guard, b: Bucket, at: int)
    requires Leads(c, r, trace, s, b, at)
    ensures After(c, trace) == s && BucketOf(r, trace) == b && ClockOf(trace) == at
  {
  }

  // A call enters; the breaker does not refuse it.
  lemma Arrive(c: Setup, r: Rate, trace: seq<Timed>, s: Guard, b: Bucket, was: int, mode: Mode, at: int)
    returns (longer: seq<Timed>)
    requires Leads(c, r, trace, s, b, was) && at >= was && BlockedHint(s.br, at, mode).None?
    ensures Leads(c, r, longer,
                  s.(br := AfterBlocked(s.br, at, mode), tickets := s.tickets + [Admitted(s.br, at, mode)]), b, at)
    ensures trace < longer && longer[|longer| - 1] == Timed(Enter(mode, at), at) && longer[..|longer| - 1] == trace
    ensures Unrefused(trace) ==> Unrefused(longer)
    ensures Faultless(trace) ==> Faultless(longer)
  {
    hide Leads, BlockedHint, AfterBlocked, Admitted;
    Unpack(c, r, trace, s, b, was);
    Extend(c, r, trace, s, b, was, Timed(Enter(mode, at), at));
    longer := trace + [Timed(Enter(mode, at), at)];
  }

  // After den nanoseconds there is a token; after burst times as many, all of them.
  lemma Refills(r: Rate, b: Bucket, at: int)
    requires ValidRate(r) && b.level >= 0 && at >= b.last + r.den
    ensures Allows(r, b, at) && Asked(r, b, at).level >= 0
    ensures at >= b.last + r.burst * r.den ==> Refilled(r, b, at) == r.burst * r.den
  {
    assert (at - b.last) * r.num >= at - b.last;
    assert r.burst * r.den >= r.den;
  }

  // ---------------------------------------------------------------------------
  // The general breaker: a burst of calls that were held up between the breaker
  // check and the limiter takes the last tokens just before the probe

  // Tickets lo to hi are callers held up before the limiter; no other call is in
  // progress.
  ghost predicate HeldUp(s: Guard, lo: nat, hi: nat) {
    && lo <= hi <= |s.tickets| && s.slots == 0
    && (forall i :: lo <= i < hi ==> s.tickets[i].phase == Checked && s.tickets[i].mode == Caller)
    && (forall i :: 0 <= i < |s.tickets| && !(lo <= i < hi) ==> !InFlight(s.tickets[i]))
  }

  lemma {:induction false} HoldUp(c: Setup, r: Rate, n: nat) returns (trace: seq<Timed>, s: Guard)
    ensures Leads(c, r, trace, s, Bucket(r.burst * r.den, 0), 0)
    ensures HeldUp(s, 0, n) && |s.tickets| == n && s.br == FRESH
  {
    if n == 0 {
      trace, s := [], IDLE;
    } else {
      hide Leads;
      var before, was := HoldUp(c, r, n - 1);
      trace := Arrive(c, r, before, was, Bucket(r.burst * r.den, 0), 0, Caller, 0);
      s := was.(br := AfterBlocked(was.br, 0, Caller), tickets := was.tickets + [Admitted(was.br, 0, Caller)]);
    }
  }

  // The general sub-breaker is closed with k faults counted.
  predicate Faulted(p: Pair, k: int) { p.general == CLOSED.(failures := k) }

  const UNAVAILABLE := Some(Structured(UpstreamUnavailable, 0))

  lemma FaultyCall(c: Setup, r: Rate, trace: seq<Timed>, s: Guard, b: Bucket, was: int, n: nat, k: nat, at: int)
    returns (longer: seq<Timed>, s': Guard)
    requires ValidSetup(c) && Leads(c, r, trace, s, b, was) && at >= was && Allows(r, b, at)
    requires HeldUp(s, 0, n) && Faulted(s.br, k)
    ensures Leads(c, r, longer, s', Asked(r, b, at), at)
    ensures HeldUp(s', 0, n) && s'.br.general == Fail(c.breaker.general, CLOSED.(failures := k), at, 0)
  {
    hide Leads, Allows, Asked;
    var id := |s.tickets|;
    var t1 := Arrive(c, r, trace, s, b, was, Caller, at);
    var s1 := s.(br := AfterBlocked(s.br, at, Caller), tickets := s.tickets + [Admitted(s.br, at, Caller)]);
    longer := Serve(c, r, t1, s1, b, at, id, at, UNAVAILABLE);
    s' := Guard(AfterRecord(c.breaker, s1.br, UNAVAILABLE, at, s1.tickets[id].mode), 0,
                s1.tickets[id := Done(s1.tickets[id])]);
  }

  lemma {:induction false} FaultyCalls(c: Setup, r: Rate, n: nat, k: nat)
    returns (trace: seq<Timed>, s: Guard, b: Bucket)
    requires ValidSetup(c) && ValidRate(r) && k < c.breaker.general.threshold
    ensures Leads(c, r, trace, s, b, k * r.den) && b.level >= 0 && b.last <= k * r.den
    ensures HeldUp(s, 0, n) && Faulted(s.br, k)
  {
    if k == 0 {
      trace, s := HoldUp(c, r, n);
      b := Bucket(r.burst * r.den, 0);
    } else {
      hide Leads, HeldUp, Refilled;
      var before, was, b0 := FaultyCalls(c, r, n, k - 1);
      assert k * r.den == (k - 1) * r.den + r.den;
      Refills(r, b0, k * r.den);
      trace, s := FaultyCall(c, r, before, was, b0, (k - 1) * r.den, n, k - 1, k * r.den);
      b := Asked(r, b0, k * r.den);
    }
  }

  predicate OpenSince(c: Setup, p: Pair, at: int) {
    p.general.open && !p.general.probing && p.general.failures == 0 && p.general.openUntil == Some(at)
  }

  // The threshold-th fault, one token later.
  lemma TripGeneral(c: Setup, r: Rate, n: nat) returns (trace: seq<Timed>, s: Guard, b: Bucket, was: int, until: int)
    requires ValidSetup(c) && ValidRate(r)
    ensures Leads(c, r, trace, s, b, was) && b.level >= 0 && b.last <= was <= until
    ensures HeldUp(s, 0, n) && OpenSince(c, s.br, until)
  {
    hide Leads, HeldUp, Refilled;
    var k := c.breaker.general.threshold - 1;
    var before, s0, b0 := FaultyCalls(c, r, n, k);
    was := (k + 1) * r.den;
    assert was == k * r.den + r.den;
    Refills(r, b0, was);
    trace, s := FaultyCall(c, r, before, s0, b0, k * r.den, n, k, was);
    b := Asked(r, b0, was);
    until := s.br.general.openUntil.value;
  }

  lemma CleanKeepsOpen(c: Setup, p: Pair, at: int, until: int)
    requires OpenSince(c, p, until)
    ensures OpenSince(c, AfterRecord(c.breaker, p, None, at, Caller), until)
  {
    hide Sync;
  }

  predicate HasTokens(r: Rate, b: Bucket, at: int, k: int) { Refilled(r, b, at) == k * r.den }

  lemma SpendToken(r: Rate, b: Bucket, at: int, k: int)
    requires ValidRate(r) && HasTokens(r, b, at, k) && 1 <= k <= r.burst
    ensures Allows(r, b, at) && HasTokens(r, Asked(r, b, at), at, k - 1)
  {
    assert k * r.den == (k - 1) * r.den + r.den && 0 <= (k - 1) * r.den <= r.burst * r.den;
  }

  // The calls that were held up go through one after the other, at one instant.
  lemma {:induction false} Drain(c: Setup, r: Rate, trace: seq<Timed>, s: Guard, b: Bucket, was: int, lo: nat, n: nat,
                                 until: int, at: int)
    returns (longer: seq<Timed>, s': Guard, b': Bucket)
    requires ValidSetup(c) && ValidRate(r) && Leads(c, r, trace, s, b, was) && at >= was
    requires HeldUp(s, lo, n) && OpenSince(c, s.br, until) && n == r.burst
    requires HasTokens(r, b, at, n - lo)
    ensures Leads(c, r, longer, s', b', if lo == n then was else at)
    ensures HeldUp(s', n, n) && OpenSince(c, s'.br, until) && HasTokens(r, b', at, 0)
    decreases n - lo
  {
    if lo == n {
      longer, s', b' := trace, s, b;
    } else {
      hide Leads, OpenSince, AfterRecord, HasTokens, Allows, Asked;
      SpendToken(r, b, at, n - lo);
      var t1 := Serve(c, r, trace, s, b, was, lo, at, None);
      var s1 := Guard(AfterRecord(c.breaker, s.br, None, at, Caller), 0, s.tickets[lo := Done(s.tickets[lo])]);
      CleanKeepsOpen(c, s.br, at, until);
      longer, s', b' := Drain(c, r, t1, s1, Asked(r, b, at), at, lo + 1, n, until, at);
    }
  }

  // Then the probe asks the empty bucket.
  lemma RefuseProbe(c: Setup, r: Rate, trace: seq<Timed>, s: Guard, b: Bucket, was: int, n: nat, until: int, at: int)
    returns (longer: seq<Timed>)
    requires ValidSetup(c) && ValidRate(r) && Leads(c, r, trace, s, b, was) && at >= was && at >= until
    requires HeldUp(s, n, n) && OpenSince(c, s.br, until) && HasTokens(r, b, at, 0)
    ensures Genuine(c, r, longer) && GeneralStranded(After(c, longer))
  {
    hide Leads, Refilled;
    var id := |s.tickets|;
    var t1 := Arrive(c, r, trace, s, b, was, Caller, at);
    var s1 := s.(br := AfterBlocked(s.br, at, Caller), tickets := s.tickets + [Admitted(s.br, at, Caller)]);
    Unpack(c, r, t1, s1, b, at);
    assert !Allows(r, b, at);
    Extend(c, r, t1, s1, b, at, Timed(Limit(id, false), at));
    longer := t1 + [Timed(Limit(id, false), at)];
    var s2 := Next(c, s1, Limit(id, false));
    assert GeneralStranded(s2);
    Unpacked(c, r, longer, s2, Asked(r, b, at), at);
  }

  lemma Unpacked(c: Setup, r: Rate, trace: seq<Timed>, s: Guard, b: Bucket, at: int)
    requires Leads(c, r, trace, s, b, at)
    ensures Genuine(c, r, trace) && After(c, trace) == s
  {
  }

  // Under every valid configuration of breaker, gate and limiter there is a run,
  // on one clock that never goes back and with every answer of the limiter the
  // token bucket's own, after which no call is ever admitted again.
  lemma EveryGuardCanStrand(c: Setup, r: Rate)
    requires ValidSetup(c) && ValidRate(r)
    ensures exists trace :: Genuine(c, r, trace) && GeneralStranded(After(c, trace))
  {
    hide Leads, HeldUp, OpenSince, Refilled, Genuine, GeneralStranded, After;
    var n := r.burst;
    var before, s, b, was, until := TripGeneral(c, r, n);
    var at := until + r.burst * r.den;
    assert r.burst * r.den >= r.den;
    Refills(r, b, at);
    var drained, s', b' := Drain(c, r, before, s, b, was, 0, n, until, at);
    var trace := RefuseProbe(c, r, drained, s', b', if n == 0 then was else at, n, until, at);
    assert Genuine(c, r, trace) && GeneralStranded(After(c, trace));
  }

  // ---------------------------------------------------------------------------
  // The session breaker: callers hold the semaphore when its probe comes

  // The limiter turns nobody away and no call is an upstream-wide fault.
  predicate Mild(trace: seq<Timed>) { Unrefused(trace) && Faultless(trace) }

  const AUTH_FAILED := Some(Structured(UpstreamAuthFailed, 0))

  // Nobody is in progress but callers that hold slots, `held` of them.
  ghost predicate OnlyHolders(s: Guard, held: nat) {
    && s.slots == held && s.br.general == CLOSED
    && forall i :: 0 <= i < |s.tickets| && s.tickets[i].mode == Server ==> !InFlight(s.tickets[i])
  }

  lemma RefusedSession(c: Setup, r: Rate, trace: seq<Timed>, s: Guard, b: Bucket, was: int, k: nat, at: int)
    returns (longer: seq<Timed>, s': Guard)
    requires ValidSetup(c) && Leads(c, r, trace, s, b, was) && at >= was && Allows(r, b, at) && Mild(trace)
    requires OnlyHolders(s, 0) && s.br.session == CLOSED.(failures := k)
    ensures Leads(c, r, longer, s', Asked(r, b, at), at) && Mild(longer)
    ensures OnlyHolders(s', 0) && s'.br.session == Fail(c.breaker.session, CLOSED.(failures := k), at, 0)
  {
    hide Leads, Allows, Asked, TripLength;
    var id := |s.tickets|;
    var t1 := Arrive(c, r, trace, s, b, was, Server, at);
    var s1 := s.(br := AfterBlocked(s.br, at, Server), tickets := s.tickets + [Admitted(s.br, at, Server)]);
    longer := Serve(c, r, t1, s1, b, at, id, at, AUTH_FAILED);
    s' := Guard(AfterRecord(c.breaker, s1.br, AUTH_FAILED, at, s1.tickets[id].mode), 0,
                s1.tickets[id := Done(s1.tickets[id])]);
  }

  lemma {:induction false} RefusedSessions(c: Setup, r: Rate, k: nat) returns (trace: seq<Timed>, s: Guard, b: Bucket)
    requires ValidSetup(c) && ValidRate(r) && k < c.breaker.session.threshold
    ensures Leads(c, r, trace, s, b, k * r.den) && Mild(trace) && b.level >= 0 && b.last <= k * r.den
    ensures OnlyHolders(s, 0) && s.br.session == CLOSED.(failures := k)
  {
    if k == 0 {
      trace, s, b := [], IDLE, Bucket(r.burst * r.den, 0);
    } else {
      hide Leads, OnlyHolders, Refilled, Mild, TripLength;
      var before, was, b0 := RefusedSessions(c, r, k - 1);
      assert k * r.den == (k - 1) * r.den + r.den;
      Refills(r, b0, k * r.den);
      trace, s := RefusedSession(c, r, before, was, b0, (k - 1) * r.den, k - 1, k * r.den);
      b := Asked(r, b0, k * r.den);
    }
  }

  predicate SessionOpenSince(p: Pair, at: int) {
    p.session.open && !p.session.probing && p.session.openUntil == Some(at)
  }

  lemma TripSession(c: Setup, r: Rate) returns (trace: seq<Timed>, s: Guard, b: Bucket, was: int, until: int)
    requires ValidSetup(c) && ValidRate(r)
    ensures Leads(c, r, trace, s, b, was) && Mild(trace) && b.level >= 0 && b.last <= was
    ensures OnlyHolders(s, 0) && SessionOpenSince(s.br, until)
  {
    hide Leads, OnlyHolders, Refilled, Mild, TripLength;
    var k := c.breaker.session.threshold - 1;
    var before, s0, b0 := RefusedSessions(c, r, k);
    was := (k + 1) * r.den;
    assert was == k * r.den + r.den;
    Refills(r, b0, was);
    trace, s := RefusedSession(c, r, before, s0, b0, k * r.den, k, was);
    b := Asked(r, b0, was);
    until := s.br.session.openUntil.value;
  }

  // A call arrives and gets a token; then the semaphore takes it or does not.
  lemma Knock(c: Setup, r: Rate, trace: seq<Timed>, s: Guard, b: Bucket, was: int, mode: Mode, at: int)
    returns (longer: seq<Timed>, s': Guard)
    requires Leads(c, r, trace, s, b, was) && at >= was && Allows(r, b, at)
    requires BlockedHint(s.br, at, mode).None?
    ensures Leads(c, r, longer, s', Asked(r, b, at), at)
    ensures Unrefused(trace) ==> Unrefused(longer)
    ensures Faultless(trace) ==> Faultless(longer)
    ensures s'.br == AfterBlocked(s.br, at, mode)
    ensures s'.slots == s.slots + (if s.slots < c.maxConcurrency then 1 else 0)
    ensures var phase := if s.slots < c.maxConcurrency then Phase.Holding else Rejected(ConcurrencyLimit);
            s'.tickets == s.tickets + [Admitted(s.br, at, mode).(phase := phase)]
  {
    hide Leads, Allows, Asked, AfterBlocked, BlockedHint;
    var id := |s.tickets|;
    var t1 := Arrive(c, r, trace, s, b, was, mode, at);
    var s1 := s.(br := AfterBlocked(s.br, at, mode), tickets := s.tickets + [Admitted(s.br, at, mode)]);
    Unpack(c, r, t1, s1, b, at);
    Extend(c, r, t1, s1, b, at, Timed(Limit(id, true), at));
    var t2, s2 := t1 + [Timed(Limit(id, true), at)], Next(c, s1, Limit(id, true));
    Unpack(c, r, t2, s2, Asked(r, b, at), at);
    Extend(c, r, t2, s2, Asked(r, b, at), at, Timed(Acquire(id), at));
    longer, s' := t2 + [Timed(Acquire(id), at)], Next(c, s2, Acquire(id));
    assert s'.tickets == s.tickets + [s'.tickets[id]];
  }

  // Callers take the slots one after the other, each with its own token.
  lemma {:induction false} Fill(c: Setup, r: Rate, trace: seq<Timed>, s: Guard, b: Bucket, was: int, held: nat,
                                until: int)
    returns (longer: seq<Timed>, s': Guard, b': Bucket, at: int)
    requires ValidSetup(c) && ValidRate(r) && Leads(c, r, trace, s, b, was) && Mild(trace)
    requires b.level >= 0 && b.last <= was && held <= c.maxConcurrency
    requires OnlyHolders(s, held) && SessionOpenSince(s.br, until)
    ensures Leads(c, r, longer, s', b', at) && Mild(longer) && b'.level >= 0 && b'.last <= at
    ensures OnlyHolders(s', c.maxConcurrency) && SessionOpenSince(s'.br, until)
    decreases c.maxConcurrency - held
  {
    if held == c.maxConcurrency {
      longer, s', b', at := trace, s, b, was;
    } else {
      hide Leads, Refilled, Unrefused, Faultless;
      Refills(r, b, was + r.den);
      var t1, s1 := Knock(c, r, trace, s, b, was, Caller, was + r.den);
      longer, s', b', at := Fill(c, r, t1, s1, Asked(r, b, was + r.den), was + r.den, held + 1, until);
    }
  }

  lemma {:induction false} StepsAreSteps(trace: seq<Timed>)
    ensures |StepsOf(trace)| == |trace|
    ensures forall i :: 0 <= i < |trace| ==> StepsOf(trace)[i] == trace[i].step
  {
    if trace != [] {
      StepsAreSteps(trace[..|trace| - 1]);
    }
  }

  // Without upstream-wide faults the general breaker is closed at every point.
  lemma FaultlessNeverOpens(c: Setup, trace: seq<Timed>, i: nat)
    requires ValidSetup(c) && Faultless(trace) && i <= |trace|
    ensures !After(c, trace[..i]).br.general.open
  {
    hide Run, Classify, Inv;
    StepsAreSteps(trace[..i]);
    Reachable(c, []);
    assert Run(c, IDLE, []) == IDLE by { RunNothing(c); }
    HarmlessResultsKeepItClosed(c, IDLE, StepsOf(trace[..i]));
  }

  // Under every valid configuration there is a run in which the limiter turns
  // nobody away and the general breaker never opens, and after which no server
  // call is ever admitted again.
  lemma EverySessionCanStrand(c: Setup, r: Rate)
    requires ValidSetup(c) && ValidRate(r)
    ensures exists trace ::
              && Genuine(c, r, trace) && Unrefused(trace) && SessionStranded(After(c, trace))
              && forall i :: 0 <= i <= |trace| ==> !After(c, trace[..i]).br.general.open
  {
    hide Leads, Refilled, Genuine, Unrefused, Faultless, After;
    var t0, s0, b0, w0, until := TripSession(c, r);
    var t1, s1, b1, w1 := Fill(c, r, t0, s0, b0, w0, 0, until);
    var at := Max(w1, until) + r.den;
    Refills(r, b1, at);
    var trace, s := Knock(c, r, t1, s1, b1, w1, Server, at);
    Unpacked(c, r, trace, s, Asked(r, b1, at), at);
    assert SessionStranded(s);
    forall i | 0 <= i <= |trace| ensures !After(c, trace[..i]).br.general.open {
      FaultlessNeverOpens(c, trace, i);
    }
  }
}
