// internal/upstream/guard.go: the Guard object and the release function it hands
// out, proved to perform the protocol's steps.

module UpstreamGuard {
  import opened Domain
  import opened Breaker
  import opened GuardProtocol

  datatype Rejections = Rejections(circuitOpen: nat, rate: nat, concurrency: nat)

  function EnterSteps(id: nat, mode: Mode, now: int, allow: bool): seq<Step> {
    [Enter(mode, now), Limit(id, allow), Acquire(id)]
  }

  // The error a rejected Enter returns.
  function RejectionError(reason: Reason): Error {
    match reason
    case CircuitOpen(hint) => Structured(UpstreamUnavailable, hint)
    case RateExceeded => Structured(UpstreamRateLimited, 1)
    case ConcurrencyLimit => Structured(UpstreamUnavailable, 0)
  }

  lemma RunThree(c: Setup, s: Guard, a: Step, b: Step, d: Step)
    ensures Run(c, s, [a, b, d]) == Next(c, Next(c, Next(c, s, a), b), d)
  {
    assert [a, b, d][..2] == [a, b] && [a, b][..1] == [a] && [a][..0] == [];
    assert Run(c, s, [a]) == Next(c, Run(c, s, []), a);
    assert Run(c, s, [a, b]) == Next(c, Run(c, s, [a]), b);
  }

  lemma RunTwo(c: Setup, s: Guard, a: Step, b: Step)
    ensures Run(c, s, [a, b]) == Next(c, Next(c, s, a), b)
  {
    assert [a, b][..1] == [a] && [a][..0] == [];
    assert Run(c, s, [a]) == Next(c, Run(c, s, []), a);
  }

  // A sub-breaker before its deadline, or with a probe out.
  predicate Blocks(s: Sub, now: int) { s.openUntil.Some? && (now < s.openUntil.value || s.probing) }

  // A server call is refused by either sub-breaker, a caller's by the general one
  // only, and the general one's hint comes first.
  lemma WhoIsRefused(p: Pair, now: int, mode: Mode)
    ensures BlockedHint(p, now, mode).Some? <==> Blocks(p.general, now) || (mode == Server && Blocks(p.session, now))
    ensures Blocks(p.general, now) ==> BlockedHint(p, now, mode) == Blocking(p.general, now)
    ensures !Blocks(p.general, now) && BlockedHint(p, now, mode).Some? ==>
              BlockedHint(p, now, mode) == Blocking(p.session, now)
  {
  }

  // The three steps of an Enter nobody interleaves: what the breaker says comes
  // first, then the limiter, then the semaphore.
  lemma EnterOutcome(c: Setup, s: Guard, mode: Mode, now: int, allow: bool)
    ensures
      var id, hint := |s.tickets|, BlockedHint(s.br, now, mode);
      var s' := Run(c, s, [Enter(mode, now), Limit(id, allow), Acquire(id)]);
      && |s'.tickets| == id + 1 && s'.tickets[id].mode == mode
      && s'.br == AfterBlocked(s.br, now, mode)
      && s'.slots == s.slots + (if s'.tickets[id].phase.Holding? then 1 else 0)
      && s'.tickets[id].phase ==
           (if hint.Some? then Rejected(CircuitOpen(hint.value))
            else if !allow then Rejected(RateExceeded)
            else if s.slots < c.maxConcurrency then Holding
            else Rejected(ConcurrencyLimit))
  {
    var id := |s.tickets|;
    RunThree(c, s, Enter(mode, now), Limit(id, allow), Acquire(id));
  }

  // What the clock, the limiter and the upstream do to one visit to the gate.
  datatype Visit = Visit(enterAt: int, allow: bool, error: Option<Error>, doneAt: int)

  // The visit enters, and if it was let in it gives the reservation back with the
  // outcome of its call.
  function VisitSteps(c: Setup, s: Guard, mode: Mode, v: Visit): seq<Step> {
    var id := |s.tickets|;
    var enter := EnterSteps(id, mode, v.enterAt, v.allow);
    enter + if At(Run(c, s, enter), id, Holding) then [GuardProtocol.Release(id, v.error), Record(id, v.doneAt)] else []
  }

  // Visits one after the other.
  function VisitsSteps(c: Setup, s: Guard, mode: Mode, vs: seq<Visit>): seq<Step> {
    if vs == [] then []
    else
      var before := VisitsSteps(c, s, mode, vs[..|vs| - 1]);
      before + VisitSteps(c, Run(c, s, before), mode, vs[|vs| - 1])
  }

  lemma VisitsThen(c: Setup, s: Guard, mode: Mode, vs: seq<Visit>, v: Visit)
    ensures var s' := Run(c, s, VisitsSteps(c, s, mode, vs));
            Run(c, s, VisitsSteps(c, s, mode, vs + [v])) == Run(c, s', VisitSteps(c, s', mode, v))
  {
    hide Run, VisitSteps;
    var s' := Run(c, s, VisitsSteps(c, s, mode, vs));
    assert (vs + [v])[..|vs|] == vs;
    RunConcat(c, s, VisitsSteps(c, s, mode, vs), VisitSteps(c, s', mode, v));
  }

  lemma NoVisits(c: Setup, s: Guard, mode: Mode)
    ensures Run(c, s, VisitsSteps(c, s, mode, [])) == s
  {
  }

  // This ticket has given back whatever it took.
  predicate Settled(t: Ticket) { t.phase.Rejected? || (t.phase.Recorded? && t.frees == 1 && t.records == 1) }

  // Visits took one ticket each and hold nothing any more.
  ghost predicate SettledFrom(was: Guard, s: Guard, mode: Mode, visits: nat) {
    && |s.tickets| == |was.tickets| + visits && was.tickets <= s.tickets && s.slots == was.slots
    && forall i :: |was.tickets| <= i < |s.tickets| ==> s.tickets[i].mode == mode && Settled(s.tickets[i])
  }

  lemma EnterAppends(c: Setup, s: Guard, mode: Mode, now: int, allow: bool)
    ensures var s' := Run(c, s, EnterSteps(|s.tickets|, mode, now, allow));
            && |s'.tickets| == |s.tickets| + 1 && s.tickets <= s'.tickets
            && var t := s'.tickets[|s.tickets|];
               && t.mode == mode && t.frees == 0 && t.records == 0 && (t.phase.Holding? || t.phase.Rejected?)
               && s'.slots == s.slots + (if t.phase.Holding? then 1 else 0)
  {
    hide BlockedHint, AfterBlocked;
    RunThree(c, s, Enter(mode, now), Limit(|s.tickets|, allow), Acquire(|s.tickets|));
  }

  lemma VisitSettles(c: Setup, s: Guard, mode: Mode, v: Visit)
    ensures SettledFrom(s, Run(c, s, VisitSteps(c, s, mode, v)), mode, 1)
  {
    hide AfterRecord, Run;
    var id := |s.tickets|;
    var enter := EnterSteps(id, mode, v.enterAt, v.allow);
    EnterAppends(c, s, mode, v.enterAt, v.allow);
    var s' := Run(c, s, enter);
    if At(s', id, Holding) {
      RunConcat(c, s, enter, [GuardProtocol.Release(id, v.error), Record(id, v.doneAt)]);
      RunTwo(c, s', GuardProtocol.Release(id, v.error), Record(id, v.doneAt));
    } else {
      assert enter + [] == enter;
    }
  }

  // However many visits, and whatever happens to each: every reservation taken was
  // returned exactly once.
  lemma {:induction false} VisitsSettle(c: Setup, s: Guard, mode: Mode, vs: seq<Visit>)
    ensures SettledFrom(s, Run(c, s, VisitsSteps(c, s, mode, vs)), mode, |vs|)
  {
    hide Next, VisitSteps, Settled;
    if vs != [] {
      var init, v := vs[..|vs| - 1], vs[|vs| - 1];
      VisitsSettle(c, s, mode, init);
      VisitsThen(c, s, mode, init, v);
      assert vs == init + [v];
      VisitSettles(c, Run(c, s, VisitsSteps(c, s, mode, init)), mode, v);
    }
  }

  class Gate {
    const breaker: TwoLevelBreaker
    const maxConcurrency: int
    var inUse: int
    var rejected: Rejections
    ghost var protocol: Guard     // this object as a protocol state

    ghost function Setup(): GuardProtocol.Setup { GuardProtocol.Setup(breaker.Cfg(), maxConcurrency) }

    ghost predicate Valid()
      reads this, breaker, breaker.general, breaker.session
    {
      && breaker.Valid()
      && maxConcurrency >= 1
      && protocol.br == breaker.View()
      && protocol.slots == inUse
      && Inv(Setup(), protocol)
    }

    constructor (maxConcurrency: int, failureThreshold: int, cooldown: int, sessionThreshold: int, sessionCooldown: int)
      requires maxConcurrency >= 1
      requires ValidTuning(Tuning(failureThreshold, cooldown, false))
      requires ValidTuning(Tuning(sessionThreshold, sessionCooldown, true))
      ensures Valid() && protocol == IDLE && inUse == 0 && this.maxConcurrency == maxConcurrency
      ensures breaker.general.tuning == Tuning(failureThreshold, cooldown, false)
      ensures breaker.session.tuning == Tuning(sessionThreshold, sessionCooldown, true)
      ensures fresh(breaker) && fresh(breaker.general) && fresh(breaker.session)
      ensures rejected == Rejections(0, 0, 0)
    {
      breaker := new TwoLevelBreaker(failureThreshold, cooldown, sessionThreshold, sessionCooldown);
      this.maxConcurrency := maxConcurrency;
      inUse := 0;
      rejected := Rejections(0, 0, 0);
      protocol := IDLE;
      new;
      Reachable(Setup(), []);
    }

    // `allow` is what the rate limiter answers if it is asked.
    method Enter(mode: Mode, now: int, allow: bool) returns (release: Release?, err: Option<Error>)
      requires Valid()
      modifies this, breaker.general, breaker.session
      ensures Valid()
      ensures protocol == Run(Setup(), old(protocol), EnterSteps(|old(protocol).tickets|, mode, now, allow))
      ensures |protocol.tickets| == |old(protocol).tickets| + 1
      ensures var phase := protocol.tickets[|old(protocol).tickets|].phase;
              && (phase.Rejected? || phase.Holding?)
              && (release != null <==> phase.Holding?)
              && err == (if phase.Rejected? then Some(RejectionError(phase.reason)) else None)
      ensures match protocol.tickets[|old(protocol).tickets|].phase
              case Rejected(CircuitOpen(hint)) =>
                && err == Some(Structured(UpstreamUnavailable, hint))
                && rejected == old(rejected).(circuitOpen := old(rejected).circuitOpen + 1)
              case Rejected(RateExceeded) =>
                && err == Some(Structured(UpstreamRateLimited, 1))
                && rejected == old(rejected).(rate := old(rejected).rate + 1)
              case Rejected(ConcurrencyLimit) =>
                && err == Some(Structured(UpstreamUnavailable, 0))
                && rejected == old(rejected).(concurrency := old(rejected).concurrency + 1)
              case _ => err.None? && rejected == old(rejected)
      ensures release != null ==>
                && fresh(release) && release.gate == this && release.mode == mode && !release.done
                && release.id == |old(protocol).tickets| && release.Valid()
    {
      hide Inv, Run, AfterBlocked;
      ghost var id := |protocol.tickets|;
      ghost var c, s := Setup(), protocol;
      EnterOutcome(c, s, mode, now, allow);
      InvRun(c, s, EnterSteps(id, mode, now, allow));

      var hint, blocked := breaker.Blocked(now, mode);
      protocol := Run(c, s, EnterSteps(id, mode, now, allow));
      if blocked {
        rejected := rejected.(circuitOpen := rejected.circuitOpen + 1);
        return null, Some(Structured(UpstreamUnavailable, hint));
      }
      if !allow {
        rejected := rejected.(rate := rejected.rate + 1);
        return null, Some(Structured(UpstreamRateLimited, 1));
      }
      if inUse < maxConcurrency {
        inUse := inUse + 1;
      } else {
        rejected := rejected.(concurrency := rejected.concurrency + 1);
        return null, Some(Structured(UpstreamUnavailable, 0));
      }
      release := new Release(this, mode, id);
      err := None;
    }
  }

  // The closure Enter returns.
  class Release {
    const gate: Gate
    const mode: Mode
    ghost const id: nat
    var done: bool

    ghost predicate Valid()
      reads this, gate
    {
      && id < |gate.protocol.tickets|
      && gate.protocol.tickets[id].mode == mode
      && (if done then gate.protocol.tickets[id].phase == Recorded else gate.protocol.tickets[id].phase == Holding)
    }

    constructor (gate: Gate, mode: Mode, ghost id: nat)
      ensures this.gate == gate && this.mode == mode && this.id == id && !done
    {
      this.gate := gate;
      this.mode := mode;
      this.id := id;
      done := false;
    }

    // The first call frees the slot and records the result; any later call does
    // nothing.
    method Call(opErr: Option<Error>, now: int)
      requires gate.Valid() && Valid()
      modifies this, gate, gate.breaker, gate.breaker.general, gate.breaker.session
      ensures gate.Valid() && Valid() && done
      ensures gate.protocol == if old(done) then old(gate.protocol)
                               else Run(gate.Setup(), old(gate.protocol),
                                        [GuardProtocol.Release(id, opErr), Record(id, now)])
      ensures |gate.protocol.tickets| == |old(gate.protocol).tickets|
      ensures gate.inUse == if old(done) then old(gate.inUse) else old(gate.inUse) - 1
      ensures gate.rejected == old(gate.rejected)
    {
      if done {
        return;
      }
      ghost var c, s := gate.Setup(), gate.protocol;
      RunTwo(c, s, GuardProtocol.Release(id, opErr), Record(id, now));
      InvRun(c, s, [GuardProtocol.Release(id, opErr), Record(id, now)]);

      done := true;
      gate.inUse := gate.inUse - 1;
      gate.breaker.Record(opErr, now, mode);
      gate.protocol := Run(c, s, [GuardProtocol.Release(id, opErr), Record(id, now)]);
    }
  }
}
