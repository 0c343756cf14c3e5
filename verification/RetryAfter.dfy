// How long a Retry-After keeps traffic away, over whole runs of the guard: until a
// later trip moves the deadline earlier, and exactly then.

module RetryAfterRuns {
  import opened Domain
  import opened Int64
  import opened Breaker
  import opened GuardProtocol
  import opened GuardSafety
  import opened GuardStranding

  // What the clock said to a step, if the step reads it.
  function InstantOf(st: Step): Option<int> {
    match st
    case Enter(_, now) => Some(now)
    case Record(_, now) => Some(now)
    case _ => None
  }

  predicate Ordered(steps: seq<Step>) {
    forall i, j :: 0 <= i < j < |steps| && InstantOf(steps[i]).Some? && InstantOf(steps[j]).Some? ==>
      InstantOf(steps[i]).value <= InstantOf(steps[j]).value
  }

  predicate IsBefore(st: Step, at: int) { InstantOf(st).Some? ==> InstantOf(st).value < at }

  predicate AllBefore(steps: seq<Step>, at: int) { forall i :: 0 <= i < |steps| ==> IsBefore(steps[i], at) }

  // ---------------------------------------------------------------------------
  // One step

  predicate RecordsFault(s: Guard, st: Step) { Records(s, st) && RecordedCategory(s, st) == GeneralFault }

  // The end of the trip this fault would cause.
  function TripEnd(c: Setup, s: Guard, st: Step): int
    requires Records(s, st) && ValidSetup(c)
  {
    st.now + TripLength(c.breaker.general, 0, RetryAfterOf(s.tickets[st.id].phase.result))
  }

  // The threshold-th fault, whose own trip ends before an instant.
  predicate CutsShort(c: Setup, s: Guard, st: Step, at: int)
    requires ValidSetup(c)
  {
    RecordsFault(s, st) && s.br.general.failures + 1 >= c.breaker.general.threshold && TripEnd(c, s, st) < at
  }

  predicate MovedEarlier(was: Sub, now: Sub) {
    was.openUntil.Some? && (now.openUntil.None? || now.openUntil.value < was.openUntil.value)
  }

  // In any reachable state, with no probe out, a step clears the deadline or moves
  // it earlier exactly when it records such a fault; with a probe out, exactly when
  // it records anything but a fault whose trip lasts as long.
  lemma MovesEarlierIff(c: Setup, s: Guard, st: Step)
    requires ValidSetup(c) && BreakerOk(c, s.br) && s.br.general.open
    ensures MovedEarlier(s.br.general, Next(c, s, st).br.general) <==>
              if s.br.general.probing
              then Records(s, st) && !(RecordsFault(s, st) && TripEnd(c, s, st) >= s.br.general.openUntil.value)
              else CutsShort(c, s, st, s.br.general.openUntil.value)
  {
    hide TripLength;
    if Records(s, st) {
      GeneralAfterRecord(c, s, st);
    }
  }

  lemma GeneralAfterRecord(c: Setup, s: Guard, st: Step)
    requires ValidSetup(c) && BreakerOk(c, s.br) && Records(s, st)
    ensures var g, g' := s.br.general, Next(c, s, st).br.general;
            !g'.probing &&
            if RecordsFault(s, st) && (g.probing || g.failures + 1 >= c.breaker.general.threshold)
            then g'.openUntil == Some(TripEnd(c, s, st)) && g'.open && g'.failures == 0
            else g'.openUntil == (if g.probing then None else g.openUntil) && g'.open == (g.open && !g.probing)
  {
    hide TripLength;
  }

  // A probe is out only once some step has read an instant at or past the deadline.
  ghost predicate Reached(steps: seq<Step>, at: int) {
    exists i :: 0 <= i < |steps| && InstantOf(steps[i]).Some? && InstantOf(steps[i]).value >= at
  }

  lemma {:induction false} ProbeIsLate(c: Setup, steps: seq<Step>)
    requires ValidSetup(c)
    ensures var g := Run(c, IDLE, steps).br.general;
            g.probing ==> g.openUntil.Some? && Reached(steps, g.openUntil.value)
  {
    if steps != [] {
      var init, st := steps[..|steps| - 1], steps[|steps| - 1];
      ProbeIsLate(c, init);
      Reachable(c, init);
      var s := Run(c, IDLE, init);
      ReachedGrows(init, steps);
      hide Inv, Run, TripLength;
      BreakerOfReachable(c, init);
      if Records(s, st) {
        GeneralAfterRecord(c, s, st);
      } else if LetsPast(s, st) && !s.br.general.probing && Next(c, s, st).br.general.probing {
        assert steps[|steps| - 1] == st && InstantOf(st).value >= s.br.general.openUntil.value;
      }
    }
  }

  lemma ReachedGrows(init: seq<Step>, steps: seq<Step>)
    requires init <= steps
    ensures forall at :: Reached(init, at) ==> Reached(steps, at)
  {
    forall at | Reached(init, at) ensures Reached(steps, at) {
      var i :| 0 <= i < |init| && InstantOf(init[i]).Some? && InstantOf(init[i]).value >= at;
      assert steps[i] == init[i];
    }
  }

  // On a clock that never goes back, before the deadline: the deadline is cleared
  // or moved earlier exactly by such a fault.
  lemma OrderedMovesEarlierIff(c: Setup, steps: seq<Step>, st: Step)
    requires ValidSetup(c) && Ordered(steps + [st])
    requires var g := Run(c, IDLE, steps).br.general; g.openUntil.Some? && IsBefore(st, g.openUntil.value)
    ensures var s := Run(c, IDLE, steps);
            MovedEarlier(s.br.general, Next(c, s, st).br.general) <==> CutsShort(c, s, st, s.br.general.openUntil.value)
  {
    hide Run, TripLength;
    var s := Run(c, IDLE, steps);
    BreakerOfReachable(c, steps);
    ProbeIsLate(c, steps);
    MovesEarlierIff(c, s, st);
    if s.br.general.probing && Records(s, st) {
      LastIsLatest(steps, st, s.br.general.openUntil.value);
      assert false;
    }
  }

  lemma LastIsLatest(steps: seq<Step>, st: Step, at: int)
    requires Ordered(steps + [st]) && Reached(steps, at) && InstantOf(st).Some?
    ensures InstantOf(st).value >= at
  {
    var i :| 0 <= i < |steps| && InstantOf(steps[i]).Some? && InstantOf(steps[i]).value >= at;
    assert (steps + [st])[i] == steps[i] && (steps + [st])[|steps|] == st;
  }

  // ---------------------------------------------------------------------------
  // After a trip

  // The Retry-Afters whose nanoseconds are a duration.
  predicate Representable(ra: int) { 0 <= ra <= 9_223_372_036 }

  // Open, with no probe out, until at least this instant.
  predicate HoldsOff(p: Pair, at: int) {
    p.general.openUntil.Some? && p.general.openUntil.value >= at && !p.general.probing
  }

  // No caller, and so nobody, is let past at any earlier instant.
  ghost predicate RefusesBefore(p: Pair, at: int) {
    forall x :: x < at ==> BlockedHint(p, x, Caller).Some?
  }

  lemma HoldsOffRefuses(p: Pair, at: int, x: int, mode: Mode)
    requires HoldsOff(p, at) && x < at
    ensures BlockedHint(p, x, mode).Some?
  {
  }

  lemma HoldsOffStep(c: Setup, s: Guard, st: Step, at: int)
    requires ValidSetup(c) && BreakerOk(c, s.br) && HoldsOff(s.br, at) && IsBefore(st, at)
    ensures HoldsOff(Next(c, s, st).br, at) <==> !CutsShort(c, s, st, at)
    ensures !LetsPast(s, st)
    ensures CutsShort(c, s, st, at) ==>
              var g := Next(c, s, st).br.general;
              g.openUntil.Some? && g.openUntil.value < at && !g.probing
  {
    hide TripLength;
    if Records(s, st) {
      GeneralAfterRecord(c, s, st);
    } else if st.Enter? {
      HoldsOffRefuses(s.br, at, st.now, st.mode);
    }
  }

  // A fault's own Retry-After is in force once it is recorded exactly if the fault
  // trips the breaker or the breaker was to stay open as long anyway: below the
  // threshold it is dropped.
  lemma RequestHoldsOffIff(c: Setup, s: Guard, st: Step)
    requires ValidSetup(c) && BreakerOk(c, s.br) && RecordsFault(s, st)
    requires Representable(RetryAfterOf(s.tickets[st.id].phase.result))
    ensures var at := st.now + RetryAfterOf(s.tickets[st.id].phase.result) * SECOND;
            var trips := Trips(c.breaker.general, s.br.general, Kind.Fault);
            HoldsOff(Next(c, s, st).br, at) <==> trips || HoldsOff(s.br, at)
  {
    GeneralAfterRecord(c, s, st);
    hide Next;
  }

  // What cut a trip short lets a caller past at the instant it set.
  lemma CutLetsPast(c: Setup, s: Guard, st: Step, at: int)
    requires ValidSetup(c) && BreakerOk(c, s.br) && HoldsOff(s.br, at) && IsBefore(st, at) && CutsShort(c, s, st, at)
    ensures var p := Next(c, s, st).br;
            && p.general.openUntil.Some? && p.general.openUntil.value < at
            && BlockedHint(p, p.general.openUntil.value, Caller).None? && !RefusesBefore(p, at)
  {
    hide TripLength, CutsShort;
    HoldsOffStep(c, s, st, at);
    hide Next;
    var p := Next(c, s, st).br;
    assert BlockedHint(p, p.general.openUntil.value, Caller).None?;
  }

  ghost predicate NeverCut(c: Setup, s: Guard, steps: seq<Step>, at: int)
    requires ValidSetup(c)
  {
    forall i :: 0 <= i < |steps| ==> !CutsShort(c, Run(c, s, steps[..i]), steps[i], at)
  }

  ghost predicate AlwaysRefuses(c: Setup, s: Guard, steps: seq<Step>, at: int) {
    forall i :: 0 <= i <= |steps| ==> RefusesBefore(Run(c, s, steps[..i]).br, at)
  }

  lemma {:induction false} NeverCutHoldsOff(c: Setup, s: Guard, steps: seq<Step>, at: int)
    requires ValidSetup(c) && Inv(c, s) && HoldsOff(s.br, at) && AllBefore(steps, at) && NeverCut(c, s, steps, at)
    ensures HoldsOff(Run(c, s, steps).br, at)
  {
    if steps != [] {
      hide Next, Inv, CutsShort, HoldsOff, BreakerOk;
      var n := |steps| - 1;
      var init := steps[..n];
      assert forall i :: 0 <= i <= n ==> init[..i] == steps[..i];
      NeverCutHoldsOff(c, s, init, at);
      InvRun(c, s, init);
      BreakerOfInv(c, Run(c, s, init));
      assert !CutsShort(c, Run(c, s, steps[..n]), steps[n], at);
      HoldsOffStep(c, Run(c, s, init), steps[n], at);
    }
  }

  lemma BreakerOfInv(c: Setup, s: Guard)
    requires Inv(c, s)
    ensures BreakerOk(c, s.br)
  {
  }

  lemma {:induction false} FirstCut(c: Setup, s: Guard, steps: seq<Step>, at: int, i: nat) returns (first: nat)
    requires ValidSetup(c) && i < |steps| && CutsShort(c, Run(c, s, steps[..i]), steps[i], at)
    ensures first < |steps| && CutsShort(c, Run(c, s, steps[..first]), steps[first], at)
    ensures NeverCut(c, s, steps[..first], at)
    decreases i
  {
    hide CutsShort, Run;
    if j: nat :| j < i && CutsShort(c, Run(c, s, steps[..j]), steps[j], at) {
      first := FirstCut(c, s, steps, at, j);
    } else {
      first := i;
      assert forall j :: 0 <= j < i ==> steps[..i][..j] == steps[..j];
    }
  }

  // From an open breaker with no probe out, through any steps before an instant up
  // to which it is open: nobody could be let past before that instant, at any
  // point, if and only if no step recorded a fault whose own trip ends before it.
  lemma {:induction false} HonouredIff(c: Setup, s: Guard, steps: seq<Step>, at: int)
    requires ValidSetup(c) && Inv(c, s) && HoldsOff(s.br, at) && AllBefore(steps, at)
    ensures AlwaysRefuses(c, s, steps, at) <==> NeverCut(c, s, steps, at)
  {
    hide Inv, CutsShort, HoldsOff, BreakerOk, Run, RefusesBefore;
    if NeverCut(c, s, steps, at) {
      forall i | 0 <= i <= |steps| ensures RefusesBefore(Run(c, s, steps[..i]).br, at) {
        assert forall j :: 0 <= j < i ==> steps[..i][..j] == steps[..j];
        NeverCutHoldsOff(c, s, steps[..i], at);
        RefusesWhenHeldOff(Run(c, s, steps[..i]).br, at);
      }
    } else {
      var i: nat :| i < |steps| && CutsShort(c, Run(c, s, steps[..i]), steps[i], at);
      var first := FirstCut(c, s, steps, at, i);
      NeverCutHoldsOff(c, s, steps[..first], at);
      InvRun(c, s, steps[..first]);
      BreakerOfInv(c, Run(c, s, steps[..first]));
      CutLetsPast(c, Run(c, s, steps[..first]), steps[first], at);
      RunStep(c, s, steps, first);
      assert !RefusesBefore(Run(c, s, steps[..first + 1]).br, at);
    }
  }

  lemma RefusesWhenHeldOff(p: Pair, at: int)
    requires HoldsOff(p, at)
    ensures RefusesBefore(p, at)
  {
    forall x | x < at ensures BlockedHint(p, x, Caller).Some? {
      HoldsOffRefuses(p, at, x, Caller);
    }
  }

  lemma RunStep(c: Setup, s: Guard, steps: seq<Step>, i: nat)
    requires i < |steps|
    ensures Run(c, s, steps[..i + 1]) == Next(c, Run(c, s, steps[..i]), steps[i])
  {
    assert steps[..i + 1][..i] == steps[..i];
  }

  // ---------------------------------------------------------------------------
  // A Retry-After in a run

  // The i-th step records a fault that trips the general breaker.
  predicate TripsAt(c: Setup, steps: seq<Step>, i: int)
    requires ValidSetup(c)
  {
    && 0 <= i < |steps|
    && var s := Run(c, IDLE, steps[..i]);
       RecordsFault(s, steps[i]) && Trips(c.breaker.general, s.br.general, Kind.Fault)
  }

  function RetryAfterAt(c: Setup, steps: seq<Step>, i: int): int
    requires ValidSetup(c) && TripsAt(c, steps, i)
  {
    RetryAfterOf(Run(c, IDLE, steps[..i]).tickets[steps[i].id].phase.result)
  }

  // When the upstream asked to be left alone until.
  function AskedUntil(c: Setup, steps: seq<Step>, i: int): int
    requires ValidSetup(c) && TripsAt(c, steps, i)
  {
    steps[i].now + RetryAfterAt(c, steps, i) * SECOND
  }

  lemma TripHoldsOff(c: Setup, steps: seq<Step>, i: nat)
    requires ValidSetup(c) && TripsAt(c, steps, i) && Representable(RetryAfterAt(c, steps, i))
    ensures HoldsOff(Run(c, IDLE, steps[..i + 1]).br, AskedUntil(c, steps, i))
  {
    var s := Run(c, IDLE, steps[..i]);
    BreakerOfReachable(c, steps[..i]);
    RunStep(c, IDLE, steps, i);
    GeneralAfterRecord(c, s, steps[i]);
    hide Run, Next;
  }

  // After a trip, in a run on a clock that never goes back, no call of any mode is
  // let past before the instant the upstream asked for, unless a fault was recorded
  // in between whose own trip ends before that instant.
  lemma {:induction false} EarlyOnlyIfCut(c: Setup, steps: seq<Step>, i: nat, j: nat)
    requires ValidSetup(c) && Ordered(steps) && i < j < |steps|
    requires TripsAt(c, steps, i) && Representable(RetryAfterAt(c, steps, i))
    requires LetsPast(Run(c, IDLE, steps[..j]), steps[j]) && steps[j].now < AskedUntil(c, steps, i)
    ensures exists k :: i < k < j && CutsShort(c, Run(c, IDLE, steps[..k]), steps[k], AskedUntil(c, steps, i))
  {
    hide CutsShort, BreakerOk, Run, Inv;
    var at, s := AskedUntil(c, steps, i), Run(c, IDLE, steps[..i + 1]);
    var between := steps[i + 1..j];
    TripHoldsOff(c, steps, i);
    Reachable(c, steps[..i + 1]);
    if NeverCut(c, s, between, at) {
      BetweenIsBefore(steps, i, j, at);
      NeverCutHoldsOff(c, s, between, at);
      RunBetween(c, steps, i, j, |between|);
      assert between[..|between|] == between;
      HoldsOffRefuses(Run(c, IDLE, steps[..j]).br, at, steps[j].now, steps[j].mode);
      assert false;
    }
    var k: nat :| k < |between| && CutsShort(c, Run(c, s, between[..k]), between[k], at);
    RunBetween(c, steps, i, j, k);
    assert between[k] == steps[i + 1 + k];
    assert CutsShort(c, Run(c, IDLE, steps[..i + 1 + k]), steps[i + 1 + k], at);
  }

  lemma BetweenIsBefore(steps: seq<Step>, i: nat, j: nat, at: int)
    requires Ordered(steps) && i < j < |steps| && InstantOf(steps[j]).Some? && InstantOf(steps[j]).value < at
    ensures AllBefore(steps[i + 1..j], at)
  {
    var between := steps[i + 1..j];
    forall k | 0 <= k < |between| ensures IsBefore(between[k], at) {
      assert between[k] == steps[i + 1 + k];
    }
  }

  lemma RunBetween(c: Setup, steps: seq<Step>, i: nat, j: nat, k: nat)
    requires i < j <= |steps| && i + 1 + k <= j
    ensures Run(c, Run(c, IDLE, steps[..i + 1]), steps[i + 1..j][..k]) == Run(c, IDLE, steps[..i + 1 + k])
  {
    hide Run;
    assert steps[..i + 1 + k] == steps[..i + 1] + steps[i + 1..j][..k];
    RunConcat(c, IDLE, steps[..i + 1], steps[i + 1..j][..k]);
  }

  // No fault cuts short a Retry-After that asked for no more than the cooldown.
  lemma ShortRequestsAreSafe(c: Setup, steps: seq<Step>, i: nat, k: nat)
    requires ValidSetup(c) && Ordered(steps) && i < k < |steps| && TripsAt(c, steps, i)
    requires RetryAfterAt(c, steps, i) * SECOND <= c.breaker.general.cooldown
    ensures !CutsShort(c, Run(c, IDLE, steps[..k]), steps[k], AskedUntil(c, steps, i))
  {
    hide Run;
  }

  // ---------------------------------------------------------------------------
  // A Retry-After that is not honoured: faults that are still to be recorded when
  // it comes

  // Callers lo to hi have failed and given up their slots, but have not recorded it
  // yet; no other call is in progress.
  ghost predicate Unrecorded(s: Guard, lo: nat, hi: nat) {
    && lo <= hi <= |s.tickets| && s.slots == 0
    && (forall i :: lo <= i < hi ==> s.tickets[i].phase == Freed(UNAVAILABLE) && s.tickets[i].mode == Caller)
    && (forall i :: 0 <= i < |s.tickets| && !(lo <= i < hi) ==> !InFlight(s.tickets[i]))
  }

  lemma FailOne(c: Setup, r: Rate, trace: seq<Timed>, s: Guard, b: Bucket, was: int, h: nat, at: int)
    returns (longer: seq<Timed>, s': Guard)
    requires ValidSetup(c) && Leads(c, r, trace, s, b, was) && at >= was && Allows(r, b, at) && Unrefused(trace)
    requires Unrecorded(s, 0, h) && |s.tickets| == h && s.br == FRESH
    ensures Leads(c, r, longer, s', Asked(r, b, at), at) && Unrefused(longer)
    ensures Unrecorded(s', 0, h + 1) && |s'.tickets| == h + 1 && s'.br == FRESH
  {
    hide Leads, Allows, Asked;
    var t1, s1 := Knock(c, r, trace, s, b, was, Caller, at);
    Unpack(c, r, t1, s1, Asked(r, b, at), at);
    Extend(c, r, t1, s1, Asked(r, b, at), at, Timed(Release(h, UNAVAILABLE), at));
    longer, s' := t1 + [Timed(Release(h, UNAVAILABLE), at)], Next(c, s1, Release(h, UNAVAILABLE));
  }

  lemma {:induction false} FailMany(c: Setup, r: Rate, h: nat) returns (trace: seq<Timed>, s: Guard, b: Bucket)
    requires ValidSetup(c) && ValidRate(r)
    ensures Leads(c, r, trace, s, b, h * r.den) && Unrefused(trace) && b.level >= 0 && b.last <= h * r.den
    ensures Unrecorded(s, 0, h) && |s.tickets| == h && s.br == FRESH
  {
    if h == 0 {
      trace, s, b := [], IDLE, Bucket(r.burst * r.den, 0);
    } else {
      hide Leads, Refilled, Unrefused, Unrecorded;
      var before, was, b0 := FailMany(c, r, h - 1);
      assert h * r.den == (h - 1) * r.den + r.den;
      Refills(r, b0, h * r.den);
      trace, s := FailOne(c, r, before, was, b0, (h - 1) * r.den, h - 1, h * r.den);
      b := Asked(r, b0, h * r.den);
    }
  }

  predicate IsGeneralFault(result: Option<Error>) { Classify(result) == GeneralFault }

  // Another caller comes and goes, with an upstream-wide fault.
  lemma FaultBeside(c: Setup, r: Rate, trace: seq<Timed>, s: Guard, b: Bucket, was: int, h: nat, k: nat, at: int,
                    result: Option<Error>)
    returns (longer: seq<Timed>, s': Guard, br: Pair)
    requires ValidSetup(c) && Leads(c, r, trace, s, b, was) && at >= was && Allows(r, b, at) && Unrefused(trace)
    requires Unrecorded(s, 0, h) && s.br.general == CLOSED.(failures := k) && IsGeneralFault(result)
    ensures Leads(c, r, longer, s', Asked(r, b, at), at) && Unrefused(longer)
    ensures EndsInRecord(c, longer, |s.tickets|, result, at, br) && br.general == s.br.general
    ensures Unrecorded(s', 0, h)
    ensures s'.br.general == Fail(c.breaker.general, CLOSED.(failures := k), at, RetryAfterOf(result))
  {
    hide Leads, Allows, Asked, TripLength, EndsInRecord;
    var id := |s.tickets|;
    var t1 := Arrive(c, r, trace, s, b, was, Caller, at);
    var s1 := s.(br := AfterBlocked(s.br, at, Caller), tickets := s.tickets + [Admitted(s.br, at, Caller)]);
    br := s1.br;
    longer := Serve(c, r, t1, s1, b, at, id, at, result);
    s' := Guard(AfterRecord(c.breaker, s1.br, result, at, s1.tickets[id].mode), s1.slots,
                s1.tickets[id := Done(s1.tickets[id])]);
  }

  lemma {:induction false} FaultsBeside(c: Setup, r: Rate, h: nat, k: nat)
    returns (trace: seq<Timed>, s: Guard, b: Bucket, at: int)
    requires ValidSetup(c) && ValidRate(r) && k < c.breaker.general.threshold
    ensures Leads(c, r, trace, s, b, at) && Unrefused(trace) && b.level >= 0 && b.last <= at
    ensures Unrecorded(s, 0, h) && s.br.general == CLOSED.(failures := k)
  {
    if k == 0 {
      trace, s, b := FailMany(c, r, h);
      at := h * r.den;
    } else {
      hide Leads, Unrecorded, Refilled, Unrefused, TripLength;
      var before, was, b0, then_ := FaultsBeside(c, r, h, k - 1);
      at := then_ + r.den;
      Refills(r, b0, at);
      var br;
      trace, s, br := FaultBeside(c, r, before, was, b0, then_, h, k - 1, at, UNAVAILABLE);
      b := Asked(r, b0, at);
    }
  }

  predicate OpenWith(p: Pair, failures: int, until: int) {
    p.general == Sub(failures, 0, Some(until), false, true)
  }

  lemma RecordOne(c: Setup, r: Rate, trace: seq<Timed>, s: Guard, b: Bucket, lo: nat, hi: nat, until: int, at: int)
    returns (longer: seq<Timed>, s': Guard)
    requires ValidSetup(c) && Leads(c, r, trace, s, b, at) && Unrefused(trace)
    requires Unrecorded(s, lo, hi) && lo < hi && OpenWith(s.br, lo, until)
    ensures Leads(c, r, longer, s', b, at) && Unrefused(longer) && trace < longer
    ensures Unrecorded(s', lo + 1, hi)
    ensures s'.br.general == Fail(c.breaker.general, s.br.general, at, 0)
  {
    hide Leads, TripLength;
    Unpack(c, r, trace, s, b, at);
    Extend(c, r, trace, s, b, at, Timed(Record(lo, at), at));
    longer, s' := trace + [Timed(Record(lo, at), at)], Next(c, s, Record(lo, at));
  }

  // Threshold many are recorded: the last one trips the breaker again.
  lemma {:induction false} RecordAll(c: Setup, r: Rate, trace: seq<Timed>, s: Guard, b: Bucket, lo: nat, until: int,
                                     at: int)
    returns (longer: seq<Timed>, s': Guard)
    requires ValidSetup(c) && Leads(c, r, trace, s, b, at) && Unrefused(trace)
    requires lo < c.breaker.general.threshold
    requires Unrecorded(s, lo, c.breaker.general.threshold) && OpenWith(s.br, lo, until)
    ensures Leads(c, r, longer, s', b, at) && Unrefused(longer) && trace < longer
    ensures OpenWith(s'.br, 0, at + c.breaker.general.cooldown)
    decreases c.breaker.general.threshold - lo
  {
    hide Leads, Unrecorded;
    var t1, s1 := RecordOne(c, r, trace, s, b, lo, c.breaker.general.threshold, until, at);
    if lo + 1 == c.breaker.general.threshold {
      longer, s' := t1, s1;
    } else {
      longer, s' := RecordAll(c, r, t1, s1, b, lo + 1, until, at);
    }
  }

  // A trip with this Retry-After, and later a caller let past before it is over.
  ghost predicate LetInTooSoon(c: Setup, steps: seq<Step>, i: int, ra: int)
    requires ValidSetup(c)
  {
    && TripsAt(c, steps, i) && RetryAfterAt(c, steps, i) == ra && i < |steps| - 1
    && var last := steps[|steps| - 1];
       LetsPast(Run(c, IDLE, steps[..|steps| - 1]), last) && last.now < AskedUntil(c, steps, i)
  }

  function TooMany(ra: int): Option<Error> { Some(Structured(UpstreamRateLimited, ra)) }

  lemma {:induction false} StepsOfPrefix(trace: seq<Timed>, i: nat)
    requires i <= |trace|
    ensures |StepsOf(trace)| == |trace| && StepsOf(trace[..i]) == StepsOf(trace)[..i]
  {
    StepsAreSteps(trace);
    StepsAreSteps(trace[..i]);
  }

  // The step that ends this trace trips the breaker, in any longer trace.
  lemma TripIsThere(c: Setup, trace: seq<Timed>, longer: seq<Timed>, id: nat, ra: int, at: int, br: Pair)
    requires ValidSetup(c) && trace <= longer && EndsInRecord(c, trace, id, TooMany(ra), at, br)
    requires Trips(c.breaker.general, br.general, Kind.Fault)
    ensures var steps, i := StepsOf(longer), |trace| - 1;
            TripsAt(c, steps, i) && RetryAfterAt(c, steps, i) == ra && steps[i] == Record(id, at)
  {
    hide Run;
    var i := |trace| - 1;
    assert longer[..i] == trace[..i] && longer[i] == trace[i];
    StepsOfPrefix(longer, i);
    StepsAreSteps(longer);
  }

  // Under every valid configuration of breaker, gate and limiter: if threshold
  // callers have failed and not recorded it when the 429 trips the breaker, their
  // results trip it again, and a caller is let past as soon as the cooldown of that
  // second trip is over.
  lemma RetryAfterCanBeCutShort(c: Setup, r: Rate, ra: int)
    requires ValidSetup(c) && ValidRate(r) && ra * SECOND > c.breaker.general.cooldown
    ensures exists trace, i :: Genuine(c, r, trace) && Unrefused(trace) && LetInTooSoon(c, StepsOf(trace), i, ra)
  {
    hide Leads, Unrecorded, Refilled, Unrefused, Genuine, Run, EndsInRecord;
    var h := c.breaker.general.threshold;
    var t0, s0, b0, was := FaultsBeside(c, r, h, h - 1);
    var at := was + r.den;
    Refills(r, b0, at);
    var t1, s1, br := FaultBeside(c, r, t0, s0, b0, was, h, h - 1, at, TooMany(ra));
    var b1 := Asked(r, b0, at);
    var until := at + TripLength(c.breaker.general, 0, ra);
    var t2, s2 := RecordAll(c, r, t1, s1, b1, 0, until, at);
    var x := at + c.breaker.general.cooldown;
    var trace := Arrive(c, r, t2, s2, b1, at, Caller, x);
    TripIsThere(c, t1, trace, |s0.tickets|, ra, at, br);
    LastLetsPast(c, r, t2, s2, b1, at, trace, x);
    var s3 := s2.(br := AfterBlocked(s2.br, x, Caller), tickets := s2.tickets + [Admitted(s2.br, x, Caller)]);
    Unpacked(c, r, trace, s3, b1, x);
    assert LetInTooSoon(c, StepsOf(trace), |t1| - 1, ra);
  }

  lemma {:induction false} GenuineIsOrdered(c: Setup, r: Rate, trace: seq<Timed>)
    requires Genuine(c, r, trace)
    ensures Ordered(StepsOf(trace))
    ensures forall i :: 0 <= i < |trace| && InstantOf(trace[i].step).Some? ==>
              InstantOf(trace[i].step).value == trace[i].at <= ClockOf(trace)
  {
    hide After, Allows;
    if trace != [] {
      var init := trace[..|trace| - 1];
      GenuineIsOrdered(c, r, init);
      StepsAreSteps(init);
      StepsAreSteps(trace);
    }
  }

  // So, whatever the configuration, on one clock that never goes back: there is a
  // run in which a call is let past before the instant the upstream asked for if
  // and only if it asked for more than the breaker's cooldown.
  lemma {:induction false} CanBeCutShortIff(c: Setup, r: Rate, ra: int)
    requires ValidSetup(c) && ValidRate(r)
    ensures (exists trace, i :: Genuine(c, r, trace) && LetInTooSoon(c, StepsOf(trace), i, ra))
       <==> ra * SECOND > c.breaker.general.cooldown
  {
    hide Genuine, Run, CutsShort, TripsAt, ValidSetup, ValidRate;
    if ra * SECOND > c.breaker.general.cooldown {
      RetryAfterCanBeCutShort(c, r, ra);
    } else if trace, i :| Genuine(c, r, trace) && LetInTooSoon(c, StepsOf(trace), i, ra) {
      GenuineIsOrdered(c, r, trace);
      NeverTooSoon(c, StepsOf(trace), i, ra);
      assert false;
    }
  }

  lemma NeverTooSoon(c: Setup, steps: seq<Step>, i: int, ra: int)
    requires ValidSetup(c) && Ordered(steps) && ra * SECOND <= c.breaker.general.cooldown
    ensures !LetInTooSoon(c, steps, i, ra)
  {
    hide Run, CutsShort;
    if LetInTooSoon(c, steps, i, ra) {
      var j := |steps| - 1;
      assert InstantOf(steps[i]).value <= InstantOf(steps[j]).value;
      assert Representable(ra);
      EarlyOnlyIfCut(c, steps, i, j);
      var k :| i < k < j && CutsShort(c, Run(c, IDLE, steps[..k]), steps[k], AskedUntil(c, steps, i));
      ShortRequestsAreSafe(c, steps, i, k);
      assert false;
    }
  }

  lemma LastLetsPast(c: Setup, r: Rate, trace: seq<Timed>, s: Guard, b: Bucket, was: int, longer: seq<Timed>, x: int)
    requires Leads(c, r, trace, s, b, was) && longer == trace + [Timed(Enter(Caller, x), x)]
    requires BlockedHint(s.br, x, Caller).None?
    ensures var steps := StepsOf(longer);
            && |steps| == |longer| && steps[|steps| - 1] == Enter(Caller, x)
            && LetsPast(Run(c, IDLE, steps[..|steps| - 1]), steps[|steps| - 1])
  {
    hide Run, BlockedHint;
    StepsAreSteps(longer);
    StepsOfPrefix(longer, |trace|);
    assert longer[..|trace|] == trace;
  }
}
