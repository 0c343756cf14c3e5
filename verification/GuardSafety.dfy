// What every run of the guard protocol keeps, and when a guard can recover.

module GuardSafety {
  import opened Domain
  import opened Breaker
  import opened GuardProtocol

  // ---------------------------------------------------------------------------
  // Slots

  function Holders(ts: seq<Ticket>): set<nat> {
    set i: nat | i < |ts| && ts[i].phase.Holding?
  }

  lemma {:induction false} CountIsCardinality(ts: seq<Ticket>)
    ensures HoldingCount(ts) == |Holders(ts)|
  {
    if ts != [] {
      var n := |ts| - 1;
      CountIsCardinality(ts[..n]);
      if ts[n].phase.Holding? {
        assert Holders(ts) == Holders(ts[..n]) + {n};
      } else {
        assert Holders(ts) == Holders(ts[..n]);
      }
    }
  }

  // The semaphore is held by exactly the tickets whose release has not run yet,
  // never by more than the ceiling; every ticket frees its slot once and records
  // once, in that order, and a rejected one does neither.
  lemma ConcurrencyCeiling(c: Setup, steps: seq<Step>)
    requires ValidSetup(c)
    ensures
      var s := Run(c, IDLE, steps);
      && s.slots == |Holders(s.tickets)| <= c.maxConcurrency
      && forall t :: t in s.tickets ==>
           && t.records <= t.frees <= 1
           && (t.frees == 1 <==> t.phase.Freed? || t.phase.Recorded?)
           && (t.records == 1 <==> t.phase.Recorded?)
  {
    Reachable(c, steps);
    CountIsCardinality(Run(c, IDLE, steps).tickets);
  }

  // Calling a release function again, at any later point of any run, changes
  // nothing at all.
  lemma {:induction false} ReleaseOnce(c: Setup, s: Guard, id: nat, result: Option<Error>, later: seq<Step>,
                                       again: Option<Error>)
    requires At(s, id, Holding)
    ensures var s' := Run(c, Next(c, s, Release(id, result)), later);
            id < |s'.tickets| && (s'.tickets[id].phase == Freed(result) || s'.tickets[id].phase == Recorded)
            && Next(c, s', Release(id, again)) == s'
  {
    if later != [] {
      ReleaseOnce(c, s, id, result, later[..|later| - 1], again);
    }
  }

  // ---------------------------------------------------------------------------
  // Stranded probes

  // A general probe is outstanding and no call is left that could resolve it.
  ghost predicate GeneralStranded(s: Guard) {
    s.br.general.probing && forall i :: 0 <= i < |s.tickets| ==> !InFlight(s.tickets[i])
  }

  // The same for the session probe, which only server-mode calls resolve.
  ghost predicate SessionStranded(s: Guard) {
    && s.br.session.probing
    && forall i :: 0 <= i < |s.tickets| && s.tickets[i].mode == Server ==> !InFlight(s.tickets[i])
  }

  ghost predicate Stranded(s: Guard, mode: Mode) {
    GeneralStranded(s) || (mode == Server && SessionStranded(s))
  }

  ghost predicate LimiterTookGeneralProbe(ts: seq<Ticket>, i: nat) {
    LatestGeneralProbe(ts, i) && ts[i].phase == Rejected(RateExceeded)
  }

  ghost predicate SessionProbeRefused(ts: seq<Ticket>, i: nat) {
    LatestSessionProbe(ts, i) && (ts[i].phase == Rejected(RateExceeded) || ts[i].phase == Rejected(ConcurrencyLimit))
  }

  // The only way to lose a general probe is a limiter rejection of that probe.
  lemma StrandedOnlyByLimiter(c: Setup, steps: seq<Step>)
    requires ValidSetup(c) && GeneralStranded(Run(c, IDLE, steps))
    ensures exists probe: nat :: LimiterTookGeneralProbe(Run(c, IDLE, steps).tickets, probe)
  {
    Reachable(c, steps);
    var s := Run(c, IDLE, steps);
    var probe: nat :| LatestGeneralProbe(s.tickets, probe) && ProbeNotDone(s.tickets[probe]);
    assert !InFlight(s.tickets[probe]);
    assert LimiterTookGeneralProbe(s.tickets, probe);
  }

  // A session probe can also be lost to the semaphore, when callers hold it.
  lemma SessionStrandedByRejection(c: Setup, steps: seq<Step>)
    requires ValidSetup(c) && SessionStranded(Run(c, IDLE, steps))
    ensures exists probe: nat :: SessionProbeRefused(Run(c, IDLE, steps).tickets, probe)
  {
    hide Run, GaugesOk, SlotsOk, GeneralProbeOk;
    Reachable(c, steps);
    var s := Run(c, IDLE, steps);
    var probe: nat :| LatestSessionProbe(s.tickets, probe) && !s.tickets[probe].phase.Recorded?;
    assert TicketOk(s.tickets[probe]) && !InFlight(s.tickets[probe]);
    assert SessionProbeRefused(s.tickets, probe);
  }

  lemma StrandedStep(c: Setup, s: Guard, st: Step, mode: Mode)
    requires ValidSetup(c) && BreakerOk(c, s.br) && Stranded(s, mode)
    ensures Stranded(Next(c, s, st), mode)
    ensures st.Enter? && st.mode == mode ==>
      var t := Next(c, s, st).tickets;
      |t| == |s.tickets| + 1 && t[|s.tickets|].phase.Rejected? && t[|s.tickets|].phase.reason.CircuitOpen?
  {
  }

  // Once stranded, every continuation, at any instants whatever, stays stranded
  // and refuses every later Enter of that mode.
  lemma {:induction false} StrandedForever(c: Setup, s: Guard, steps: seq<Step>, mode: Mode, now: int)
    requires ValidSetup(c) && Inv(c, s) && Stranded(s, mode)
    ensures Stranded(Run(c, s, steps), mode)
    ensures BlockedHint(Run(c, s, steps).br, now, mode).Some?
  {
    if steps != [] {
      var init := steps[..|steps| - 1];
      StrandedForever(c, s, init, mode, now);
      InvRun(c, s, init);
      StrandedStep(c, Run(c, s, init), steps[|steps| - 1], mode);
    }
    InvRun(c, s, steps);
  }

  // Steps with no new arrivals, all of them at one instant.
  predicate Calm(steps: seq<Step>, at: int) {
    forall i :: 0 <= i < |steps| ==> !steps[i].Enter? && (steps[i].Record? ==> steps[i].now == at)
  }

  // From s, without any new arrival and with the clock only moving forward, the
  // guard can get to a state that lets a call of this mode past the breaker.
  ghost predicate CanServe(c: Setup, s: Guard, mode: Mode, at: int) {
    exists steps, now :: Calm(steps, at) && now >= at && BlockedHint(Run(c, s, steps).br, now, mode).None?
  }

  ghost predicate Driven(c: Setup, s: Guard, id: nat, at: int, steps: seq<Step>)
    requires id < |s.tickets|
  {
    var s' := Run(c, s, steps);
    && Calm(steps, at)
    && !s'.br.general.probing
    && (s.tickets[id].mode == Server || !s.br.session.probing ==> !s'.br.session.probing)
  }

  lemma DriveFreed(c: Setup, s: Guard, id: nat, at: int) returns (steps: seq<Step>)
    requires ValidSetup(c) && id < |s.tickets| && s.tickets[id].phase.Freed?
    ensures Driven(c, s, id, at, steps)
  {
    steps := [Record(id, at)];
    assert steps[..0] == [];
    assert Run(c, s, steps) == Next(c, Run(c, s, []), Record(id, at));
  }

  // One step that leaves the breaker alone, then the rest.
  lemma DriveAfter(c: Setup, s: Guard, st: Step, id: nat, at: int, rest: seq<Step>)
    requires id < |s.tickets| && !st.Enter? && !st.Record?
    requires id < |Next(c, s, st).tickets| && Next(c, s, st).tickets[id].mode == s.tickets[id].mode
    requires Driven(c, Next(c, s, st), id, at, rest)
    ensures Driven(c, s, id, at, [st] + rest)
  {
    RunConcat(c, s, [st], rest);
    assert [st][..0] == [];
    assert Run(c, s, [st]) == Next(c, Run(c, s, []), st);
  }

  lemma DriveHolding(c: Setup, s: Guard, id: nat, at: int) returns (steps: seq<Step>)
    requires ValidSetup(c) && At(s, id, Holding)
    ensures Driven(c, s, id, at, steps)
  {
    var st := Release(id, None);
    var rest := DriveFreed(c, Next(c, s, st), id, at);
    DriveAfter(c, s, st, id, at, rest);
    steps := [st] + rest;
  }

  lemma DriveAllowed(c: Setup, s: Guard, id: nat, at: int) returns (steps: seq<Step>)
    requires ValidSetup(c) && SlotsOk(c, s) && At(s, id, Allowed)
    ensures Driven(c, s, id, at, steps)
  {
    var take := Acquire(id);
    if s.slots < c.maxConcurrency {
      var rest := DriveHolding(c, Next(c, s, take), id, at);
      DriveAfter(c, s, take, id, at, rest);
      steps := [take] + rest;
    } else {
      var h := SomeoneHolds(s.tickets);
      var free := Release(h, None);
      var s1 := Next(c, s, free);
      var rest := DriveHolding(c, Next(c, s1, take), id, at);
      DriveAfter(c, s1, take, id, at, rest);
      DriveAfter(c, s, free, id, at, [take] + rest);
      steps := [free] + ([take] + rest);
    }
  }

  lemma Drive(c: Setup, s: Guard, id: nat, at: int) returns (steps: seq<Step>)
    requires ValidSetup(c) && SlotsOk(c, s) && id < |s.tickets| && InFlight(s.tickets[id])
    ensures Driven(c, s, id, at, steps)
  {
    match s.tickets[id].phase
    case Checked =>
      var st := Limit(id, true);
      SlotsStep(c, s, st);
      var rest := DriveAllowed(c, Next(c, s, st), id, at);
      DriveAfter(c, s, st, id, at, rest);
      steps := [st] + rest;
    case Allowed => steps := DriveAllowed(c, s, id, at);
    case Holding => steps := DriveHolding(c, s, id, at);
    case Freed(_) => steps := DriveFreed(c, s, id, at);
  }

  function LateEnough(p: Pair, at: int): int {
    var g := if p.general.openUntil.Some? then Max(at, p.general.openUntil.value) else at;
    if p.session.openUntil.Some? then Max(g, p.session.openUntil.value) else g
  }

  // Exactly when a reachable guard can still serve a mode: when no probe that
  // mode depends on has been lost.
  lemma RecoverableIff(c: Setup, s: Guard, mode: Mode, at: int)
    requires ValidSetup(c) && Inv(c, s)
    ensures CanServe(c, s, mode, at) <==> !Stranded(s, mode)
  {
    if Stranded(s, mode) {
      forall steps, now ensures BlockedHint(Run(c, s, steps).br, now, mode).Some? {
        StrandedForever(c, s, steps, mode, now);
      }
    } else {
      var steps: seq<Step> := [];
      if mode == Server && s.br.session.probing {
        var id :| 0 <= id < |s.tickets| && s.tickets[id].mode == Server && InFlight(s.tickets[id]);
        steps := Drive(c, s, id, at);
      } else if s.br.general.probing {
        var id :| 0 <= id < |s.tickets| && InFlight(s.tickets[id]);
        steps := Drive(c, s, id, at);
      }
      var now := LateEnough(Run(c, s, steps).br, at);
      assert Calm(steps, at) && BlockedHint(Run(c, s, steps).br, now, mode).None?;
    }
  }

  // ---------------------------------------------------------------------------
  // Probe discipline

  // Whether recording this kind of result trips the sub-breaker.
  predicate Trips(t: Tuning, s: Sub, kind: Kind) {
    kind == Kind.Fault && (s.probing || s.failures + 1 >= t.threshold)
  }

  lemma ObserveTrips(t: Tuning, s: Sub, kind: Kind, now: int, ra: int)
    requires ValidTuning(t) && SubOk(t, s)
    ensures var s' := Observe(t, s, kind, now, ra);
            && !s'.probing
            && (Trips(t, s, kind) ==> s'.open)
            && (!Trips(t, s, kind) && s'.open ==> s.open && !s.probing)
  {
  }

  predicate Records(s: Guard, st: Step) {
    st.Record? && st.id < |s.tickets| && s.tickets[st.id].phase.Freed?
  }

  function RecordedCategory(s: Guard, st: Step): Category
    requires Records(s, st)
  {
    Classify(s.tickets[st.id].phase.result)
  }

  predicate LetsPast(s: Guard, st: Step) {
    st.Enter? && BlockedHint(s.br, st.now, st.mode).None?
  }

  // How many calls, of any mode, were let past the breaker since the general
  // sub-breaker last tripped.
  function PassedSinceTrip(c: Setup, steps: seq<Step>): nat {
    if steps == [] then 0
    else
      var init, st := steps[..|steps| - 1], steps[|steps| - 1];
      var s := Run(c, IDLE, init);
      if LetsPast(s, st) then PassedSinceTrip(c, init) + 1
      else if Records(s, st) && Trips(c.breaker.general, s.br.general, GeneralKind(RecordedCategory(s, st))) then 0
      else PassedSinceTrip(c, init)
  }

  lemma PassedStep(c: Setup, steps: seq<Step>)
    requires ValidSetup(c) && steps != []
    requires var p := Run(c, IDLE, steps[..|steps| - 1]).br;
             && BreakerOk(c, p)
             && (p.general.open ==> PassedSinceTrip(c, steps[..|steps| - 1]) == if p.general.probing then 1 else 0)
    ensures var p' := Run(c, IDLE, steps).br;
            p'.general.open ==> PassedSinceTrip(c, steps) == if p'.general.probing then 1 else 0
  {
    var s, st := Run(c, IDLE, steps[..|steps| - 1]), steps[|steps| - 1];
    var s' := Next(c, s, st);
    if Records(s, st) {
      var cat := RecordedCategory(s, st);
      var ra := RetryAfterOf(s.tickets[st.id].phase.result);
      ObserveTrips(c.breaker.general, s.br.general, GeneralKind(cat), st.now, ra);
      assert s'.br.general == Observe(c.breaker.general, s.br.general, GeneralKind(cat), st.now, ra);
    } else if LetsPast(s, st) {
      assert s'.br == AfterBlocked(s.br, st.now, st.mode);
    } else {
      assert s'.br == s.br;
    }
  }

  // While the general sub-breaker is open, the calls let past it since it last
  // tripped, in any mode, are the one probe that is out, or none.
  lemma {:induction false} GeneralProbeDiscipline(c: Setup, steps: seq<Step>)
    requires ValidSetup(c)
    ensures var g := Run(c, IDLE, steps).br.general;
            && (g.open ==> PassedSinceTrip(c, steps) == if g.probing then 1 else 0)
            && (g.probing ==> g.open)
            && (g.open <==> g.openUntil.Some?)
  {
    Reachable(c, steps);
    if steps != [] {
      var init := steps[..|steps| - 1];
      GeneralProbeDiscipline(c, init);
      Reachable(c, init);
      PassedStep(c, steps);
    }
  }

  // Session probes let past since the session sub-breaker last tripped.
  function SessionProbesSinceTrip(c: Setup, steps: seq<Step>): nat {
    if steps == [] then 0
    else
      var init, st := steps[..|steps| - 1], steps[|steps| - 1];
      var s := Run(c, IDLE, init);
      if LetsPast(s, st) && Admitted(s.br, st.now, st.mode).sessionProbe then SessionProbesSinceTrip(c, init) + 1
      else if Records(s, st) && s.tickets[st.id].mode == Server
              && Trips(c.breaker.session, s.br.session, SessionKind(RecordedCategory(s, st))) then 0
      else SessionProbesSinceTrip(c, init)
  }

  lemma SessionProbesStep(c: Setup, steps: seq<Step>)
    requires ValidSetup(c) && steps != []
    requires var p := Run(c, IDLE, steps[..|steps| - 1]).br;
             && BreakerOk(c, p)
             && (p.session.open ==>
                   SessionProbesSinceTrip(c, steps[..|steps| - 1]) == if p.session.probing then 1 else 0)
    ensures var p' := Run(c, IDLE, steps).br;
            p'.session.open ==> SessionProbesSinceTrip(c, steps) == if p'.session.probing then 1 else 0
  {
    var s, st := Run(c, IDLE, steps[..|steps| - 1]), steps[|steps| - 1];
    var s' := Next(c, s, st);
    if Records(s, st) {
      var cat := RecordedCategory(s, st);
      var ra := RetryAfterOf(s.tickets[st.id].phase.result);
      ObserveTrips(c.breaker.session, s.br.session, SessionKind(cat), st.now, ra);
      assert s'.br.session == if s.tickets[st.id].mode == Server
        then Observe(c.breaker.session, s.br.session, SessionKind(cat), st.now, ra) else s.br.session;
    } else if LetsPast(s, st) {
      assert s'.br == AfterBlocked(s.br, st.now, st.mode);
    } else {
      assert s'.br == s.br;
    }
  }

  // While the session sub-breaker is open, at most one session probe is out, and
  // the only server calls let past are that probe and general probes.
  lemma {:induction false} SessionProbeDiscipline(c: Setup, steps: seq<Step>, now: int)
    requires ValidSetup(c)
    ensures var p := Run(c, IDLE, steps).br;
            && (p.session.open ==> SessionProbesSinceTrip(c, steps) == if p.session.probing then 1 else 0)
            && (p.session.probing ==> p.session.open)
            && (p.session.open <==> p.session.openUntil.Some?)
            && (p.session.open && BlockedHint(p, now, Server).None? ==>
                  var t := Admitted(p, now, Server); t.generalProbe != t.sessionProbe)
  {
    Reachable(c, steps);
    if steps != [] {
      var init := steps[..|steps| - 1];
      SessionProbeDiscipline(c, init, now);
      Reachable(c, init);
      SessionProbesStep(c, steps);
    }
  }

  // ---------------------------------------------------------------------------
  // Metrics

  function Openings(c: Setup, steps: seq<Step>): nat {
    if steps == [] then 0
    else
      var init := steps[..|steps| - 1];
      var p, p' := Run(c, IDLE, init).br, Run(c, IDLE, steps).br;
      Openings(c, init)
      + (if !p.general.open && p'.general.open then 1 else 0)
      + (if !p.session.open && p'.session.open then 1 else 0)
  }

  lemma TripCounterStep(c: Setup, s: Guard, st: Step)
    ensures var s' := Next(c, s, st);
            s'.br.gauges.circuitTrips == s.br.gauges.circuitTrips
              + (if !s.br.general.open && s'.br.general.open then 1 else 0)
              + (if !s.br.session.open && s'.br.session.open then 1 else 0)
  {
    hide Observe, Classify;
  }

  // The circuit gauge says whether either sub-breaker is open, the session gauge
  // whether the session is healthy, and the counter how often a closed breaker
  // has opened.
  lemma {:induction false} MetricsAgree(c: Setup, steps: seq<Step>)
    requires ValidSetup(c)
    ensures var p := Run(c, IDLE, steps).br;
            && p.gauges.circuitOpen == (if p.general.open || p.session.open then 1 else 0)
            && p.gauges.sessionHealthy == (if p.session.open then 0 else 1)
            && p.gauges.circuitTrips == Openings(c, steps)
  {
    hide Next, SubOk;
    BreakerOfReachable(c, steps);
    if steps != [] {
      MetricsAgree(c, steps[..|steps| - 1]);
      TripCounterStep(c, Run(c, IDLE, steps[..|steps| - 1]), steps[|steps| - 1]);
    }
  }

  // Trips of both sub-breakers, and those among them that found the breaker
  // already open: failed probes, and faults of calls admitted before it opened.
  function TripCalls(c: Setup, s: Guard, st: Step, reopening: bool): nat {
    if !Records(s, st) then 0
    else
      var cat := RecordedCategory(s, st);
      var g := Trips(c.breaker.general, s.br.general, GeneralKind(cat)) && (reopening ==> s.br.general.open);
      var u := s.tickets[st.id].mode == Server
               && Trips(c.breaker.session, s.br.session, SessionKind(cat)) && (reopening ==> s.br.session.open);
      (if g then 1 else 0) + (if u then 1 else 0)
  }

  function AllTripCalls(c: Setup, steps: seq<Step>, reopening: bool): nat {
    if steps == [] then 0
    else
      var init := steps[..|steps| - 1];
      AllTripCalls(c, init, reopening) + TripCalls(c, Run(c, IDLE, init), steps[|steps| - 1], reopening)
  }

  lemma TripCallsStep(c: Setup, s: Guard, st: Step)
    requires ValidSetup(c) && BreakerOk(c, s.br)
    ensures var s' := Next(c, s, st);
            TripCalls(c, s, st, false) == TripCalls(c, s, st, true)
              + (if !s.br.general.open && s'.br.general.open then 1 else 0)
              + (if !s.br.session.open && s'.br.session.open then 1 else 0)
  {
    var s' := Next(c, s, st);
    if Records(s, st) {
      hide Observe, Trips, Sync, Classify;
      var cat, ra := RecordedCategory(s, st), RetryAfterOf(s.tickets[st.id].phase.result);
      ObserveTrips(c.breaker.general, s.br.general, GeneralKind(cat), st.now, ra);
      ObserveTrips(c.breaker.session, s.br.session, SessionKind(cat), st.now, ra);
    }
  }

  // The trip counter counts openings, not calls of trip: it falls short of those
  // by exactly the trips that found their breaker already open.
  lemma {:induction false} TripCounterUndercounts(c: Setup, steps: seq<Step>)
    requires ValidSetup(c)
    ensures Run(c, IDLE, steps).br.gauges.circuitTrips + AllTripCalls(c, steps, true) == AllTripCalls(c, steps, false)
  {
    hide Next, TripCalls, Inv, ValidSetup;
    MetricsAgree(c, steps);
    if steps != [] {
      var init := steps[..|steps| - 1];
      TripCounterUndercounts(c, init);
      MetricsAgree(c, init);
      BreakerOfReachable(c, init);
      TripCallsStep(c, Run(c, IDLE, init), steps[|steps| - 1]);
    }
  }

  lemma BreakerOfReachable(c: Setup, steps: seq<Step>)
    requires ValidSetup(c)
    ensures BreakerOk(c, Run(c, IDLE, steps).br)
  {
    Reachable(c, steps);
  }

  // ---------------------------------------------------------------------------
  // Credential-mode isolation

  predicate CallerOnly(steps: seq<Step>) {
    forall i :: 0 <= i < |steps| && steps[i].Enter? ==> steps[i].mode == Caller
  }

  ghost predicate CallerTickets(s: Guard) {
    forall i :: 0 <= i < |s.tickets| ==> s.tickets[i].mode == Caller
  }

  // Equal but for the session sub-breaker and the gauges.
  predicate SameForCallers(a: Guard, b: Guard) {
    a.slots == b.slots && a.tickets == b.tickets && a.br.general == b.br.general
  }

  lemma BlindStep(c: Setup, a: Guard, b: Guard, st: Step)
    requires CallerTickets(a) && SameForCallers(a, b) && (st.Enter? ==> st.mode == Caller)
    ensures SameForCallers(Next(c, a, st), Next(c, b, st)) && CallerTickets(Next(c, a, st))
    ensures Next(c, a, st).br.session == a.br.session && Next(c, b, st).br.session == b.br.session
  {
  }

  // Caller traffic neither sees nor touches the session sub-breaker: two guards
  // that differ only there take the same decisions and reach the same states.
  lemma {:induction false} CallersAreBlindToSession(c: Setup, a: Guard, b: Guard, steps: seq<Step>)
    requires CallerTickets(a) && SameForCallers(a, b) && CallerOnly(steps)
    ensures SameForCallers(Run(c, a, steps), Run(c, b, steps)) && CallerTickets(Run(c, a, steps))
    ensures Run(c, a, steps).br.session == a.br.session && Run(c, b, steps).br.session == b.br.session
  {
    if steps != [] {
      var init := steps[..|steps| - 1];
      CallersAreBlindToSession(c, a, b, init);
      BlindStep(c, Run(c, a, init), Run(c, b, init), steps[|steps| - 1]);
    }
  }

  // In a run with any traffic whatever, the steps of caller-mode tickets leave
  // the session sub-breaker alone.
  lemma CallerStepKeepsSession(c: Setup, s: Guard, st: Step)
    requires match st
             case Enter(mode, _) => mode == Caller
             case Limit(id, _) => true
             case Acquire(id) => true
             case Release(id, _) => true
             case Record(id, _) => id < |s.tickets| ==> s.tickets[id].mode == Caller
    ensures Next(c, s, st).br.session == s.br.session
  {
  }

  predicate Harmless(steps: seq<Step>) {
    forall i :: 0 <= i < |steps| && steps[i].Release? ==> Classify(steps[i].result) != GeneralFault
  }

  ghost predicate NeverOpened(s: Guard) {
    && !s.br.general.open && !s.br.session.open && s.br.gauges.circuitTrips == 0
    && s.br.general.failures == 0
    && CallerTickets(s)
    && (forall i :: 0 <= i < |s.tickets| ==>
          && (s.tickets[i].phase.Freed? ==> Classify(s.tickets[i].phase.result) != GeneralFault)
          && (s.tickets[i].phase.Rejected? ==> !s.tickets[i].phase.reason.CircuitOpen?))
  }

  predicate HarmlessStep(st: Step) {
    && (st.Enter? ==> st.mode == Caller)
    && (st.Release? ==> Classify(st.result) != GeneralFault)
  }

  lemma NeverOpenedStep(c: Setup, s: Guard, st: Step)
    requires ValidSetup(c) && BreakerOk(c, s.br) && NeverOpened(s) && HarmlessStep(st)
    ensures NeverOpened(Next(c, s, st))
  {
    if Records(s, st) {
      assert s.tickets[st.id].mode == Caller && RecordedCategory(s, st) != GeneralFault;
    } else {
      assert Next(c, s, st).br == s.br;
    }
  }

  // Callers whose results are successes, missing profiles or rejected sessions
  // never open a breaker and are never refused by one, however many there are.
  lemma {:induction false} HarmlessCallersNeverTrip(c: Setup, steps: seq<Step>)
    requires ValidSetup(c) && CallerOnly(steps) && Harmless(steps)
    ensures NeverOpened(Run(c, IDLE, steps))
  {
    if steps != [] {
      var init := steps[..|steps| - 1];
      HarmlessCallersNeverTrip(c, init);
      Reachable(c, init);
      NeverOpenedStep(c, Run(c, IDLE, init), steps[|steps| - 1]);
    }
  }

  // No result that is still to be recorded is an upstream-wide fault.
  ghost predicate HarmlessPending(s: Guard) {
    forall i :: 0 <= i < |s.tickets| && s.tickets[i].phase.Freed? ==>
      Classify(s.tickets[i].phase.result) != GeneralFault
  }

  lemma StaysClosedStep(c: Setup, s: Guard, st: Step)
    requires ValidSetup(c) && BreakerOk(c, s.br) && HarmlessPending(s) && !s.br.general.open
    requires st.Release? ==> Classify(st.result) != GeneralFault
    ensures HarmlessPending(Next(c, s, st)) && !Next(c, s, st).br.general.open
  {
    if Records(s, st) {
      assert RecordedCategory(s, st) != GeneralFault;
    }
  }

  // From any reachable state with the general breaker closed, in any traffic:
  // results that are successes, missing profiles or rejected sessions keep it
  // closed for good.
  lemma {:induction false} HarmlessResultsKeepItClosed(c: Setup, s: Guard, steps: seq<Step>)
    requires ValidSetup(c) && Inv(c, s) && !s.br.general.open && HarmlessPending(s) && Harmless(steps)
    ensures !Run(c, s, steps).br.general.open && HarmlessPending(Run(c, s, steps))
  {
    if steps != [] {
      var init := steps[..|steps| - 1];
      HarmlessResultsKeepItClosed(c, s, init);
      InvRun(c, s, init);
      StaysClosedStep(c, Run(c, s, init), steps[|steps| - 1]);
    }
  }
}
