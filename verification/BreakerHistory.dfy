// A counter-free specification of a sub-breaker, and the proof that the counters
// of internal/upstream/guard.go refine it.
//
// The specification keeps nothing but the log of what happened. Every field of
// the real sub-breaker (failures, strikes, openUntil, open, probing) is then a
// question about that log.

module BreakerHistory {
  import opened Domain
  import opened Int64
  import opened Breaker
  import opened GuardProtocol
  import opened GuardSafety

  // What a sub-breaker is told: a probe went out, or a result came in.
  datatype Event = ProbeSent | Seen(kind: Kind, now: int, retryAfter: int)

  function PlayOne(t: Tuning, s: Sub, e: Event): Sub {
    match e
    case ProbeSent => s.(probing := true)
    case Seen(kind, now, ra) => Observe(t, s, kind, now, ra)
  }

  function Play(t: Tuning, evs: seq<Event>): Sub {
    if evs == [] then CLOSED
    else PlayOne(t, Play(t, evs[..|evs| - 1]), evs[|evs| - 1])
  }

  // What the log says about each result.
  datatype Entry =
    | Counted                           // a fault below the threshold
    | Cleared                           // a clean result
    | Ignored                           // a result that concerns the other sub-breaker
    | Tripped(at: int, retryAfter: int) // opened, or opened again
    | Healed                            // a probe came back without the matching fault

  // Faults since the last clean result, trip or probe resolution.
  function FaultsSince(log: seq<Entry>): nat {
    if log == [] then 0
    else match log[|log| - 1]
      case Counted => FaultsSince(log[..|log| - 1]) + 1
      case Ignored => FaultsSince(log[..|log| - 1])
      case _ => 0
  }

  // Trips since the last time the breaker closed.
  function TripsSince(log: seq<Entry>): nat {
    if log == [] then 0
    else match log[|log| - 1]
      case Tripped(_, _) => TripsSince(log[..|log| - 1]) + 1
      case Healed => 0
      case _ => TripsSince(log[..|log| - 1])
  }

  // The latest trip, if the breaker has not closed since.
  function LastTrip(log: seq<Entry>): (e: Option<Entry>)
    ensures e.Some? ==> e.value.Tripped?
    ensures e.Some? <==> TripsSince(log) > 0
  {
    if log == [] then None
    else match log[|log| - 1]
      case Tripped(_, _) => Some(log[|log| - 1])
      case Healed => None
      case _ => LastTrip(log[..|log| - 1])
  }

  // The k-th trip in a row lasts cooldown * 2^(min(k, 4) - 1), or what the
  // upstream asked for if that is longer.
  function NominalLength(t: Tuning, k: nat, retryAfter: int): int
    requires k >= 1
  {
    var doublings := if t.grow then Min(k, MAX_SESSION_STRIKES) - 1 else 0;
    Max(t.cooldown * Pow2(doublings), retryAfter * SECOND)
  }

  predicate ProbeOut(evs: seq<Event>) {
    evs != [] && evs[|evs| - 1].ProbeSent?
  }

  // How one result reads in the log, given whether a probe was out.
  function EntryFor(t: Tuning, log: seq<Entry>, probeOut: bool, kind: Kind, now: int, ra: int): Entry {
    if probeOut then
      if kind == Kind.Fault then Tripped(now, ra) else Healed
    else match kind
      case Fault => if FaultsSince(log) + 1 == t.threshold then Tripped(now, ra) else Counted
      case Clean => Cleared
      case Other => Ignored
  }

  function Log(t: Tuning, evs: seq<Event>): seq<Entry> {
    if evs == [] then []
    else
      var init, e := evs[..|evs| - 1], evs[|evs| - 1];
      match e
      case ProbeSent => Log(t, init)
      case Seen(kind, now, ra) =>
        Log(t, init) + [EntryFor(t, Log(t, init), ProbeOut(init), kind, now, ra)]
  }

  function StrikesOf(t: Tuning, trips: nat): nat {
    if t.grow then Min(trips, MAX_SESSION_STRIKES) else 0
  }

  // The end of the latest trip, in the code's own arithmetic.
  function OpenUntil(t: Tuning, log: seq<Entry>): Option<int> {
    var last := LastTrip(log);
    if last.None? then None
    else Some(last.value.at + TripLength(t, StrikesOf(t, TripsSince(log)), last.value.retryAfter))
  }

  function FromLog(t: Tuning, log: seq<Entry>, probing: bool): Sub {
    Sub(FaultsSince(log), StrikesOf(t, TripsSince(log)), OpenUntil(t, log), probing, TripsSince(log) > 0)
  }

  lemma LogGrows(log: seq<Entry>, e: Entry)
    ensures FaultsSince(log + [e])
         == (match e case Counted => FaultsSince(log) + 1 case Ignored => FaultsSince(log) case _ => 0)
    ensures TripsSince(log + [e])
         == (match e case Tripped(_, _) => TripsSince(log) + 1 case Healed => 0 case _ => TripsSince(log))
    ensures LastTrip(log + [e])
         == (match e case Tripped(_, _) => Some(e) case Healed => None case _ => LastTrip(log))
  {
    assert (log + [e])[..|log|] == log;
  }

  lemma {:induction false} FaultsBelowThreshold(t: Tuning, evs: seq<Event>)
    requires ValidTuning(t)
    ensures FaultsSince(Log(t, evs)) < t.threshold
  {
    if evs != [] {
      var init, e := evs[..|evs| - 1], evs[|evs| - 1];
      FaultsBelowThreshold(t, init);
      if e.Seen? {
        LogGrows(Log(t, init), EntryFor(t, Log(t, init), ProbeOut(init), e.kind, e.now, e.retryAfter));
      }
    }
  }

  lemma TripIsLogged(t: Tuning, log: seq<Entry>, s: Sub, now: int, ra: int)
    requires s.strikes == StrikesOf(t, TripsSince(log)) && !s.probing
    ensures Trip(t, s, now, ra) == FromLog(t, log + [Tripped(now, ra)], false)
  {
    hide TripLength;
    LogGrows(log, Tripped(now, ra));
  }

  lemma ObserveIsLogged(t: Tuning, log: seq<Entry>, probing: bool, kind: Kind, now: int, ra: int)
    requires FaultsSince(log) < t.threshold
    ensures Observe(t, FromLog(t, log, probing), kind, now, ra)
         == FromLog(t, log + [EntryFor(t, log, probing, kind, now, ra)], false)
  {
    hide TripLength;
    var s := FromLog(t, log, probing);
    var entry := EntryFor(t, log, probing, kind, now, ra);
    if kind == Kind.Fault && (probing || FaultsSince(log) + 1 == t.threshold) {
      var s' := if probing then s.(probing := false) else s.(failures := s.failures + 1);
      TripIsLogged(t, log, s', now, ra);
      assert Observe(t, s, kind, now, ra) == Trip(t, s', now, ra);
    } else {
      LogGrows(log, entry);
    }
  }

  // The refinement, for every trace of probes and results: counters, deadline and
  // flags are exactly what the log says.
  lemma {:induction false} CountersRefineLog(t: Tuning, evs: seq<Event>)
    requires ValidTuning(t)
    ensures Play(t, evs) == FromLog(t, Log(t, evs), ProbeOut(evs))
  {
    if evs != [] {
      hide FromLog, Observe;
      var init, e := evs[..|evs| - 1], evs[|evs| - 1];
      CountersRefineLog(t, init);
      FaultsBelowThreshold(t, init);
      if e.Seen? {
        ObserveIsLogged(t, Log(t, init), ProbeOut(init), e.kind, e.now, e.retryAfter);
      } else {
        ProbeIsNotLogged(t, Log(t, init), ProbeOut(init));
      }
    } else {
      assert FromLog(t, [], false) == CLOSED;
    }
  }

  lemma ProbeIsNotLogged(t: Tuning, log: seq<Entry>, probing: bool)
    ensures FromLog(t, log, probing).(probing := true) == FromLog(t, log, true)
  {
  }

  // A sub-breaker with no probe out trips exactly at the threshold-th fault.
  lemma TripsExactlyAtThreshold(t: Tuning, evs: seq<Event>, now: int, ra: int)
    requires ValidTuning(t) && !ProbeOut(evs)
    ensures Trips(t, Play(t, evs), Kind.Fault) <==> FaultsSince(Log(t, evs)) + 1 == t.threshold
    ensures Trips(t, Play(t, evs), Kind.Fault) <==> Fail(t, Play(t, evs), now, ra).failures == 0
  {
    hide TripLength;
    CountersRefineLog(t, evs);
    FaultsBelowThreshold(t, evs);
  }

  // The code's trip length is the nominal one exactly when the nominal one is a
  // 64-bit duration.
  lemma TripLengthIsNominalIff(t: Tuning, k: nat, ra: int)
    requires ValidTuning(t) && k >= 1 && ra >= 0
    ensures TripLength(t, StrikesOf(t, k), ra) == NominalLength(t, k, ra) <==> NominalLength(t, k, ra) <= MAX
  {
    hide Pow2, Wrap;
    var doublings := if t.grow then Min(k, MAX_SESSION_STRIKES) - 1 else 0;
    var cd := t.cooldown * Pow2(doublings);
    Grows(t.cooldown, Pow2(doublings));
    assert TripLength(t, StrikesOf(t, k), ra) == Max(Wrap(cd), Wrap(ra * SECOND));
  }

  lemma Grows(x: int, p: nat)
    requires x >= 0 && p >= 1
    ensures x * p >= x && Pow2(0) == 1
  {
  }

  // So, while open, openUntil is the instant of the latest trip plus its nominal
  // length, exactly when that length is a duration.
  lemma OpenUntilIsNominalIff(t: Tuning, evs: seq<Event>)
    requires ValidTuning(t) && Play(t, evs).open
    ensures var log := Log(t, evs);
            && LastTrip(log).Some?
            && var trip, k := LastTrip(log).value, TripsSince(log);
               k >= 1 && (trip.retryAfter >= 0 ==>
                 (Play(t, evs).openUntil == Some(trip.at + NominalLength(t, k, trip.retryAfter))
                  <==> NominalLength(t, k, trip.retryAfter) <= MAX))
  {
    hide TripLength, NominalLength;
    CountersRefineLog(t, evs);
    var log := Log(t, evs);
    if LastTrip(log).value.retryAfter >= 0 {
      TripLengthIsNominalIff(t, TripsSince(log), LastTrip(log).value.retryAfter);
    }
  }

  // ---------------------------------------------------------------------------
  // What a result says, by its error code

  // A rate limit, an outage, a timeout or an unreadable answer.
  predicate UpstreamWide(err: Option<Error>) {
    && err.Some? && err.value.Structured?
    && err.value.code in {UpstreamRateLimited, UpstreamUnavailable, UpstreamTimeout, UpstreamParseError}
  }

  // An authentication failure.
  predicate SessionRefused(err: Option<Error>) {
    err.Some? && err.value.Structured? && err.value.code == UpstreamAuthFailed
  }

  predicate CleanResult(err: Option<Error>) { !UpstreamWide(err) && !SessionRefused(err) }

  function AskedSeconds(err: Option<Error>): int {
    match err
    case Some(Structured(_, seconds)) => seconds
    case _ => 0
  }

  // With no probe out, for either sub-breaker: a clean result forgets the faults
  // counted so far and nothing else, the other sub-breaker's fault changes nothing,
  // its own below the threshold is counted and nothing else. What a caller's call
  // brings is no business of the session breaker.
  lemma ResultsByCode(c: Config, p: Pair, err: Option<Error>, now: int, mode: Mode)
    ensures var general, was := AfterRecord(c, p, err, now, mode).general, p.general;
            !was.probing ==>
              && (CleanResult(err) ==> general == was.(failures := 0))
              && (SessionRefused(err) ==> general == was)
              && (UpstreamWide(err) && was.failures + 1 < c.general.threshold ==>
                    general == was.(failures := was.failures + 1))
              && (UpstreamWide(err) && was.failures + 1 >= c.general.threshold ==>
                    general == Trip(c.general, was, now, AskedSeconds(err)))
    ensures var session, was := AfterRecord(c, p, err, now, mode).session, p.session;
            && (mode == Caller ==> session == was)
            && (mode == Server && !was.probing ==>
                  && (CleanResult(err) ==> session == was.(failures := 0))
                  && (UpstreamWide(err) ==> session == was)
                  && (SessionRefused(err) && was.failures + 1 < c.session.threshold ==>
                        session == was.(failures := was.failures + 1))
                  && (SessionRefused(err) && was.failures + 1 >= c.session.threshold ==>
                        session == Trip(c.session, was, now, AskedSeconds(err))))
  {
    hide TripLength, Sync;
  }

  // With a probe out, the next result resolves it: the matching fault trips the
  // sub-breaker again, anything else closes it.
  lemma ProbesByCode(c: Config, p: Pair, err: Option<Error>, now: int, mode: Mode)
    ensures var general, was := AfterRecord(c, p, err, now, mode).general, p.general;
            was.probing ==>
              general == if UpstreamWide(err) then Trip(c.general, was, now, AskedSeconds(err)).(probing := false)
                         else CLOSED
    ensures var session, was := AfterRecord(c, p, err, now, mode).session, p.session;
            was.probing && mode == Server ==>
              session == if SessionRefused(err) then Trip(c.session, was, now, AskedSeconds(err)).(probing := false)
                         else CLOSED
  {
    hide TripLength, Sync;
  }

  // ---------------------------------------------------------------------------
  // The sub-breakers of a running guard

  // How a sub-breaker must take a result.
  function KindFor(err: Option<Error>, session: bool): Kind {
    if CleanResult(err) then Clean
    else if SessionRefused(err) == session then Fault
    else Other
  }

  // What one step of the guard tells the general sub-breaker.
  function GeneralEvent(c: Setup, s: Guard, st: Step): seq<Event> {
    if LetsPast(s, st) && Admitted(s.br, st.now, st.mode).generalProbe then [ProbeSent]
    else if Records(s, st) then
      var err := s.tickets[st.id].phase.result;
      [Seen(KindFor(err, false), st.now, AskedSeconds(err))]
    else []
  }

  function GeneralEvents(c: Setup, steps: seq<Step>): seq<Event> {
    if steps == [] then []
    else
      var init := steps[..|steps| - 1];
      GeneralEvents(c, init) + GeneralEvent(c, Run(c, IDLE, init), steps[|steps| - 1])
  }

  // What one step of the guard tells the session sub-breaker.
  function SessionEvent(c: Setup, s: Guard, st: Step): seq<Event> {
    if LetsPast(s, st) && Admitted(s.br, st.now, st.mode).sessionProbe then [ProbeSent]
    else if Records(s, st) && s.tickets[st.id].mode == Server then
      var err := s.tickets[st.id].phase.result;
      [Seen(KindFor(err, true), st.now, AskedSeconds(err))]
    else []
  }

  function SessionEvents(c: Setup, steps: seq<Step>): seq<Event> {
    if steps == [] then []
    else
      var init := steps[..|steps| - 1];
      SessionEvents(c, init) + SessionEvent(c, Run(c, IDLE, init), steps[|steps| - 1])
  }

  function PlayMore(t: Tuning, s: Sub, more: seq<Event>): Sub
    requires |more| <= 1
  {
    if more == [] then s else PlayOne(t, s, more[0])
  }

  lemma PlayAppend(t: Tuning, evs: seq<Event>, more: seq<Event>)
    requires |more| <= 1
    ensures Play(t, evs + more) == PlayMore(t, Play(t, evs), more)
  {
    if more == [] {
      assert evs + more == evs;
    } else {
      assert (evs + more)[..|evs + more| - 1] == evs;
    }
  }

  lemma GeneralStepIsEvent(c: Setup, s: Guard, st: Step)
    ensures Next(c, s, st).br.general == PlayMore(c.breaker.general, s.br.general, GeneralEvent(c, s, st))
  {
  }

  lemma {:induction false} GuardPlaysGeneral(c: Setup, steps: seq<Step>)
    ensures Run(c, IDLE, steps).br.general == Play(c.breaker.general, GeneralEvents(c, steps))
  {
    if steps != [] {
      var init, st := steps[..|steps| - 1], steps[|steps| - 1];
      GuardPlaysGeneral(c, init);
      GeneralStepIsEvent(c, Run(c, IDLE, init), st);
      PlayAppend(c.breaker.general, GeneralEvents(c, init), GeneralEvent(c, Run(c, IDLE, init), st));
    }
  }

  lemma SessionStepIsEvent(c: Setup, s: Guard, st: Step)
    ensures Next(c, s, st).br.session == PlayMore(c.breaker.session, s.br.session, SessionEvent(c, s, st))
  {
  }

  lemma {:induction false} GuardPlaysSession(c: Setup, steps: seq<Step>)
    ensures Run(c, IDLE, steps).br.session == Play(c.breaker.session, SessionEvents(c, steps))
  {
    if steps != [] {
      var init, st := steps[..|steps| - 1], steps[|steps| - 1];
      GuardPlaysSession(c, init);
      SessionStepIsEvent(c, Run(c, IDLE, init), st);
      PlayAppend(c.breaker.session, SessionEvents(c, init), SessionEvent(c, Run(c, IDLE, init), st));
    }
  }

  // In every interleaved run of a guard, both sub-breakers are what their logs
  // say: how many faults are counted, how many trips in a row, until when.
  lemma {:induction false} GuardRefinesHistory(c: Setup, steps: seq<Step>)
    requires ValidSetup(c)
    ensures
      var p := Run(c, IDLE, steps).br;
      var g, s := GeneralEvents(c, steps), SessionEvents(c, steps);
      && p.general == FromLog(c.breaker.general, Log(c.breaker.general, g), ProbeOut(g))
      && p.session == FromLog(c.breaker.session, Log(c.breaker.session, s), ProbeOut(s))
      && p.general.failures < c.breaker.general.threshold
      && p.session.failures < c.breaker.session.threshold
  {
    GuardPlaysGeneral(c, steps);
    GuardPlaysSession(c, steps);
    CountersRefineLog(c.breaker.general, GeneralEvents(c, steps));
    CountersRefineLog(c.breaker.session, SessionEvents(c, steps));
    FaultsBelowThreshold(c.breaker.general, GeneralEvents(c, steps));
    FaultsBelowThreshold(c.breaker.session, SessionEvents(c, steps));
  }

  // ---------------------------------------------------------------------------
  // The counters, from the recorded results alone

  function SubOf(p: Pair, session: bool): Sub { if session then p.session else p.general }

  function TuningOf(c: Setup, session: bool): Tuning { if session then c.breaker.session else c.breaker.general }

  predicate Matches(err: Option<Error>, session: bool) {
    if session then SessionRefused(err) else UpstreamWide(err)
  }

  // The i-th step brings the sub-breaker a result.
  predicate HearsAt(c: Setup, steps: seq<Step>, i: int, session: bool) {
    && 0 <= i < |steps|
    && var s := Run(c, IDLE, steps[..i]);
       Records(s, steps[i]) && (session ==> s.tickets[steps[i].id].mode == Server)
  }

  function HeardAt(c: Setup, steps: seq<Step>, i: int, session: bool): Option<Error>
    requires HearsAt(c, steps, i, session)
  {
    Run(c, IDLE, steps[..i]).tickets[steps[i].id].phase.result
  }

  // It is a fault of the sub-breaker's own kind.
  predicate FaultAt(c: Setup, steps: seq<Step>, i: int, session: bool) {
    HearsAt(c, steps, i, session) && Matches(HeardAt(c, steps, i, session), session)
  }

  // It is clean, resolves a probe or trips the sub-breaker.
  predicate StartsOverAt(c: Setup, steps: seq<Step>, i: int, session: bool) {
    && HearsAt(c, steps, i, session)
    && var err, was := HeardAt(c, steps, i, session), SubOf(Run(c, IDLE, steps[..i]).br, session);
       || CleanResult(err) || was.probing
       || (Matches(err, session) && was.failures + 1 >= TuningOf(c, session).threshold)
  }

  // How many faults came from the k-th step on.
  function FaultsFrom(c: Setup, steps: seq<Step>, k: nat, session: bool): nat {
    if |steps| <= k then 0
    else FaultsFrom(c, steps[..|steps| - 1], k, session)
         + (if FaultAt(c, steps, |steps| - 1, session) then 1 else 0)
  }

  // The k-th step is the first after the last one to start the count over.
  ghost predicate CountsFrom(c: Setup, steps: seq<Step>, k: nat, session: bool) {
    && k <= |steps| && (k > 0 ==> StartsOverAt(c, steps, k - 1, session))
    && forall i :: k <= i < |steps| ==> !StartsOverAt(c, steps, i, session)
  }

  lemma CountStep(c: Setup, steps: seq<Step>, session: bool)
    requires steps != []
    ensures var n := |steps| - 1;
            var was, now := SubOf(Run(c, IDLE, steps[..n]).br, session), SubOf(Run(c, IDLE, steps).br, session);
            now.failures == if StartsOverAt(c, steps, n, session) then 0
                            else was.failures + (if FaultAt(c, steps, n, session) then 1 else 0)
  {
    var n := |steps| - 1;
    var s, st := Run(c, IDLE, steps[..n]), steps[n];
    if Records(s, st) {
      var t := s.tickets[st.id];
      ResultsByCode(c.breaker, s.br, t.phase.result, st.now, t.mode);
      ProbesByCode(c.breaker, s.br, t.phase.result, st.now, t.mode);
      hide AfterRecord, TripLength;
    }
  }

  lemma EarlierIsTheSame(c: Setup, steps: seq<Step>, i: nat, session: bool)
    requires i < |steps| - 1
    ensures StartsOverAt(c, steps[..|steps| - 1], i, session) <==> StartsOverAt(c, steps, i, session)
  {
    hide Run;
    assert steps[..|steps| - 1][..i] == steps[..i];
  }

  // In every run, for either sub-breaker: the counter is the number of recorded
  // faults of its own kind since the last clean result, trip or probe resolution.
  lemma {:induction false} FailuresAreFaultsSince(c: Setup, steps: seq<Step>, session: bool)
    ensures exists k :: CountsFrom(c, steps, k, session)
                        && SubOf(Run(c, IDLE, steps).br, session).failures == FaultsFrom(c, steps, k, session)
  {
    hide Run, StartsOverAt, FaultAt;
    if steps == [] {
      assert Run(c, IDLE, steps) == IDLE by { RunNothing(c); }
      assert CountsFrom(c, steps, 0, session);
    } else {
      var n := |steps| - 1;
      var init := steps[..n];
      FailuresAreFaultsSince(c, init, session);
      var k: nat :| CountsFrom(c, init, k, session)
                    && SubOf(Run(c, IDLE, init).br, session).failures == FaultsFrom(c, init, k, session);
      CountStep(c, steps, session);
      forall i: nat | i < n ensures StartsOverAt(c, init, i, session) <==> StartsOverAt(c, steps, i, session) {
        EarlierIsTheSame(c, steps, i, session);
      }
      if StartsOverAt(c, steps, n, session) {
        assert CountsFrom(c, steps, n + 1, session);
      } else {
        assert CountsFrom(c, steps, k, session);
      }
    }
  }

  lemma FreedStep(c: Setup, s: Guard, st: Step, id: nat)
    requires id < |Next(c, s, st).tickets| && Next(c, s, st).tickets[id].phase.Freed?
    ensures id < |s.tickets|
    ensures s.tickets[id].phase == Next(c, s, st).tickets[id].phase
         || (At(s, id, Holding) && st == Release(id, Next(c, s, st).tickets[id].phase.result))
  {
    hide BlockedHint, AfterBlocked, AfterRecord;
  }

  // What is recorded for a call is what its release was given.
  lemma {:induction false} RecordedIsGiven(c: Setup, steps: seq<Step>, id: nat)
    requires id < |Run(c, IDLE, steps).tickets| && Run(c, IDLE, steps).tickets[id].phase.Freed?
    ensures exists i :: 0 <= i < |steps| && At(Run(c, IDLE, steps[..i]), id, Holding)
                        && steps[i] == Release(id, Run(c, IDLE, steps).tickets[id].phase.result)
  {
    if steps != [] {
      hide Next;
      var n := |steps| - 1;
      var init, st := steps[..n], steps[n];
      var s := Run(c, IDLE, init);
      FreedStep(c, s, st, id);
      if s.tickets[id].phase.Freed? {
        RecordedIsGiven(c, init, id);
        var i :| 0 <= i < |init| && At(Run(c, IDLE, init[..i]), id, Holding)
                 && init[i] == Release(id, s.tickets[id].phase.result);
        assert init[..i] == steps[..i] && steps[i] == init[i];
      } else {
        assert steps[..n] == init && At(s, id, Holding);
      }
    }
  }

  // ---------------------------------------------------------------------------
  // Cooldown arithmetic

  // Eight cooldowns fit in an int64 duration.
  predicate ExactCooldown(t: Tuning) {
    t.grow ==> 8 * t.cooldown <= MAX
  }

  predicate DoublesExactly(t: Tuning, d: nat) {
    Shl(t.cooldown, d) == t.cooldown * Pow2(d)
  }

  // The shift is exact for every number of trips in a row exactly when eight
  // cooldowns fit in a duration.
  lemma DoublingExactIff(t: Tuning)
    requires ValidTuning(t) && t.grow
    ensures (forall d: nat :: d < MAX_SESSION_STRIKES ==> DoublesExactly(t, d)) <==> ExactCooldown(t)
  {
    assert Pow2(0) == 1 && Pow2(1) == 2 && Pow2(2) == 4 && Pow2(3) == 8;
    assert t.cooldown * 1 <= t.cooldown * 2 <= t.cooldown * 4 <= t.cooldown * 8;
    if ExactCooldown(t) {
      forall d: nat | d < MAX_SESSION_STRIKES ensures DoublesExactly(t, d) {
        assert d == 0 || d == 1 || d == 2 || d == 3;
      }
    } else {
      assert !DoublesExactly(t, 3);
    }
  }

  // Every session trip lasts at least one and, unless the upstream asked for
  // more, at most eight cooldowns.
  lemma SessionCooldownBounds(t: Tuning, k: nat, ra: int)
    requires ValidTuning(t) && t.grow && k >= 1
    ensures t.cooldown <= NominalLength(t, k, ra) <= Max(8 * t.cooldown, ra * SECOND)
    ensures k > 1 && ra * SECOND < t.cooldown ==>
              NominalLength(t, k, ra) == NominalLength(t, k - 1, ra) * (if k <= MAX_SESSION_STRIKES then 2 else 1)
  {
    assert Pow2(0) == 1 && Pow2(1) == 2 && Pow2(2) == 4 && Pow2(3) == 8;
    var d := Min(k, MAX_SESSION_STRIKES) - 1;
    assert d == 0 || d == 1 || d == 2 || d == 3;
    assert t.cooldown * 1 <= t.cooldown * 2 <= t.cooldown * 4 <= t.cooldown * 8;
  }

  // A trip's deadline is no sooner than its Retry-After exactly when that is at most
  // 9223372036 seconds: beyond that the product wraps around, and nothing an int64
  // duration can hold is long enough. What later trips do to it: RetryAfterRuns.
  lemma TripCoversRetryAfterIff(t: Tuning, s: Sub, now: int, ra: int)
    requires ValidTuning(t) && s.strikes <= MAX_SESSION_STRIKES && ra >= 0
    ensures Trip(t, s, now, ra).openUntil.value - now >= ra * SECOND <==> ra <= 9_223_372_036
  {
    var strikes := StrikesAfterTrip(t, s.strikes);
    assert Fits(TripLength(t, strikes, ra));
  }

  // A sub-breaker blocks before its deadline, and after it while a probe is out.
  // The hint is the remaining time in whole seconds, at least one, as far as a
  // duration can hold it; after the deadline it is one.
  lemma HintIsTight(s: Sub, now: int)
    ensures Blocking(s, now).Some? <==> s.openUntil.Some? && (now < s.openUntil.value || s.probing)
    ensures Blocking(s, now).Some? ==>
              var hint, wait := Blocking(s, now).value, s.openUntil.value - now;
              && hint >= 1
              && (wait < SECOND ==> hint == 1)
              && (SECOND <= wait <= MAX ==> hint * SECOND <= wait < (hint + 1) * SECOND)
              && (wait > MAX ==> hint == 9_223_372_036)
  {
  }
}
