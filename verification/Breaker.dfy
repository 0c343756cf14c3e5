// internal/upstream/guard.go: the two-level circuit breaker.
//
// `Sub` is the value of one sub-breaker; the functions on it are the meaning of
// its methods, and class SubBreaker / class TwoLevelBreaker are the mutable
// objects whose methods are proved to compute exactly those functions.

module Breaker {
  import opened Domain
  import opened Int64

  const MAX_SESSION_STRIKES := 4

  datatype Tuning = Tuning(threshold: int, cooldown: int, grow: bool)

  // What config validation guarantees (a Duration is an int64).
  predicate ValidTuning(t: Tuning) {
    t.threshold >= 1 && 0 < t.cooldown <= MAX
  }

  // openUntil is None for Go's zero time.
  datatype Sub = Sub(failures: int, strikes: nat, openUntil: Option<int>, probing: bool, open: bool)

  const CLOSED := Sub(0, 0, None, false, false)

  datatype Category = NoFault | GeneralFault | AuthFault

  function Classify(err: Option<Error>): Category {
    if err.None? || err.value.Foreign? then NoFault
    else match err.value.code
      case UpstreamAuthFailed => AuthFault
      case UpstreamRateLimited | UpstreamUnavailable | UpstreamTimeout | UpstreamParseError => GeneralFault
      case _ => NoFault
  }

  function RetryAfterOf(err: Option<Error>): int {
    if err.Some? && err.value.Structured? then err.value.retryAfter else 0
  }

  function RetryAfterSeconds(until: int, now: int): int {
    var d := Saturate(until - now) / SECOND;
    if d >= 1 then d else 1
  }

  // Some(hint) when the sub-breaker blocks, None when it lets the call past.
  function Blocking(s: Sub, now: int): Option<int> {
    if s.openUntil.None? then None
    else if now < s.openUntil.value then Some(RetryAfterSeconds(s.openUntil.value, now))
    else if s.probing then Some(1)
    else None
  }

  predicate CanProbe(s: Sub, now: int) {
    s.openUntil.Some? && now >= s.openUntil.value && !s.probing
  }

  function StrikesAfterTrip(t: Tuning, strikes: nat): nat {
    if t.grow && strikes < MAX_SESSION_STRIKES then strikes + 1 else strikes
  }

  // The cooldown a trip computes, with Go's wrapping shift and product.
  function TripLength(t: Tuning, strikes: nat, retryAfter: int): int
    requires t.grow ==> strikes >= 1
  {
    var cd := if t.grow then Shl(t.cooldown, strikes - 1) else t.cooldown;
    Max(cd, Wrap(retryAfter * SECOND))
  }

  function Trip(t: Tuning, s: Sub, now: int, retryAfter: int): Sub {
    var strikes := StrikesAfterTrip(t, s.strikes);
    s.(failures := 0, strikes := strikes, open := true,
       openUntil := Some(now + TripLength(t, strikes, retryAfter)))
  }

  function Fail(t: Tuning, s: Sub, now: int, retryAfter: int): Sub {
    var s' := s.(failures := s.failures + 1);
    if s'.failures >= t.threshold then Trip(t, s', now, retryAfter) else s'
  }

  function Close(s: Sub): Sub {
    s.(failures := 0, strikes := 0, openUntil := None, open := false)
  }

  function ProbeResult(t: Tuning, s: Sub, now: int, failed: bool, retryAfter: int): Sub {
    var s' := s.(probing := false);
    if failed then Trip(t, s', now, retryAfter) else Close(s')
  }

  // How one sub-breaker sees a recorded result.
  datatype Kind = Fault | Clean | Other

  function GeneralKind(c: Category): Kind {
    match c case GeneralFault => Fault case NoFault => Clean case AuthFault => Other
  }

  function SessionKind(c: Category): Kind {
    match c case AuthFault => Fault case NoFault => Clean case GeneralFault => Other
  }

  function Observe(t: Tuning, s: Sub, kind: Kind, now: int, retryAfter: int): Sub {
    if s.probing then ProbeResult(t, s, now, kind == Fault, retryAfter)
    else match kind
      case Fault => Fail(t, s, now, retryAfter)
      case Clean => s.(failures := 0)
      case Other => s
  }

  // The three metrics `sync` maintains.
  datatype Gauges = Gauges(circuitOpen: int, sessionHealthy: int, circuitTrips: nat)

  datatype Config = Config(general: Tuning, session: Tuning)

  predicate ValidConfig(c: Config) {
    && ValidTuning(c.general) && !c.general.grow
    && ValidTuning(c.session) && c.session.grow
  }

  datatype Pair = Pair(general: Sub, session: Sub, gauges: Gauges)

  const FRESH := Pair(CLOSED, CLOSED, Gauges(0, 1, 0))

  // Some(hint) when the call is refused.
  function BlockedHint(p: Pair, now: int, mode: Mode): Option<int> {
    if Blocking(p.general, now).Some? then Blocking(p.general, now)
    else if mode == Server then Blocking(p.session, now)
    else None
  }

  function AfterBlocked(p: Pair, now: int, mode: Mode): Pair {
    if BlockedHint(p, now, mode).Some? then p
    else if CanProbe(p.general, now) then p.(general := p.general.(probing := true))
    else if mode == Server && CanProbe(p.session, now) then p.(session := p.session.(probing := true))
    else p
  }

  function Sync(g: Gauges, general: Sub, session: Sub, prevGeneral: bool, prevSession: bool): Gauges {
    var trips := g.circuitTrips + (if general.open && !prevGeneral then 1 else 0)
                                + (if session.open && !prevSession then 1 else 0);
    var open := general.open || session.open;
    Gauges(if open != (prevGeneral || prevSession) then (if open then 1 else 0) else g.circuitOpen,
           if session.open != prevSession then (if session.open then 0 else 1) else g.sessionHealthy,
           trips)
  }

  function AfterRecord(c: Config, p: Pair, err: Option<Error>, now: int, mode: Mode): Pair {
    var cat := Classify(err);
    var ra := RetryAfterOf(err);
    var general := Observe(c.general, p.general, GeneralKind(cat), now, ra);
    var session := if mode == Server then Observe(c.session, p.session, SessionKind(cat), now, ra) else p.session;
    Pair(general, session, Sync(p.gauges, general, session, p.general.open, p.session.open))
  }

  // ---------------------------------------------------------------------------
  // The mutable objects

  class SubBreaker {
    const tuning: Tuning
    var failures: int
    var strikes: nat
    var openUntil: Option<int>
    var probing: bool
    var open: bool

    ghost function View(): Sub
      reads this
    {
      Sub(failures, strikes, openUntil, probing, open)
    }

    constructor (threshold: int, cooldown: int, grow: bool)
      ensures tuning == Tuning(threshold, cooldown, grow)
      ensures View() == CLOSED
    {
      tuning := Tuning(threshold, cooldown, grow);
      failures, strikes, openUntil, probing, open := 0, 0, None, false, false;
    }

    method IsBlocking(now: int) returns (hint: int, blocked: bool)
      ensures blocked <==> Blocking(View(), now).Some?
      ensures hint == if blocked then Blocking(View(), now).value else 0
    {
      if openUntil.None? {
        return 0, false;
      }
      if now < openUntil.value {
        return RetryAfterSeconds(openUntil.value, now), true;
      }
      if probing {
        return 1, true;
      }
      return 0, false;
    }

    method MayProbe(now: int) returns (ok: bool)
      ensures ok <==> CanProbe(View(), now)
    {
      ok := openUntil.Some? && !(now < openUntil.value) && !probing;
    }

    method DoTrip(now: int, retryAfter: int)
      modifies this
      ensures View() == Trip(tuning, old(View()), now, retryAfter)
    {
      var cd := tuning.cooldown;
      if tuning.grow {
        if strikes < MAX_SESSION_STRIKES {
          strikes := strikes + 1;
        }
        cd := Shl(tuning.cooldown, strikes - 1);
      }
      var ra := Wrap(retryAfter * SECOND);
      if ra > cd {
        cd := ra;
      }
      openUntil := Some(now + cd);
      failures := 0;
      open := true;
    }

    method DoFail(now: int, retryAfter: int)
      modifies this
      ensures View() == Fail(tuning, old(View()), now, retryAfter)
    {
      failures := failures + 1;
      if failures >= tuning.threshold {
        DoTrip(now, retryAfter);
      }
    }

    method DoClose()
      modifies this
      ensures View() == Close(old(View()))
    {
      openUntil := None;
      failures := 0;
      strikes := 0;
      open := false;
    }

    method DoProbeResult(now: int, failed: bool, retryAfter: int)
      modifies this
      ensures View() == ProbeResult(tuning, old(View()), now, failed, retryAfter)
    {
      probing := false;
      if failed {
        DoTrip(now, retryAfter);
      } else {
        DoClose();
      }
    }
  }

  class TwoLevelBreaker {
    const general: SubBreaker
    const session: SubBreaker
    var gauges: Gauges

    ghost predicate Valid()
      reads this
    {
      general != session && ValidConfig(Cfg())
    }

    ghost function Cfg(): Config
    {
      Config(general.tuning, session.tuning)
    }

    ghost function View(): Pair
      reads this, general, session
    {
      Pair(general.View(), session.View(), gauges)
    }

    constructor (failureThreshold: int, cooldown: int, sessionThreshold: int, sessionCooldown: int)
      requires ValidTuning(Tuning(failureThreshold, cooldown, false))
      requires ValidTuning(Tuning(sessionThreshold, sessionCooldown, true))
      ensures Valid() && fresh(general) && fresh(session)
      ensures View() == FRESH
      ensures Cfg() == Config(Tuning(failureThreshold, cooldown, false),
                              Tuning(sessionThreshold, sessionCooldown, true))
    {
      general := new SubBreaker(failureThreshold, cooldown, false);
      session := new SubBreaker(sessionThreshold, sessionCooldown, true);
      gauges := Gauges(0, 1, 0);
    }

    method Blocked(now: int, mode: Mode) returns (hint: int, blocked: bool)
      requires Valid()
      modifies general, session
      ensures Valid()
      ensures blocked <==> BlockedHint(old(View()), now, mode).Some?
      ensures blocked ==> hint == BlockedHint(old(View()), now, mode).value
      ensures View() == AfterBlocked(old(View()), now, mode)
    {
      hint, blocked := general.IsBlocking(now);
      if blocked {
        return;
      }
      if mode == Server {
        hint, blocked := session.IsBlocking(now);
        if blocked {
          return;
        }
      }
      var probe := general.MayProbe(now);
      if probe {
        general.probing := true;
      } else if mode == Server {
        probe := session.MayProbe(now);
        if probe {
          session.probing := true;
        }
      }
      return 0, false;
    }

    method Record(err: Option<Error>, now: int, mode: Mode)
      requires Valid()
      modifies this, general, session
      ensures Valid()
      ensures View() == AfterRecord(Cfg(), old(View()), err, now, mode)
    {
      var prevGeneralOpen := general.open;
      var prevSessionOpen := session.open;
      var cat := Classify(err);
      var retryAfter := RetryAfterOf(err);

      if general.probing {
        general.DoProbeResult(now, cat == GeneralFault, retryAfter);
      } else if cat == GeneralFault {
        general.DoFail(now, retryAfter);
      } else if cat == NoFault {
        general.failures := 0;
      }

      if mode == Server {
        if session.probing {
          session.DoProbeResult(now, cat == AuthFault, retryAfter);
        } else if cat == AuthFault {
          session.DoFail(now, retryAfter);
        } else if cat == NoFault {
          session.failures := 0;
        }
      }

      SyncGauges(prevGeneralOpen, prevSessionOpen);
    }

    method SyncGauges(prevGeneralOpen: bool, prevSessionOpen: bool)
      requires Valid()
      modifies this
      ensures Valid()
      ensures gauges == Sync(old(gauges), general.View(), session.View(), prevGeneralOpen, prevSessionOpen)
    {
      if general.open && !prevGeneralOpen {
        gauges := gauges.(circuitTrips := gauges.circuitTrips + 1);
      }
      if session.open && !prevSessionOpen {
        gauges := gauges.(circuitTrips := gauges.circuitTrips + 1);
      }
      var open := general.open || session.open;
      if open != (prevGeneralOpen || prevSessionOpen) {
        gauges := gauges.(circuitOpen := if open then 1 else 0);
      }
      if session.open != prevSessionOpen {
        gauges := gauges.(sessionHealthy := if session.open then 0 else 1);
      }
    }
  }
}
