// internal/upstream/guard.go as a transition system over its atomic steps.
//
// One call of Enter is three separately atomic steps (breaker check, limiter,
// non-blocking semaphore send) and one call of release is two (free the slot,
// record the result); the steps of different calls interleave freely. Every step
// carries its own instant, because the code reads the clock before it takes the
// mutex: instants need not be ordered. A ticket is one call of Enter and what has
// become of it.

module GuardProtocol {
  import opened Domain
  import opened Breaker

  datatype Reason = CircuitOpen(hint: int) | RateExceeded | ConcurrencyLimit

  datatype Phase =
    | Checked                           // past the breaker
    | Allowed                           // past the limiter
    | Holding                           // release function returned, slot held
    | Freed(result: Option<Error>)      // release ran its first half
    | Recorded                          // release finished
    | Rejected(reason: Reason)

  datatype Ticket = Ticket(mode: Mode, phase: Phase, generalProbe: bool, sessionProbe: bool,
                           frees: nat, records: nat)

  datatype Setup = Setup(breaker: Config, maxConcurrency: int)

  predicate ValidSetup(c: Setup) { ValidConfig(c.breaker) && c.maxConcurrency >= 1 }

  datatype Guard = Guard(br: Pair, slots: int, tickets: seq<Ticket>)

  const IDLE := Guard(FRESH, 0, [])

  datatype Step =
    | Enter(mode: Mode, now: int)
    | Limit(id: nat, allow: bool)
    | Acquire(id: nat)
    | Release(id: nat, result: Option<Error>)
    | Record(id: nat, now: int)

  function Admitted(b: Pair, now: int, mode: Mode): Ticket {
    var b' := AfterBlocked(b, now, mode);
    Ticket(mode, Checked,
           b'.general.probing && !b.general.probing,
           b'.session.probing && !b.session.probing, 0, 0)
  }

  predicate At(s: Guard, id: nat, phase: Phase) {
    id < |s.tickets| && s.tickets[id].phase == phase
  }

  function SetPhase(s: Guard, id: nat, phase: Phase): Guard
    requires id < |s.tickets|
  {
    s.(tickets := s.tickets[id := s.tickets[id].(phase := phase)])
  }

  // A step that its ticket is not ready for changes nothing; for Release that is
  // sync.Once at work.
  function Next(c: Setup, s: Guard, st: Step): Guard {
    match st
    case Enter(mode, now) =>
      var hint := BlockedHint(s.br, now, mode);
      if hint.Some? then
        s.(tickets := s.tickets + [Ticket(mode, Rejected(CircuitOpen(hint.value)), false, false, 0, 0)])
      else
        s.(br := AfterBlocked(s.br, now, mode), tickets := s.tickets + [Admitted(s.br, now, mode)])
    case Limit(id, allow) =>
      if !At(s, id, Checked) then s
      else SetPhase(s, id, if allow then Allowed else Rejected(RateExceeded))
    case Acquire(id) =>
      if !At(s, id, Allowed) then s
      else if s.slots < c.maxConcurrency then SetPhase(s, id, Holding).(slots := s.slots + 1)
      else SetPhase(s, id, Rejected(ConcurrencyLimit))
    case Release(id, result) =>
      if !At(s, id, Holding) then s
      else s.(slots := s.slots - 1,
              tickets := s.tickets[id := s.tickets[id].(phase := Freed(result), frees := s.tickets[id].frees + 1)])
    case Record(id, now) =>
      if id >= |s.tickets| || !s.tickets[id].phase.Freed? then s
      else s.(br := AfterRecord(c.breaker, s.br, s.tickets[id].phase.result, now, s.tickets[id].mode),
              tickets := s.tickets[id := s.tickets[id].(phase := Recorded, records := s.tickets[id].records + 1)])
  }

  function Run(c: Setup, s: Guard, steps: seq<Step>): Guard {
    if steps == [] then s
    else Next(c, Run(c, s, steps[..|steps| - 1]), steps[|steps| - 1])
  }

  lemma RunNothing(c: Setup)
    ensures Run(c, IDLE, []) == IDLE
  {
  }

  lemma {:induction false} RunConcat(c: Setup, s: Guard, a: seq<Step>, b: seq<Step>)
    ensures Run(c, s, a + b) == Run(c, Run(c, s, a), b)
  {
    if b == [] {
      assert a + b == a;
    } else {
      var n := |b| - 1;
      assert (a + b)[..|a + b| - 1] == a + b[..n];
      RunConcat(c, s, a, b[..n]);
    }
  }

  // ---------------------------------------------------------------------------
  // Invariants

  predicate InFlight(t: Ticket) {
    t.phase.Checked? || t.phase.Allowed? || t.phase.Holding? || t.phase.Freed?
  }

  // A ticket that is certain to reach `record`.
  predicate WillRecord(t: Ticket) { t.phase.Holding? || t.phase.Freed? }

  function HoldingCount(ts: seq<Ticket>): nat {
    if ts == [] then 0
    else HoldingCount(ts[..|ts| - 1]) + (if ts[|ts| - 1].phase.Holding? then 1 else 0)
  }

  ghost predicate SlotsOk(c: Setup, s: Guard) {
    s.slots == HoldingCount(s.tickets) && s.slots <= c.maxConcurrency
  }

  predicate TicketOk(t: Ticket) {
    && t.frees == (if t.phase.Freed? || t.phase.Recorded? then 1 else 0)
    && t.records == (if t.phase.Recorded? then 1 else 0)
    && (t.generalProbe || t.sessionProbe ==> t.phase.Rejected? ==> !t.phase.reason.CircuitOpen?)
    && (t.sessionProbe ==> t.mode == Server)
  }

  ghost predicate TicketsOk(s: Guard) {
    forall i :: 0 <= i < |s.tickets| ==> TicketOk(s.tickets[i])
  }

  predicate SubOk(t: Tuning, s: Sub) {
    && (s.probing ==> s.open)
    && (s.open <==> s.openUntil.Some?)
    && 0 <= s.failures < t.threshold
    && (if t.grow then s.strikes <= MAX_SESSION_STRIKES && (s.open <==> s.strikes > 0) else s.strikes == 0)
  }

  predicate GaugesOk(p: Pair) {
    && p.gauges.circuitOpen == (if p.general.open || p.session.open then 1 else 0)
    && p.gauges.sessionHealthy == (if p.session.open then 0 else 1)
  }

  predicate BreakerOk(c: Setup, p: Pair) {
    SubOk(c.breaker.general, p.general) && SubOk(c.breaker.session, p.session) && GaugesOk(p)
  }

  ghost predicate LatestGeneralProbe(ts: seq<Ticket>, i: nat) {
    i < |ts| && ts[i].generalProbe && forall j :: i < j < |ts| ==> !ts[j].generalProbe
  }

  ghost predicate LatestSessionProbe(ts: seq<Ticket>, i: nat) {
    i < |ts| && ts[i].sessionProbe && forall j :: i < j < |ts| ==> !ts[j].sessionProbe
  }

  predicate ProbeNotDone(t: Ticket) {
    t.phase.Checked? || t.phase.Allowed? || t.phase == Rejected(RateExceeded)
  }

  // An outstanding general probe has someone to clear it, or its own ticket has
  // not got past the limiter.
  ghost predicate GeneralProbeOk(s: Guard) {
    s.br.general.probing ==>
      || (exists i: nat :: LatestGeneralProbe(s.tickets, i) && ProbeNotDone(s.tickets[i]))
      || (exists i: nat :: i < |s.tickets| && WillRecord(s.tickets[i]))
  }

  ghost predicate SessionProbeOk(s: Guard) {
    s.br.session.probing ==>
      exists i: nat :: LatestSessionProbe(s.tickets, i) && !s.tickets[i].phase.Recorded?
  }

  ghost predicate Inv(c: Setup, s: Guard) {
    SlotsOk(c, s) && TicketsOk(s) && BreakerOk(c, s.br) && GeneralProbeOk(s) && SessionProbeOk(s)
  }

  lemma {:induction false} HoldingCountUpdate(ts: seq<Ticket>, i: nat, t: Ticket)
    requires i < |ts|
    ensures HoldingCount(ts[i := t])
         == HoldingCount(ts) - (if ts[i].phase.Holding? then 1 else 0) + (if t.phase.Holding? then 1 else 0)
  {
    var n := |ts| - 1;
    if i == n {
      assert ts[i := t][..n] == ts[..n];
    } else {
      assert ts[i := t][..n] == ts[..n][i := t];
      HoldingCountUpdate(ts[..n], i, t);
    }
  }

  lemma {:induction false} SomeoneHolds(ts: seq<Ticket>) returns (i: nat)
    requires HoldingCount(ts) > 0
    ensures i < |ts| && ts[i].phase.Holding?
  {
    if ts[|ts| - 1].phase.Holding? {
      i := |ts| - 1;
    } else {
      i := SomeoneHolds(ts[..|ts| - 1]);
    }
  }

  lemma SlotsStep(c: Setup, s: Guard, st: Step)
    requires ValidSetup(c) && SlotsOk(c, s)
    ensures SlotsOk(c, Next(c, s, st))
  {
    match st
    case Enter(mode, now) =>
      var s' := Next(c, s, st);
      assert s'.tickets[..|s'.tickets| - 1] == s.tickets;
    case Limit(id, allow) =>
      if id < |s.tickets| {
        HoldingCountUpdate(s.tickets, id, s.tickets[id].(phase := if allow then Allowed else Rejected(RateExceeded)));
      }
    case Acquire(id) =>
      if id < |s.tickets| {
        HoldingCountUpdate(s.tickets, id, s.tickets[id].(phase := Holding));
        HoldingCountUpdate(s.tickets, id, s.tickets[id].(phase := Rejected(ConcurrencyLimit)));
      }
    case Release(id, result) =>
      if id < |s.tickets| {
        HoldingCountUpdate(s.tickets, id, s.tickets[id].(phase := Freed(result), frees := s.tickets[id].frees + 1));
      }
    case Record(id, now) =>
      if id < |s.tickets| {
        HoldingCountUpdate(s.tickets, id, s.tickets[id].(phase := Recorded, records := s.tickets[id].records + 1));
      }
  }

  lemma TicketsStep(c: Setup, s: Guard, st: Step)
    requires TicketsOk(s)
    ensures TicketsOk(Next(c, s, st))
  {
  }

  lemma ObserveOk(t: Tuning, s: Sub, kind: Kind, now: int, ra: int)
    requires ValidTuning(t) && SubOk(t, s)
    ensures SubOk(t, Observe(t, s, kind, now, ra)) && !Observe(t, s, kind, now, ra).probing
  {
  }

  lemma BreakerStep(c: Setup, s: Guard, st: Step)
    requires ValidSetup(c) && BreakerOk(c, s.br)
    ensures BreakerOk(c, Next(c, s, st).br)
  {
    if st.Record? && st.id < |s.tickets| && s.tickets[st.id].phase.Freed? {
      var cat := Classify(s.tickets[st.id].phase.result);
      var ra := RetryAfterOf(s.tickets[st.id].phase.result);
      ObserveOk(c.breaker.general, s.br.general, GeneralKind(cat), st.now, ra);
      ObserveOk(c.breaker.session, s.br.session, SessionKind(cat), st.now, ra);
    }
  }

  // The latest probe's ticket moves on, or the semaphore refuses it; then
  // somebody else holds a slot.
  lemma ProbeTicketStep(c: Setup, s: Guard, st: Step, i: nat)
    requires ValidSetup(c) && SlotsOk(c, s)
    requires i < |s.tickets| && ProbeNotDone(s.tickets[i])
    ensures i < |Next(c, s, st).tickets|
    ensures ProbeNotDone(Next(c, s, st).tickets[i])
         || exists h: nat :: h < |Next(c, s, st).tickets| && WillRecord(Next(c, s, st).tickets[h])
  {
    var s' := Next(c, s, st);
    if !ProbeNotDone(s'.tickets[i]) {
      if s.slots < c.maxConcurrency {
        assert WillRecord(s'.tickets[i]);
      } else {
        var h := SomeoneHolds(s.tickets);
        assert WillRecord(s'.tickets[h]);
      }
    }
  }

  lemma GeneralProbeStep(c: Setup, s: Guard, st: Step)
    requires ValidSetup(c) && Inv(c, s)
    ensures GeneralProbeOk(Next(c, s, st))
  {
    var s' := Next(c, s, st);
    if s'.br.general.probing {
      if !s.br.general.probing {
        assert LatestGeneralProbe(s'.tickets, |s.tickets|) && ProbeNotDone(s'.tickets[|s.tickets|]);
      } else if i: nat :| LatestGeneralProbe(s.tickets, i) && ProbeNotDone(s.tickets[i]) {
        assert LatestGeneralProbe(s'.tickets, i);
        ProbeTicketStep(c, s, st, i);
      } else {
        var i: nat :| i < |s.tickets| && WillRecord(s.tickets[i]);
        assert WillRecord(s'.tickets[i]);
      }
    }
  }

  lemma SessionProbeStep(c: Setup, s: Guard, st: Step)
    requires ValidSetup(c) && Inv(c, s)
    ensures SessionProbeOk(Next(c, s, st))
  {
    var s' := Next(c, s, st);
    if s'.br.session.probing {
      if !s.br.session.probing {
        assert LatestSessionProbe(s'.tickets, |s.tickets|);
      } else {
        var i: nat :| LatestSessionProbe(s.tickets, i) && !s.tickets[i].phase.Recorded?;
        assert LatestSessionProbe(s'.tickets, i);
      }
    }
  }

  lemma InvStep(c: Setup, s: Guard, st: Step)
    requires ValidSetup(c) && Inv(c, s)
    ensures Inv(c, Next(c, s, st))
  {
    SlotsStep(c, s, st);
    TicketsStep(c, s, st);
    BreakerStep(c, s, st);
    GeneralProbeStep(c, s, st);
    SessionProbeStep(c, s, st);
  }

  lemma {:induction false} InvRun(c: Setup, s: Guard, steps: seq<Step>)
    requires ValidSetup(c) && Inv(c, s)
    ensures Inv(c, Run(c, s, steps))
  {
    if steps != [] {
      InvRun(c, s, steps[..|steps| - 1]);
      InvStep(c, Run(c, s, steps[..|steps| - 1]), steps[|steps| - 1]);
    }
  }

  lemma {:induction false} Reachable(c: Setup, steps: seq<Step>)
    requires ValidSetup(c)
    ensures Inv(c, Run(c, IDLE, steps))
  {
    InvRun(c, IDLE, steps);
  }
}
