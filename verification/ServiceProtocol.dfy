// internal/service/profile.go: every interleaving of server-session and
// caller-session requests over the shared caches, the single-flight group and the
// caller-health tracker.
//
// A request is one call of GetProfile. Each request allocates at most one result,
// so results are named by the request that allocated them; passing a name around
// is sharing the object. What the gate, LinkedIn and the clock do is an
// input of each step.

module ServiceProtocol {
  import opened Domain
  import opened ProfileUrl
  import M = ExpiringMarks

  datatype Cred = ServerSession | CallerSession(fingerprint: string)

  // sections stands for everything enrichment writes.
  datatype Result = Result(publicID: string, url: string, cached: bool, sections: Option<int>, origin: Cred)

  datatype Outcome = Got(result: nat) | Failed(error: Error) | FastFailed

  // What a request did at the gate: took a reservation, or gave it back with the
  // error of its core call, if any.
  datatype GateEvent = Took | Gave(error: Option<Error>)

  datatype Phase =
    | Begun
    | CacheMissed
    | Missed                   // missed both caches
    | Waiting(leader: nat)     // shares another request's flight
    | Leading                  // runs the flight
    | Healthy                  // caller session not known to be rejected
    | Reserved                 // holds a gate reservation
    | Fetched(result: Option<Error>) // the core call is over, the reservation still held
    | Failing(error: Error)    // the reservation is given back, the request about to fail
    | Enriching                // core result allocated, sections being written
    | Stored                   // result in the shared cache
    | Returned(outcome: Outcome)

  datatype Request = Request(ref: Ref, cred: Cred, phase: Phase, gate: seq<GateEvent>)

  // The caller-health tracker: the rejections it holds and when they were made,
  // everything it was told, and which rejections lapsed or were given up.
  datatype Tracker = Tracker(marks: map<string, int>, history: seq<M.Event>, forgotten: set<string>)

  datatype State = State(
    requests: map<nat, Request>,
    heap: map<nat, Result>,
    cache: map<string, nat>,
    negative: map<string, nat>,     // remembered as missing, by which request
    flights: map<string, nat>,      // single-flight table: key to leader
    health: Tracker)

  const START := State(map[], map[], map[], map[], map[], Tracker(map[], [], {}))

  datatype Input = Input(now: int, refused: Option<Error>, fetchError: Option<Error>, sections: int, more: bool)

  const NOT_FOUND := Structured(ProfileNotFound, 0)
  const SESSION_INVALID := Structured(CallerSessionInvalid, 0)

  predicate Is(e: Error, code: Code) { e.Structured? && e.code == code }

  datatype Step =
    | Begin(id: nat, ref: Ref, cred: Cred)
    | Advance(id: nat, input: Input)
    | CacheForgets(key: string)       // expiry or eviction
    | NegativeForgets(key: string)
    | HealthForgets(fingerprint: string)

  function CoreResult(r: Request): Result {
    Result(r.ref.publicID, r.ref.canonicalURL, false, None, r.cred)
  }

  // What one step of a request does, besides moving it to its next phase.
  datatype FlightOp = Keep | Take | Land
  datatype MarkOp = NoMark | MarkAt(now: int) | Clear
  datatype Effect = Effect(phase: Phase, write: Option<Result>, store: bool, missing: bool, flight: FlightOp,
                           mark: MarkOp, gate: seq<GateEvent>)

  function Just(phase: Phase): Effect { Effect(phase, None, false, false, Keep, NoMark, []) }

  // getServer and, from Leading on, the flight body retrieve. When a flight lands
  // the group forgets the key and waiting requests can read the leader's outcome.
  function ServerEffect(s: State, id: nat, r: Request, inp: Input): Effect {
    var key := r.ref.publicID;
    match r.phase
    case Begun =>
      if key in s.cache && s.cache[key] in s.heap then
        Just(Returned(Got(id))).(write := Some(s.heap[s.cache[key]].(cached := true)))
      else Just(CacheMissed)
    case CacheMissed => if key in s.negative then Just(Returned(Failed(NOT_FOUND))) else Just(Missed)
    case Missed => if key in s.flights then Just(Waiting(s.flights[key])) else Just(Leading).(flight := Take)
    case Waiting(leader) =>
      if leader in s.requests && s.requests[leader].phase.Returned? then Just(s.requests[leader].phase)
      else Just(r.phase)
    case Leading =>
      if inp.refused.Some? then Just(Returned(Failed(inp.refused.value))).(flight := Land)
      else Just(Reserved).(gate := [Took])
    case Reserved => Just(Fetched(inp.fetchError))
    case Fetched(err) =>
      if err.Some? then Just(Failing(err.value)).(gate := [Gave(err)], missing := Is(err.value, ProfileNotFound))
      else Just(Enriching).(gate := [Gave(err)], write := Some(CoreResult(r)))
    case Failing(err) => Just(Returned(Failed(err))).(flight := Land)
    case Enriching =>
      if inp.more && id in s.heap then Just(Enriching).(write := Some(s.heap[id].(sections := Some(inp.sections))))
      else Just(Stored).(store := true)
    case Stored => Just(Returned(Got(id))).(flight := Land)
    case _ => Just(r.phase)
  }

  // getCaller.
  function CallerEffect(ttl: int, s: State, id: nat, r: Request, inp: Input): Effect
    requires r.cred.CallerSession?
  {
    var fp := r.cred.fingerprint;
    match r.phase
    case Begun =>
      if fp != "" && fp in s.health.marks && inp.now <= s.health.marks[fp] + ttl then Just(Returned(FastFailed))
      else Just(Healthy)
    case Healthy =>
      if inp.refused.Some? then Just(Returned(Failed(inp.refused.value))) else Just(Reserved).(gate := [Took])
    case Reserved => Just(Fetched(inp.fetchError))
    case Fetched(err) =>
      if err.Some? then Just(Failing(err.value)).(gate := [Gave(err)])
      else Just(Enriching).(gate := [Gave(err)], write := Some(CoreResult(r)))
    case Failing(err) =>
      if !Is(err, UpstreamAuthFailed) then Just(Returned(Failed(err)))
      else Just(Returned(Failed(SESSION_INVALID))).(mark := MarkAt(inp.now))
    case Enriching =>
      if inp.more && id in s.heap then Just(Enriching).(write := Some(s.heap[id].(sections := Some(inp.sections))))
      else Just(Returned(Got(id))).(mark := Clear)
    case _ => Just(r.phase)
  }

  function EffectOf(ttl: int, s: State, id: nat, inp: Input): Effect
    requires id in s.requests
  {
    var r := s.requests[id];
    if r.cred.CallerSession? then CallerEffect(ttl, s, id, r, inp) else ServerEffect(s, id, r, inp)
  }

  // A mark on the tracker; the empty fingerprint is never marked.
  function Tracked(h: Tracker, cred: Cred, op: MarkOp): Tracker {
    if op.NoMark? || !cred.CallerSession? || cred.fingerprint == "" then h
    else
      var fp := cred.fingerprint;
      match op
      case MarkAt(now) => Tracker(h.marks[fp := now], h.history + [M.Marked(fp, now)], h.forgotten - {fp})
      case _ => Tracker(h.marks - {fp}, h.history + [M.Removed(fp)], h.forgotten - {fp})
  }

  // The request after one of its own steps.
  function Moved(r: Request, e: Effect): Request { r.(phase := e.phase, gate := r.gate + e.gate) }

  function Apply(s: State, id: nat, e: Effect): State
    requires id in s.requests
  {
    var r := s.requests[id];
    var key := r.ref.publicID;
    State(s.requests[id := Moved(r, e)],
          if e.write.Some? then s.heap[id := e.write.value] else s.heap,
          if e.store then s.cache[key := id] else s.cache,
          if e.missing then s.negative[key := id] else s.negative,
          match e.flight case Keep => s.flights case Take => s.flights[key := id] case Land => s.flights - {key},
          Tracked(s.health, r.cred, e.mark))
  }

  function Forget(h: Tracker, fp: string): Tracker {
    if fp in h.marks then h.(marks := h.marks - {fp}, forgotten := h.forgotten + {fp}) else h
  }

  function Next(ttl: int, s: State, st: Step): State {
    match st
    case Begin(id, ref, cred) =>
      if id in s.requests || ref.canonicalURL != CANONICAL_PREFIX + ref.publicID then s
      else s.(requests := s.requests[id := Request(ref, cred, Begun, [])])
    case Advance(id, inp) => if id in s.requests then Apply(s, id, EffectOf(ttl, s, id, inp)) else s
    case CacheForgets(key) => s.(cache := s.cache - {key})
    case NegativeForgets(key) => s.(negative := s.negative - {key})
    case HealthForgets(fp) => s.(health := Forget(s.health, fp))
  }

  function Run(ttl: int, s: State, steps: seq<Step>): State {
    if steps == [] then s
    else Next(ttl, Run(ttl, s, steps[..|steps| - 1]), steps[|steps| - 1])
  }

  // ---------------------------------------------------------------------------
  // Invariants

  predicate IsServer(r: Request) { r.cred.ServerSession? }

  predicate Flying(p: Phase) {
    p.Leading? || p.Reserved? || p.Fetched? || p.Failing? || p.Enriching? || p.Stored?
  }

  predicate RefOk(ref: Ref) { ref.canonicalURL == CANONICAL_PREFIX + ref.publicID }

  // A result that is right for a reference and a credential.
  predicate Right(res: Result, r: Request) {
    res.publicID == r.ref.publicID && res.url == r.ref.canonicalURL && res.origin == r.cred
  }

  // Results nobody is writing any more: everything but the result of a request
  // that is still enriching it.
  predicate Published(s: State, id: nat) {
    id in s.heap && id in s.requests && !s.requests[id].phase.Enriching?
  }

  // The results a request refers to are right for it.
  ghost predicate ResultOk(s: State, id: nat)
    requires id in s.requests
  {
    var r := s.requests[id];
    match r.phase
    case Enriching => id in s.heap && Right(s.heap[id], r) && !s.heap[id].cached
    case Stored => id in s.heap && Right(s.heap[id], r) && !s.heap[id].cached
    case Returned(Got(res)) => Published(s, res) && Right(s.heap[res], r) && (s.heap[res].cached ==> res == id)
    case Returned(out) => id !in s.heap && (out.FastFailed? ==> r.cred.CallerSession?)
    case _ => id !in s.heap
  }

  ghost predicate HeapOk(s: State) {
    && (forall id :: id in s.requests ==> RefOk(s.requests[id].ref) && ResultOk(s, id))
    && (forall id :: id in s.heap ==> id in s.requests)
  }

  // How a flight ends: with an error, or with a result that is nobody's cache hit.
  ghost predicate Landed(s: State, p: Phase) {
    p.Returned? && (p.outcome.Got? ==> Published(s, p.outcome.result) && !s.heap[p.outcome.result].cached)
  }

  // A waiting request shares the flight of a server request for its own key.
  ghost predicate WaitersOk(s: State) {
    forall id :: id in s.requests && s.requests[id].phase.Waiting? ==> WaiterOk(s, id)
  }

  ghost predicate WaiterOk(s: State, id: nat)
    requires id in s.requests && s.requests[id].phase.Waiting?
  {
    var r, l := s.requests[id], s.requests[id].phase.leader;
    && IsServer(r) && l in s.requests && IsServer(s.requests[l]) && s.requests[l].ref == r.ref
    && (Flying(s.requests[l].phase) || Landed(s, s.requests[l].phase))
  }

  // The cache holds finished, uncached results of server requests, each under its
  // own identifier.
  ghost predicate Cacheable(s: State, key: string, id: nat) {
    && Published(s, id) && IsServer(s.requests[id]) && s.requests[id].ref.publicID == key
    && Right(s.heap[id], s.requests[id]) && !s.heap[id].cached
  }

  ghost predicate CacheOk(s: State) {
    forall key :: key in s.cache ==> Cacheable(s, key, s.cache[key])
  }

  predicate MissingPhase(p: Phase) {
    || (p.Failing? && Is(p.error, ProfileNotFound))
    || (p.Returned? && p.outcome.Failed? && Is(p.outcome.error, ProfileNotFound))
  }

  ghost predicate ConfirmedMissing(s: State, key: string, id: nat) {
    && id in s.requests && IsServer(s.requests[id]) && s.requests[id].ref.publicID == key
    && MissingPhase(s.requests[id].phase)
  }

  ghost predicate NegativeOk(s: State) {
    forall key :: key in s.negative ==> ConfirmedMissing(s, key, s.negative[key])
  }

  predicate Leads(s: State, key: string, id: nat) {
    id in s.requests && IsServer(s.requests[id]) && s.requests[id].ref.publicID == key && Flying(s.requests[id].phase)
  }

  // The flight table names, for every key in flight, its one leader.
  ghost predicate FlightsOk(s: State) {
    && (forall key :: key in s.flights ==> Leads(s, key, s.flights[key]))
    && (forall key, id :: Leads(s, key, id) ==> key in s.flights && s.flights[key] == id)
  }

  ghost predicate Inv(s: State) {
    && HeapOk(s) && WaitersOk(s) && CacheOk(s) && NegativeOk(s) && FlightsOk(s)
    && MarksOk(s.health) && GatesOk(s)
  }

  // ---------------------------------------------------------------------------
  // What a step leaves alone

  // Only the request that steps changes, and only its own result.
  ghost predicate Frame(s: State, s': State, own: nat) {
    && (forall id :: id in s.requests && id != own ==> id in s'.requests && s'.requests[id] == s.requests[id])
    && (forall id :: id in s'.requests && id != own ==> id in s.requests)
    && (forall id :: id in s.heap && id != own ==> id in s'.heap && s'.heap[id] == s.heap[id])
    && (forall id :: id in s'.heap && id != own ==> id in s.heap)
  }

  lemma ApplyFrame(s: State, id: nat, e: Effect)
    requires id in s.requests
    ensures Frame(s, Apply(s, id, e), id)
    ensures id in Apply(s, id, e).requests && Apply(s, id, e).requests[id] == Moved(s.requests[id], e)
    ensures id in s.heap ==> id in Apply(s, id, e).heap
    ensures id in Apply(s, id, e).heap ==>
              Apply(s, id, e).heap[id] == if e.write.Some? then e.write.value else s.heap[id]
  {
    hide Tracked;
  }

  // The result of a request is written by that request only, and only when it is
  // allocated or being enriched.
  lemma EffectWrites(ttl: int, s: State, id: nat, inp: Input)
    requires id in s.requests
    ensures var r, e := s.requests[id], EffectOf(ttl, s, id, inp);
            && (e.write.Some? ==> r.phase.Begun? || r.phase.Fetched? || r.phase.Enriching?)
            && (e.phase.Enriching? ==> r.phase.Fetched? || r.phase.Enriching?)
  {
  }

  // Once published, a result never changes again, whoever shares it.
  lemma PublishedIsFrozen(ttl: int, s: State, st: Step, id: nat)
    requires HeapOk(s) && Published(s, id)
    ensures Published(Next(ttl, s, st), id) && Next(ttl, s, st).heap[id] == s.heap[id]
  {
    assert ResultOk(s, id);
    if st.Advance? && st.id in s.requests {
      EffectWrites(ttl, s, st.id, st.input);
      hide EffectOf, Apply;
      ApplyFrame(s, st.id, EffectOf(ttl, s, st.id, st.input));
    }
  }

  // ---------------------------------------------------------------------------
  // Every step keeps the invariants

  // A cache hit: the stored result is right for the request too.
  lemma HitStep(ttl: int, s: State, id: nat, inp: Input)
    requires Inv(s) && id in s.requests && s.requests[id].phase.Begun? && IsServer(s.requests[id])
    ensures ResultOk(Next(ttl, s, Advance(id, inp)), id)
  {
    var r := s.requests[id];
    assert ResultOk(s, id) && RefOk(r.ref);
    if r.ref.publicID in s.cache {
      var stored := s.cache[r.ref.publicID];
      assert Cacheable(s, r.ref.publicID, stored) && RefOk(s.requests[stored].ref);
    }
  }

  // A shared flight: the leader's outcome is right for whoever waited.
  lemma ShareStep(ttl: int, s: State, id: nat, inp: Input)
    requires Inv(s) && id in s.requests && s.requests[id].phase.Waiting?
    ensures ResultOk(Next(ttl, s, Advance(id, inp)), id)
  {
    var l := s.requests[id].phase.leader;
    assert ResultOk(s, id) && IsServer(s.requests[id]);
    if s.requests[l].phase.Returned? {
      assert ResultOk(s, l) && Landed(s, s.requests[l].phase);
    }
  }

  lemma WorkStep(ttl: int, s: State, id: nat, inp: Input)
    requires id in s.requests && ResultOk(s, id) && !s.requests[id].phase.Waiting?
    requires !(s.requests[id].phase.Begun? && IsServer(s.requests[id]))
    requires s.requests[id].phase.Returned? ==> PublishedStays(ttl, s, Advance(id, inp))
    ensures ResultOk(Next(ttl, s, Advance(id, inp)), id)
  {
  }

  ghost predicate PublishedStays(ttl: int, s: State, st: Step) {
    forall res :: Published(s, res) ==> Published(Next(ttl, s, st), res) && Next(ttl, s, st).heap[res] == s.heap[res]
  }

  // The next phase of a request, and its own result, are right for it.
  lemma OwnResultStep(ttl: int, s: State, id: nat, inp: Input)
    requires Inv(s) && id in s.requests
    ensures ResultOk(Next(ttl, s, Advance(id, inp)), id)
  {
    hide ResultOk, Next;
    if s.requests[id].phase.Waiting? {
      ShareStep(ttl, s, id, inp);
    } else if s.requests[id].phase.Begun? && IsServer(s.requests[id]) {
      HitStep(ttl, s, id, inp);
    } else {
      forall res | Published(s, res)
        ensures Published(Next(ttl, s, Advance(id, inp)), res)
        ensures Next(ttl, s, Advance(id, inp)).heap[res] == s.heap[res]
      {
        PublishedIsFrozen(ttl, s, Advance(id, inp), res);
      }
      WorkStep(ttl, s, id, inp);
    }
  }

  lemma OtherResultStep(ttl: int, s: State, st: Step, id: nat)
    requires HeapOk(s) && id in s.requests && !(st.Advance? && st.id == id)
    ensures id in Next(ttl, s, st).requests && Next(ttl, s, st).requests[id] == s.requests[id]
    ensures ResultOk(Next(ttl, s, st), id)
  {
    hide Tracked, Forget;
    assert ResultOk(s, id);
    if s.requests[id].phase.Returned? && s.requests[id].phase.outcome.Got? {
      PublishedIsFrozen(ttl, s, st, s.requests[id].phase.outcome.result);
    }
    if st.Advance? && st.id in s.requests {
      hide EffectOf, Apply;
      ApplyFrame(s, st.id, EffectOf(ttl, s, st.id, st.input));
    }
  }

  lemma HeapStep(ttl: int, s: State, st: Step)
    requires Inv(s)
    ensures HeapOk(Next(ttl, s, st))
  {
    hide ResultOk;
    var s' := Next(ttl, s, st);
    forall id | id in s'.requests ensures RefOk(s'.requests[id].ref) && ResultOk(s', id) {
      if st.Advance? && st.id == id {
        OwnResultStep(ttl, s, id, st.input);
        ApplyFrame(s, id, EffectOf(ttl, s, id, st.input));
      } else if id in s.requests {
        OtherResultStep(ttl, s, st, id);
      } else {
        NewRequest(ttl, s, st, id);
      }
    }
    if st.Advance? && st.id in s.requests {
      ApplyFrame(s, st.id, EffectOf(ttl, s, st.id, st.input));
    }
  }

  lemma NewRequest(ttl: int, s: State, st: Step, id: nat)
    requires HeapOk(s) && id in Next(ttl, s, st).requests && id !in s.requests
    ensures var r := Next(ttl, s, st).requests[id];
            r.phase == Begun && RefOk(r.ref) && ResultOk(Next(ttl, s, st), id)
  {
    if st.Advance? && st.id in s.requests {
      hide EffectOf, Apply;
      ApplyFrame(s, st.id, EffectOf(ttl, s, st.id, st.input));
    }
  }

  // Phases only move forward: a flight stays in the air until it lands, and what
  // has been returned stays returned.
  lemma LeaderStep(ttl: int, s: State, st: Step, l: nat)
    requires Inv(s) && l in s.requests && IsServer(s.requests[l])
    requires Flying(s.requests[l].phase) || Landed(s, s.requests[l].phase)
    ensures var s' := Next(ttl, s, st);
            && l in s'.requests && s'.requests[l].cred == s.requests[l].cred && s'.requests[l].ref == s.requests[l].ref
            && (Flying(s'.requests[l].phase) || Landed(s', s'.requests[l].phase))
  {
    hide WaitersOk, CacheOk, NegativeOk, FlightsOk, MarksOk, GatesOk, Tracked, Forget;
    assert ResultOk(s, l);
    if s.requests[l].phase.Returned? && s.requests[l].phase.outcome.Got? {
      PublishedIsFrozen(ttl, s, st, s.requests[l].phase.outcome.result);
    }
    if st.Advance? && st.id in s.requests && st.id != l {
      hide EffectOf, Apply;
      ApplyFrame(s, st.id, EffectOf(ttl, s, st.id, st.input));
    }
  }

  lemma JoinStep(ttl: int, s: State, id: nat, inp: Input)
    requires Inv(s) && id in s.requests
    ensures var e := EffectOf(ttl, s, id, inp);
            e.phase.Waiting? ==>
              && IsServer(s.requests[id])
              && (s.requests[id].phase == e.phase
                  || (e.phase.leader in s.requests && IsServer(s.requests[e.phase.leader])
                      && s.requests[e.phase.leader].ref == s.requests[id].ref
                      && Flying(s.requests[e.phase.leader].phase)))
  {
    var key := s.requests[id].ref.publicID;
    if key in s.flights { assert Leads(s, key, s.flights[key]); }
  }

  lemma WaitersStep(ttl: int, s: State, st: Step)
    requires Inv(s)
    ensures WaitersOk(Next(ttl, s, st))
  {
    hide WaiterOk, Next;
    var s' := Next(ttl, s, st);
    forall id | id in s'.requests && s'.requests[id].phase.Waiting? ensures WaiterOk(s', id) {
      WaiterStep(ttl, s, st, id);
    }
  }

  lemma WaiterStep(ttl: int, s: State, st: Step, id: nat)
    requires Inv(s) && id in Next(ttl, s, st).requests && Next(ttl, s, st).requests[id].phase.Waiting?
    ensures WaiterOk(Next(ttl, s, st), id)
  {
    hide HeapOk, CacheOk, NegativeOk, FlightsOk, MarksOk, GatesOk;
    hide Landed, ResultOk, EffectOf, Apply, Flying, Forget, Tracked;
    if st.Advance? && st.id in s.requests {
      ApplyFrame(s, st.id, EffectOf(ttl, s, st.id, st.input));
      if st.id == id { JoinStep(ttl, s, id, st.input); }
    }
    assert id in s.requests && s.requests[id].phase.Waiting? ==> WaiterOk(s, id);
    LeaderStep(ttl, s, st, Next(ttl, s, st).requests[id].phase.leader);
  }

  lemma StoreStep(ttl: int, s: State, id: nat, inp: Input)
    requires Inv(s) && id in s.requests && EffectOf(ttl, s, id, inp).store
    ensures Cacheable(Next(ttl, s, Advance(id, inp)), s.requests[id].ref.publicID, id)
  {
    hide WaitersOk, CacheOk, NegativeOk, FlightsOk, MarksOk, GatesOk, Tracked;
    assert ResultOk(s, id);
  }

  lemma CacheStep(ttl: int, s: State, st: Step)
    requires Inv(s)
    ensures CacheOk(Next(ttl, s, st))
  {
    hide Cacheable, Apply, EffectOf, HeapOk, WaitersOk, NegativeOk, FlightsOk, MarksOk;
    var s' := Next(ttl, s, st);
    forall key | key in s'.cache ensures Cacheable(s', key, s'.cache[key]) {
      CacheAfter(ttl, s, st, key);
      if Stores(ttl, s, st, key) {
        StoreStep(ttl, s, st.id, st.input);
      } else {
        StaysCacheable(ttl, s, st, key, s.cache[key]);
      }
    }
  }

  predicate Stores(ttl: int, s: State, st: Step, key: string) {
    && st.Advance? && st.id in s.requests
    && EffectOf(ttl, s, st.id, st.input).store && key == s.requests[st.id].ref.publicID
  }

  lemma CacheAfter(ttl: int, s: State, st: Step, key: string)
    requires key in Next(ttl, s, st).cache
    ensures if Stores(ttl, s, st, key) then Next(ttl, s, st).cache[key] == st.id
            else key in s.cache && Next(ttl, s, st).cache[key] == s.cache[key]
  {
    hide EffectOf, Tracked;
  }

  lemma StaysCacheable(ttl: int, s: State, st: Step, key: string, id: nat)
    requires Inv(s) && Cacheable(s, key, id)
    ensures Cacheable(Next(ttl, s, st), key, id)
  {
    hide ResultOk, EffectOf, Apply, WaitersOk, CacheOk, NegativeOk, FlightsOk, MarksOk;
    PublishedIsFrozen(ttl, s, st, id);
    RequestIdentity(ttl, s, st, id);
  }

  lemma RequestIdentity(ttl: int, s: State, st: Step, id: nat)
    requires id in s.requests
    ensures id in Next(ttl, s, st).requests
    ensures Next(ttl, s, st).requests[id].ref == s.requests[id].ref
    ensures Next(ttl, s, st).requests[id].cred == s.requests[id].cred
    ensures s.requests[id].phase.Returned? ==> Next(ttl, s, st).requests[id].phase == s.requests[id].phase
    ensures IsServer(s.requests[id]) && MissingPhase(s.requests[id].phase) ==>
              MissingPhase(Next(ttl, s, st).requests[id].phase)
  {
    if st.Advance? && st.id in s.requests && st.id != id {
      hide EffectOf, Apply;
      ApplyFrame(s, st.id, EffectOf(ttl, s, st.id, st.input));
    }
  }

  lemma MissingStep(ttl: int, s: State, id: nat, inp: Input)
    requires id in s.requests && EffectOf(ttl, s, id, inp).missing
    ensures ConfirmedMissing(Next(ttl, s, Advance(id, inp)), s.requests[id].ref.publicID, id)
  {
  }

  lemma NegativeStep(ttl: int, s: State, st: Step)
    requires Inv(s)
    ensures NegativeOk(Next(ttl, s, st))
  {
    hide ResultOk, EffectOf;
    var s' := Next(ttl, s, st);
    forall key | key in s'.negative ensures ConfirmedMissing(s', key, s'.negative[key]) {
      if st.Advance? && st.id in s.requests && EffectOf(ttl, s, st.id, st.input).missing
         && key == s.requests[st.id].ref.publicID {
        MissingStep(ttl, s, st.id, st.input);
      } else {
        assert key in s.negative && s'.negative[key] == s.negative[key];
        assert ConfirmedMissing(s, key, s.negative[key]);
        RequestIdentity(ttl, s, st, s.negative[key]);
      }
    }
  }

  // How the stepping request and the flight table move together.
  lemma FlightEffect(ttl: int, s: State, id: nat, inp: Input)
    requires id in s.requests
    ensures EffectOf(ttl, s, id, inp).flight.Take? ==>
              IsServer(s.requests[id]) && !Flying(s.requests[id].phase) && Flying(EffectOf(ttl, s, id, inp).phase)
              && s.requests[id].ref.publicID !in s.flights
    ensures EffectOf(ttl, s, id, inp).flight.Land? ==>
              IsServer(s.requests[id]) && Flying(s.requests[id].phase) && !Flying(EffectOf(ttl, s, id, inp).phase)
    ensures EffectOf(ttl, s, id, inp).flight.Keep? && IsServer(s.requests[id]) ==>
              (Flying(s.requests[id].phase) <==> Flying(EffectOf(ttl, s, id, inp).phase))
  {
  }

  lemma LeadsAfter(ttl: int, s: State, id: nat, inp: Input, key: string, x: nat)
    requires id in s.requests
    ensures Leads(Next(ttl, s, Advance(id, inp)), key, x) <==>
              if x == id
              then IsServer(s.requests[id]) && s.requests[id].ref.publicID == key
                   && Flying(EffectOf(ttl, s, id, inp).phase)
              else Leads(s, key, x)
  {
    hide EffectOf, Apply;
    ApplyFrame(s, id, EffectOf(ttl, s, id, inp));
  }

  lemma FlightsAdvance(ttl: int, s: State, id: nat, inp: Input)
    requires FlightsOk(s) && id in s.requests
    ensures FlightsOk(Next(ttl, s, Advance(id, inp)))
  {
    hide EffectOf, Leads, Flying, IsServer;
    var s', e, own := Next(ttl, s, Advance(id, inp)), EffectOf(ttl, s, id, inp), s.requests[id].ref.publicID;
    FlightEffect(ttl, s, id, inp);
    LeadsIs(s, id);
    assert s'.flights == match e.flight
                         case Keep => s.flights case Take => s.flights[own := id] case Land => s.flights - {own};
    forall key | key in s'.flights ensures Leads(s', key, s'.flights[key]) {
      LeadsAfter(ttl, s, id, inp, key, s'.flights[key]);
    }
    assert e.flight.Land? ==> Leads(s, own, id);
    forall key, x | Leads(s', key, x) ensures key in s'.flights && s'.flights[key] == x {
      LeadsAfter(ttl, s, id, inp, key, x);
      if x == id {
        assert e.flight.Keep? ==> Leads(s, key, id);
      } else {
        assert Leads(s, key, x);
      }
    }
  }

  lemma FlightsStep(ttl: int, s: State, st: Step)
    requires Inv(s)
    ensures FlightsOk(Next(ttl, s, st))
  {
    if st.Advance? && st.id in s.requests {
      FlightsAdvance(ttl, s, st.id, st.input);
    } else {
      hide Leads, HeapOk, WaitersOk, CacheOk, NegativeOk, MarksOk, EffectOf, Apply;
      forall key, x ensures Leads(Next(ttl, s, st), key, x) <==> Leads(s, key, x) {
        LeadsStays(ttl, s, st, key, x);
      }
    }
  }

  lemma LeadsStays(ttl: int, s: State, st: Step, key: string, x: nat)
    requires !(st.Advance? && st.id in s.requests)
    ensures Leads(Next(ttl, s, st), key, x) <==> Leads(s, key, x)
  {
    hide EffectOf, Apply;
  }

  lemma LeadsIs(s: State, id: nat)
    requires id in s.requests
    ensures forall key :: Leads(s, key, id) <==>
              IsServer(s.requests[id]) && s.requests[id].ref.publicID == key && Flying(s.requests[id].phase)
  {
  }

  // The tracker's marks are the standing rejections it has not forgotten.
  ghost predicate MarksOk(h: Tracker) {
    forall fp, t :: MarkOk(h, fp, t)
  }

  ghost predicate MarkOk(h: Tracker, fp: string, t: int) {
    (fp in h.marks && h.marks[fp] == t) <==> fp != "" && fp !in h.forgotten && M.MarkedAt(h.history, fp, t)
  }

  lemma TrackedOk(h: Tracker, cred: Cred, op: MarkOp)
    requires MarksOk(h)
    ensures MarksOk(Tracked(h, cred, op))
  {
    var h' := Tracked(h, cred, op);
    if !op.NoMark? && cred.CallerSession? && cred.fingerprint != "" {
      var fp := cred.fingerprint;
      var e := if op.MarkAt? then M.Marked(fp, op.now) else M.Removed(fp);
      assert h'.history == h.history + [e];
      forall f, t ensures MarkOk(h', f, t) {
        M.LatestMarkStep(h.history, e, f, t);
        assert MarkOk(h, f, t);
      }
    }
  }

  lemma ForgetOk(h: Tracker, fp: string)
    requires MarksOk(h)
    ensures MarksOk(Forget(h, fp))
  {
    var h' := Forget(h, fp);
    forall f, t ensures MarkOk(h', f, t) {
      assert MarkOk(h, f, t);
      assert f in h.marks ==> MarkOk(h, f, h.marks[f]);
    }
  }

  lemma HealthStep(ttl: int, s: State, st: Step)
    requires MarksOk(s.health)
    ensures MarksOk(Next(ttl, s, st).health)
  {
    hide MarksOk, EffectOf, Tracked, Forget;
    if st.Advance? && st.id in s.requests {
      TrackedOk(s.health, s.requests[st.id].cred, EffectOf(ttl, s, st.id, st.input).mark);
    } else if st.HealthForgets? {
      ForgetOk(s.health, st.fingerprint);
    }
  }

  // What a request has done at the gate, given where it is.
  predicate GateOk(r: Request) {
    match r.phase
    case Reserved => r.gate == [Took]
    case Fetched(_) => r.gate == [Took]
    case Failing(e) => r.gate == [Took, Gave(Some(e))]
    case Enriching => r.gate == [Took, Gave(None)]
    case Stored => r.gate == [Took, Gave(None)]
    case Returned(out) => r.gate == [] || Settled(r, out)
    case _ => r.gate == []
  }

  // The reservation was given back with the outcome the request reports. A caller
  // is told that its session is invalid where the gate is told that it was refused.
  predicate Settled(r: Request, out: Outcome) {
    match out
    case Got(_) => r.gate == [Took, Gave(None)]
    case Failed(e) =>
      || r.gate == [Took, Gave(Some(e))]
      || (r.cred.CallerSession? && e == SESSION_INVALID && |r.gate| == 2 && r.gate[0] == Took
          && r.gate[1].Gave? && r.gate[1].error.Some? && Is(r.gate[1].error.value, UpstreamAuthFailed))
    case FastFailed => false
  }

  ghost predicate GatesOk(s: State) {
    forall id :: id in s.requests ==> GateOk(s.requests[id])
  }

  lemma ServerGateStep(s: State, id: nat, r: Request, inp: Input)
    requires GateOk(r) && IsServer(r)
    ensures GateOk(Moved(r, ServerEffect(s, id, r, inp)))
  {
    GateGrows(r);
  }

  lemma CallerGateStep(ttl: int, s: State, id: nat, r: Request, inp: Input)
    requires GateOk(r) && r.cred.CallerSession?
    ensures GateOk(Moved(r, CallerEffect(ttl, s, id, r, inp)))
  {
    GateGrows(r);
  }

  lemma GateGrows(r: Request)
    ensures r.gate + [] == r.gate
    ensures r.gate == [] ==> r.gate + [Took] == [Took]
    ensures forall err :: r.gate == [Took] ==> r.gate + [Gave(err)] == [Took, Gave(err)]
  {
  }

  lemma GatesStep(ttl: int, s: State, st: Step)
    requires GatesOk(s)
    ensures GatesOk(Next(ttl, s, st))
  {
    hide GateOk, ServerEffect, CallerEffect, Apply;
    if st.Advance? && st.id in s.requests {
      var r := s.requests[st.id];
      ApplyFrame(s, st.id, EffectOf(ttl, s, st.id, st.input));
      if IsServer(r) {
        ServerGateStep(s, st.id, r, st.input);
      } else {
        CallerGateStep(ttl, s, st.id, r, st.input);
      }
    } else if st.Begin? {
      NewGateOk(st.ref, st.cred);
    }
  }

  lemma NewGateOk(ref: Ref, cred: Cred)
    ensures GateOk(Request(ref, cred, Begun, []))
  {
  }

  lemma InvStep(ttl: int, s: State, st: Step)
    requires Inv(s)
    ensures Inv(Next(ttl, s, st))
  {
    hide HeapOk, WaitersOk, CacheOk, NegativeOk, FlightsOk, MarksOk, GatesOk, Next;
    HeapStep(ttl, s, st);
    WaitersStep(ttl, s, st);
    CacheStep(ttl, s, st);
    NegativeStep(ttl, s, st);
    FlightsStep(ttl, s, st);
    HealthStep(ttl, s, st);
    GatesStep(ttl, s, st);
  }

  lemma {:induction false} InvRun(ttl: int, s: State, steps: seq<Step>)
    requires Inv(s)
    ensures Inv(Run(ttl, s, steps))
  {
    if steps != [] {
      hide Inv, Next;
      InvRun(ttl, s, steps[..|steps| - 1]);
      InvStep(ttl, Run(ttl, s, steps[..|steps| - 1]), steps[|steps| - 1]);
    }
  }

  lemma {:induction false} Reachable(ttl: int, steps: seq<Step>)
    ensures Inv(Run(ttl, START, steps))
  {
    StartOk();
    InvRun(ttl, START, steps);
  }

  lemma StartOk()
    ensures Inv(START)
  {
  }

  // ---------------------------------------------------------------------------
  // Identity and provenance

  // In every run: what a request returns carries its own reference and comes from
  // its own kind of credential, whether fetched, cached or shared; what the cache
  // stores is an uncached server result under its own identifier; what the
  // negative cache and the flight table hold comes from server requests.
  lemma {:induction false} IdentityAndProvenance(ttl: int, steps: seq<Step>)
    ensures
      var s := Run(ttl, START, steps);
      && (forall id :: id in s.requests && s.requests[id].phase.Returned? && s.requests[id].phase.outcome.Got? ==>
            var res := s.requests[id].phase.outcome.result;
            && res in s.heap
            && s.heap[res].publicID == s.requests[id].ref.publicID
            && s.heap[res].url == s.requests[id].ref.canonicalURL == CANONICAL_PREFIX + s.heap[res].publicID
            && s.heap[res].origin == s.requests[id].cred)
      && (forall key :: key in s.cache ==>
            var res := s.cache[key];
            && res in s.heap && s.heap[res].publicID == key && s.heap[res].url == CANONICAL_PREFIX + key
            && !s.heap[res].cached && s.heap[res].origin == ServerSession)
      && (forall key :: key in s.negative ==> ConfirmedMissing(s, key, s.negative[key]))
      && (forall key :: key in s.flights ==> Leads(s, key, s.flights[key]))
  {
    Reachable(ttl, steps);
    var s := Run(ttl, START, steps);
    hide Run;
    forall id | id in s.requests && s.requests[id].phase.Returned? && s.requests[id].phase.outcome.Got?
      ensures ResultOk(s, id) && RefOk(s.requests[id].ref)
    {
    }
    forall key | key in s.cache ensures Cacheable(s, key, s.cache[key]) && RefOk(s.requests[s.cache[key]].ref) {
    }
  }

  // At most one retrieval per key is in flight.
  lemma SingleFlight(ttl: int, steps: seq<Step>, key: string, a: nat, b: nat)
    requires Leads(Run(ttl, START, steps), key, a) && Leads(Run(ttl, START, steps), key, b)
    ensures a == b
  {
    Reachable(ttl, steps);
    hide Run;
  }

  // ---------------------------------------------------------------------------
  // A second retrieval of a profile that is in the cache

  // The request starts a flight for a key the cache holds.
  predicate Refetches(ttl: int, s: State, id: nat, inp: Input) {
    && id in s.requests && IsServer(s.requests[id]) && s.requests[id].ref.publicID in s.cache
    && !s.requests[id].phase.Leading? && Next(ttl, s, Advance(id, inp)).requests[id].phase.Leading?
  }

  // The i-th step is this request's own cache lookup, and the cache has not got it.
  predicate LooksInVain(ttl: int, steps: seq<Step>, i: int, id: nat) {
    && 0 <= i < |steps| && steps[i].Advance? && steps[i].id == id
    && var s := Run(ttl, START, steps[..i]);
       && id in s.requests && s.requests[id].phase.Begun? && IsServer(s.requests[id])
       && s.requests[id].ref.publicID !in s.cache
  }

  // The j-th step is the request v storing its result under its key.
  predicate StoresAt(ttl: int, steps: seq<Step>, j: int, key: string, v: nat) {
    && 0 <= j < |steps| && steps[j].Advance? && steps[j].id == v
    && var s := Run(ttl, START, steps[..j]);
       && v in s.requests && s.requests[v].phase.Enriching? && IsServer(s.requests[v])
       && s.requests[v].ref.publicID == key && EffectOf(ttl, s, v, steps[j].input).store
  }

  predicate Holds(s: State, key: string, v: nat) { key in s.cache && s.cache[key] == v }

  lemma CacheGainsByStore(ttl: int, s: State, st: Step, key: string, v: nat)
    requires Holds(Next(ttl, s, st), key, v) && !Holds(s, key, v)
    ensures st.Advance? && st.id == v && v in s.requests && s.requests[v].phase.Enriching? && IsServer(s.requests[v])
    ensures s.requests[v].ref.publicID == key && EffectOf(ttl, s, v, st.input).store
    ensures Next(ttl, s, st).requests[v].phase == Stored
  {
    hide Tracked, Forget, EffectOf;
    if st.Advance? && st.id in s.requests && EffectOf(ttl, s, st.id, st.input).store {
      StoreEffect(ttl, s, st.id, st.input);
    }
  }

  lemma StoreEffect(ttl: int, s: State, id: nat, inp: Input)
    requires id in s.requests && EffectOf(ttl, s, id, inp).store
    ensures s.requests[id].phase.Enriching? && IsServer(s.requests[id]) && EffectOf(ttl, s, id, inp).phase == Stored
  {
  }

  lemma {:induction false} StoredSince(ttl: int, steps: seq<Step>, i: nat, key: string, v: nat) returns (j: nat)
    requires i <= |steps| && key !in Run(ttl, START, steps[..i]).cache && Holds(Run(ttl, START, steps), key, v)
    ensures i <= j && StoresAt(ttl, steps, j, key, v)
  {
    hide Next, Inv, EffectOf;
    assert steps[..|steps|] == steps;
    if i == |steps| {
      assert false;
    }
    var n := |steps| - 1;
    if Holds(Run(ttl, START, steps[..n]), key, v) {
      assert steps[..n][..i] == steps[..i];
      j := StoredSince(ttl, steps[..n], i, key, v);
      assert steps[..n][..j] == steps[..j];
    } else {
      CacheGainsByStore(ttl, Run(ttl, START, steps[..n]), steps[n], key, v);
      j := n;
    }
  }

  lemma MissEffect(ttl: int, s: State, id: nat, inp: Input)
    requires CacheOk(s) && id in s.requests && IsServer(s.requests[id])
    requires EffectOf(ttl, s, id, inp).phase.CacheMissed? || EffectOf(ttl, s, id, inp).phase.Missed?
    ensures s.requests[id].phase.CacheMissed? || s.requests[id].phase.Missed?
         || (s.requests[id].phase.Begun? && s.requests[id].ref.publicID !in s.cache && !EffectOf(ttl, s, id, inp).store)
  {
    var key := s.requests[id].ref.publicID;
    if key in s.cache { assert Cacheable(s, key, s.cache[key]); }
  }

  lemma MissPhaseStep(ttl: int, s: State, st: Step, id: nat)
    requires CacheOk(s) && id in Next(ttl, s, st).requests && IsServer(Next(ttl, s, st).requests[id])
    requires var p := Next(ttl, s, st).requests[id].phase; p.CacheMissed? || p.Missed?
    ensures id in s.requests && IsServer(s.requests[id])
    ensures Next(ttl, s, st).requests[id].ref == s.requests[id].ref
    ensures s.requests[id].phase.CacheMissed? || s.requests[id].phase.Missed?
         || (st.Advance? && st.id == id && s.requests[id].phase.Begun? && s.requests[id].ref.publicID !in s.cache
             && Next(ttl, s, st).cache == s.cache)
  {
    hide Tracked, Forget, EffectOf, CacheOk;
    if st.Advance? && st.id == id && id in s.requests {
      MissEffect(ttl, s, id, st.input);
    } else if st.Advance? && st.id in s.requests {
      hide Apply;
      ApplyFrame(s, st.id, EffectOf(ttl, s, st.id, st.input));
    }
  }

  lemma {:induction false} LookedInVain(ttl: int, steps: seq<Step>, id: nat) returns (i: nat)
    requires var s := Run(ttl, START, steps);
             id in s.requests && IsServer(s.requests[id])
             && (s.requests[id].phase.CacheMissed? || s.requests[id].phase.Missed?)
    ensures LooksInVain(ttl, steps, i, id) && i < |steps|
    ensures Run(ttl, START, steps[..i + 1]).cache == Run(ttl, START, steps[..i]).cache
    ensures Run(ttl, START, steps).requests[id].ref == Run(ttl, START, steps[..i]).requests[id].ref
  {
    hide Next, Inv;
    if steps == [] {
      assert false;
    }
    var n := |steps| - 1;
    Reachable(ttl, steps[..n]);
    HeapOfInv(Run(ttl, START, steps[..n]));
    MissPhaseStep(ttl, Run(ttl, START, steps[..n]), steps[n], id);
    var p := Run(ttl, START, steps[..n]).requests[id].phase;
    if p.CacheMissed? || p.Missed? {
      i := LookedInVain(ttl, steps[..n], id);
      assert steps[..n][..i] == steps[..i] && steps[..n][..i + 1] == steps[..i + 1];
    } else {
      i := n;
      assert steps[..n + 1] == steps;
    }
  }

  // Who stored what the cache holds is done with it once its flight is gone.
  lemma StorerHasReturned(s: State, key: string)
    requires Inv(s) && key in s.cache && key !in s.flights
    ensures s.cache[key] in s.requests && s.requests[s.cache[key]].phase.Returned?
  {
    var v := s.cache[key];
    assert Cacheable(s, key, v) && ResultOk(s, v);
    assert !Leads(s, key, v);
  }

  // A request starts a flight for a cached profile exactly when it has missed both
  // caches and no flight is there; and then what is cached was stored, and its
  // retrieval over, after this request had looked for it in vain.
  lemma {:induction false} RefetchIff(ttl: int, steps: seq<Step>, id: nat, inp: Input)
    requires id in Run(ttl, START, steps).requests
    ensures var s := Run(ttl, START, steps);
            var r := s.requests[id];
            Refetches(ttl, s, id, inp) <==>
              IsServer(r) && r.phase.Missed? && r.ref.publicID in s.cache && r.ref.publicID !in s.flights
    ensures var s := Run(ttl, START, steps);
            var key := s.requests[id].ref.publicID;
            Refetches(ttl, s, id, inp) ==>
              && s.cache[key] != id && s.cache[key] in s.requests && s.requests[s.cache[key]].phase.Returned?
              && exists i, j :: i < j && LooksInVain(ttl, steps, i, id) && StoresAt(ttl, steps, j, key, s.cache[key])
  {
    hide Run, Inv, LooksInVain, StoresAt;
    var s := Run(ttl, START, steps);
    TakesOffIff(ttl, s, id, inp);
    if Refetches(ttl, s, id, inp) {
      hide Next, Refetches;
      var key := s.requests[id].ref.publicID;
      Reachable(ttl, steps);
      StorerHasReturned(s, key);
      var i := LookedInVain(ttl, steps, id);
      MissedNow(ttl, steps, i, id);
      var j := StoredSince(ttl, steps, i + 1, key, s.cache[key]);
    }
  }

  lemma TakesOffIff(ttl: int, s: State, id: nat, inp: Input)
    requires id in s.requests
    ensures var r := s.requests[id];
            Refetches(ttl, s, id, inp) <==>
              IsServer(r) && r.phase.Missed? && r.ref.publicID in s.cache && r.ref.publicID !in s.flights
  {
    hide Tracked;
  }

  lemma MissedNow(ttl: int, steps: seq<Step>, i: nat, id: nat)
    requires LooksInVain(ttl, steps, i, id) && i < |steps|
    ensures id in Run(ttl, START, steps[..i]).requests
    ensures Run(ttl, START, steps[..i]).requests[id].ref.publicID !in Run(ttl, START, steps[..i]).cache
  {
    hide Run;
  }

  // A result never changes after it was stored, shared or returned, in any
  // continuation of any run.
  lemma {:induction false} NeverMutatedAfterPublication(ttl: int, before: seq<Step>, after: seq<Step>, id: nat)
    requires Published(Run(ttl, START, before), id)
    ensures var s, s' := Run(ttl, START, before), Run(ttl, START, before + after);
            Published(s', id) && s'.heap[id] == s.heap[id]
  {
    if after == [] {
      assert before + after == before;
    } else {
      hide Next, Published, Inv;
      var init := after[..|after| - 1];
      assert (before + after)[..|before + after| - 1] == before + init;
      NeverMutatedAfterPublication(ttl, before, init, id);
      Reachable(ttl, before + init);
      HeapOfInv(Run(ttl, START, before + init));
      PublishedIsFrozen(ttl, Run(ttl, START, before + init), after[|after| - 1], id);
    }
  }

  lemma HeapOfInv(s: State)
    requires Inv(s)
    ensures HeapOk(s) && CacheOk(s)
  {
  }

  // A hit returns a copy marked as cached; the stored result stays as it was.
  lemma HitsAreCopies(ttl: int, steps: seq<Step>, id: nat, inp: Input)
    requires var s := Run(ttl, START, steps);
             id in s.requests && IsServer(s.requests[id]) && s.requests[id].phase.Begun?
             && s.requests[id].ref.publicID in s.cache
    ensures var s := Run(ttl, START, steps);
            var s', stored := Next(ttl, s, Advance(id, inp)), s.cache[s.requests[id].ref.publicID];
            && s'.requests[id].phase == Returned(Got(id)) && stored != id
            && s'.heap[id] == s.heap[stored].(cached := true)
            && s'.heap[stored] == s.heap[stored] && !s.heap[stored].cached
  {
    Reachable(ttl, steps);
    var s := Run(ttl, START, steps);
    hide Run;
    assert Cacheable(s, s.requests[id].ref.publicID, s.cache[s.requests[id].ref.publicID]);
    assert ResultOk(s, id);
  }

  // ---------------------------------------------------------------------------
  // Whose answer a request gives

  lemma ReturnedStays(ttl: int, s: State, st: Step, id: nat)
    requires id in s.requests && s.requests[id].phase.Returned?
    ensures id in Next(ttl, s, st).requests && Next(ttl, s, st).requests[id] == s.requests[id]
  {
    hide Tracked, Forget;
    if st.Advance? && st.id in s.requests {
      assert st.id == id ==> EffectOf(ttl, s, id, st.input) == Just(s.requests[id].phase);
      hide EffectOf, Apply;
      ApplyFrame(s, st.id, EffectOf(ttl, s, st.id, st.input));
    }
  }

  // A request that waits goes on waiting for the same leader, until it returns what
  // the leader has returned.
  lemma WaitingGoesOn(ttl: int, s: State, st: Step, id: nat, l: nat)
    requires Inv(s) && id in s.requests && s.requests[id].phase == Waiting(l)
    ensures id in Next(ttl, s, st).requests && l in s.requests && l != id
    ensures var rs := Next(ttl, s, st).requests;
            if st.Advance? && st.id == id && s.requests[l].phase.Returned?
            then rs[id].phase == s.requests[l].phase && l in rs && rs[l].phase == rs[id].phase
            else rs[id].phase == Waiting(l)
  {
    hide Tracked, Forget, HeapOk, CacheOk, NegativeOk, FlightsOk, MarksOk, GatesOk;
    assert WaiterOk(s, id);
    if st.Advance? && st.id in s.requests {
      WaiterEffect(ttl, s, id, l, st.input);
      hide EffectOf, Apply, WaiterOk;
      ApplyFrame(s, st.id, EffectOf(ttl, s, st.id, st.input));
    }
  }

  lemma WaiterEffect(ttl: int, s: State, id: nat, l: nat, inp: Input)
    requires id in s.requests && IsServer(s.requests[id]) && s.requests[id].phase == Waiting(l) && l in s.requests
    ensures EffectOf(ttl, s, id, inp)
         == Just(if s.requests[l].phase.Returned? then s.requests[l].phase else Waiting(l))
  {
  }

  // Coalescing: in every continuation of any run, a request that was waiting for a
  // leader and has returned gave the very answer the leader gave.
  lemma {:induction false} FollowersShare(ttl: int, before: seq<Step>, after: seq<Step>, id: nat, l: nat)
    requires id in Run(ttl, START, before).requests && Run(ttl, START, before).requests[id].phase == Waiting(l)
    ensures var s := Run(ttl, START, before + after);
            && id in s.requests
            && (s.requests[id].phase == Waiting(l)
                || (l in s.requests && s.requests[l].phase.Returned? && s.requests[id].phase == s.requests[l].phase))
  {
    if after == [] {
      assert before + after == before;
    } else {
      hide Next, Inv;
      var init, st := after[..|after| - 1], after[|after| - 1];
      assert (before + after)[..|before + after| - 1] == before + init;
      FollowersShare(ttl, before, init, id, l);
      Reachable(ttl, before + init);
      var s := Run(ttl, START, before + init);
      if s.requests[id].phase == Waiting(l) {
        WaitingGoesOn(ttl, s, st, id, l);
      } else {
        ReturnedStays(ttl, s, st, id);
        ReturnedStays(ttl, s, st, l);
      }
    }
  }

  // The i-th step is this request's, from this phase.
  predicate MovesAt(ttl: int, steps: seq<Step>, i: int, id: nat) {
    0 <= i < |steps| && steps[i].Advance? && steps[i].id == id && id in Run(ttl, START, steps[..i]).requests
  }

  function PhaseAt(ttl: int, steps: seq<Step>, i: int, id: nat): Phase
    requires MovesAt(ttl, steps, i, id)
  {
    Run(ttl, START, steps[..i]).requests[id].phase
  }

  // The core call of the request ended with this, at some step.
  ghost predicate FetchEndedWith(ttl: int, steps: seq<Step>, id: nat, error: Option<Error>) {
    exists i :: MovesAt(ttl, steps, i, id) && PhaseAt(ttl, steps, i, id) == Reserved
                && steps[i].input.fetchError == error
  }

  // How a step can answer a server request: a cache hit, a standing mark, the
  // leader's answer, a refusal by the gate, the core call's error, or its result.
  predicate AnswersServer(s: State, id: nat, inp: Input, out: Outcome)
    requires id in s.requests
  {
    var key := s.requests[id].ref.publicID;
    match s.requests[id].phase
    case Begun => key in s.cache && out == Got(id)
    case CacheMissed => key in s.negative && out == Failed(Structured(ProfileNotFound, 0))
    case Waiting(l) => l in s.requests && s.requests[l].phase == Returned(out)
    case Leading => inp.refused.Some? && out == Failed(inp.refused.value)
    case Failing(e) => out == Failed(e)
    case Stored => out == Got(id)
    case _ => false
  }

  // And a caller's: failed fast, refused by the gate, the core call's error, which
  // is the caller's own fault if its session was refused, or the result.
  predicate AnswersCaller(s: State, id: nat, inp: Input, out: Outcome)
    requires id in s.requests
  {
    match s.requests[id].phase
    case Begun => out == FastFailed
    case Healthy => inp.refused.Some? && out == Failed(inp.refused.value)
    case Failing(e) =>
      out == Failed(if e.Structured? && e.code == UpstreamAuthFailed then Structured(CallerSessionInvalid, 0) else e)
    case Enriching => out == Got(id)
    case _ => false
  }

  // An error or a result is that of the core call.
  ghost predicate AfterFetch(ttl: int, steps: seq<Step>, id: nat, p: Phase) {
    && (p.Failing? ==> FetchEndedWith(ttl, steps, id, Some(p.error)))
    && (p.Enriching? || p.Stored? ==> FetchEndedWith(ttl, steps, id, None))
  }

  ghost predicate AnsweredAt(ttl: int, steps: seq<Step>, i: int, id: nat, out: Outcome) {
    && MovesAt(ttl, steps, i, id)
    && var s := Run(ttl, START, steps[..i]);
       && (if IsServer(s.requests[id]) then AnswersServer(s, id, steps[i].input, out)
           else AnswersCaller(s, id, steps[i].input, out))
       && AfterFetch(ttl, steps, id, s.requests[id].phase)
  }

  // What a request past its core call remembers of it.
  predicate Fetching(p: Phase, error: Option<Error>) {
    match p
    case Fetched(e) => e == error
    case Failing(e) => error == Some(e)
    case Enriching => error.None?
    case Stored => error.None?
    case _ => false
  }

  lemma OwnFetching(ttl: int, s: State, id: nat, inp: Input, error: Option<Error>)
    requires id in s.requests && Fetching(EffectOf(ttl, s, id, inp).phase, error)
    ensures Fetching(s.requests[id].phase, error) || (s.requests[id].phase.Reserved? && inp.fetchError == error)
  {
  }

  lemma FetchingStep(ttl: int, s: State, st: Step, id: nat, error: Option<Error>)
    requires Inv(s) && id in Next(ttl, s, st).requests && Fetching(Next(ttl, s, st).requests[id].phase, error)
    ensures id in s.requests
    ensures Fetching(s.requests[id].phase, error)
         || (st.Advance? && st.id == id && s.requests[id].phase.Reserved? && st.input.fetchError == error)
  {
    hide Tracked, Forget, Inv, EffectOf;
    if st.Advance? && st.id in s.requests {
      if st.id == id {
        OwnFetching(ttl, s, id, st.input, error);
      }
      hide Apply;
      ApplyFrame(s, st.id, EffectOf(ttl, s, st.id, st.input));
    }
  }

  lemma EndedBefore(ttl: int, steps: seq<Step>, n: nat, id: nat, error: Option<Error>)
    requires n <= |steps| && FetchEndedWith(ttl, steps[..n], id, error)
    ensures FetchEndedWith(ttl, steps, id, error)
  {
    hide Run;
    var i :| MovesAt(ttl, steps[..n], i, id) && PhaseAt(ttl, steps[..n], i, id) == Reserved
             && steps[..n][i].input.fetchError == error;
    assert steps[..n][..i] == steps[..i];
    assert MovesAt(ttl, steps, i, id) && PhaseAt(ttl, steps, i, id) == Reserved;
  }

  lemma {:induction false} FetchingEnded(ttl: int, steps: seq<Step>, id: nat, error: Option<Error>)
    requires id in Run(ttl, START, steps).requests && Fetching(Run(ttl, START, steps).requests[id].phase, error)
    ensures FetchEndedWith(ttl, steps, id, error)
  {
    hide Next, Inv, Fetching, FetchEndedWith;
    if steps == [] {
      assert false;
    }
    var n := |steps| - 1;
    Reachable(ttl, steps[..n]);
    FetchingStep(ttl, Run(ttl, START, steps[..n]), steps[n], id, error);
    if Fetching(Run(ttl, START, steps[..n]).requests[id].phase, error) {
      FetchingEnded(ttl, steps[..n], id, error);
      EndedBefore(ttl, steps, n, id, error);
    } else {
      EndsHere(ttl, steps, n, id);
    }
  }

  lemma EndsHere(ttl: int, steps: seq<Step>, i: nat, id: nat)
    requires MovesAt(ttl, steps, i, id) && PhaseAt(ttl, steps, i, id) == Reserved
    ensures FetchEndedWith(ttl, steps, id, steps[i].input.fetchError)
  {
    hide Run;
  }

  lemma AnswerStep(ttl: int, s: State, st: Step, id: nat)
    requires Inv(s) && id in s.requests && !s.requests[id].phase.Returned?
    requires id in Next(ttl, s, st).requests && Next(ttl, s, st).requests[id].phase.Returned?
    ensures st.Advance? && st.id == id
    ensures var out := Next(ttl, s, st).requests[id].phase.outcome;
            if IsServer(s.requests[id]) then AnswersServer(s, id, st.input, out)
            else AnswersCaller(s, id, st.input, out)
  {
    hide Tracked, Forget, Inv;
    if st.Advance? && st.id == id {
      hide Apply;
      ApplyFrame(s, id, EffectOf(ttl, s, id, st.input));
    } else if st.Advance? && st.id in s.requests {
      hide EffectOf, Apply;
      ApplyFrame(s, st.id, EffectOf(ttl, s, st.id, st.input));
    }
  }

  lemma AnsweredBefore(ttl: int, steps: seq<Step>, n: nat, i: int, id: nat, out: Outcome)
    requires n <= |steps| && AnsweredAt(ttl, steps[..n], i, id, out)
    ensures AnsweredAt(ttl, steps, i, id, out)
  {
    hide Run, AnswersServer, AnswersCaller, FetchEndedWith;
    assert steps[..n][..i] == steps[..i];
    var p := Run(ttl, START, steps[..i]).requests[id].phase;
    if p.Failing? {
      EndedBefore(ttl, steps, n, id, Some(p.error));
    } else if p.Enriching? || p.Stored? {
      EndedBefore(ttl, steps, n, id, None);
    }
  }

  lemma AnsweredNow(ttl: int, steps: seq<Step>, n: nat, id: nat)
    requires n == |steps| - 1 && id in Run(ttl, START, steps[..n]).requests
    requires !Run(ttl, START, steps[..n]).requests[id].phase.Returned?
    requires id in Run(ttl, START, steps).requests && Run(ttl, START, steps).requests[id].phase.Returned?
    ensures AnsweredAt(ttl, steps, n, id, Run(ttl, START, steps).requests[id].phase.outcome)
  {
    Reachable(ttl, steps[..n]);
    var s := Run(ttl, START, steps[..n]);
    AnswerStep(ttl, s, steps[n], id);
    hide Inv, Next, AnswersServer, AnswersCaller, FetchEndedWith;
    var p := s.requests[id].phase;
    if p.Failing? {
      FetchingEnded(ttl, steps[..n], id, Some(p.error));
      EndedBefore(ttl, steps, n, id, Some(p.error));
    } else if p.Enriching? || p.Stored? {
      FetchingEnded(ttl, steps[..n], id, None);
      EndedBefore(ttl, steps, n, id, None);
    }
  }

  // In every run: every answer was given by one step of the request itself, in one
  // of those ways, with the error or the success its own core call had.
  lemma {:induction false} AnswersComeFrom(ttl: int, steps: seq<Step>, id: nat)
    requires id in Run(ttl, START, steps).requests && Run(ttl, START, steps).requests[id].phase.Returned?
    ensures exists i :: AnsweredAt(ttl, steps, i, id, Run(ttl, START, steps).requests[id].phase.outcome)
  {
    hide Next, Inv, AnsweredAt;
    if steps == [] {
      assert false;
    }
    var n := |steps| - 1;
    var s := Run(ttl, START, steps[..n]);
    if id in s.requests && s.requests[id].phase.Returned? {
      ReturnedStays(ttl, s, steps[n], id);
      AnswersComeFrom(ttl, steps[..n], id);
      var i :| AnsweredAt(ttl, steps[..n], i, id, s.requests[id].phase.outcome);
      AnsweredBefore(ttl, steps, n, i, id, s.requests[id].phase.outcome);
    } else {
      Reachable(ttl, steps[..n]);
      if id !in s.requests {
        HeapOfInv(s);
        NewRequest(ttl, s, steps[n], id);
        assert false;
      }
      AnsweredNow(ttl, steps, n, id);
    }
  }

  // ---------------------------------------------------------------------------
  // Caller isolation

  // Servers are never failed fast, not even through a flight they share.
  lemma ServersAreNotFailedFast(ttl: int, s: State, id: nat, inp: Input)
    requires Inv(s) && id in s.requests && IsServer(s.requests[id]) && !s.requests[id].phase.Returned?
    ensures EffectOf(ttl, s, id, inp).phase != Returned(FastFailed)
  {
    var r := s.requests[id];
    if r.phase.Waiting? && r.phase.leader in s.requests {
      assert ResultOk(s, r.phase.leader) && IsServer(s.requests[r.phase.leader]);
    }
  }

  // In every run a request is failed fast exactly when it is a caller's, has just
  // begun, so holds no reservation, and the latest word on its own fingerprint is
  // a rejection within the TTL that the tracker has not forgotten.
  lemma {:induction false} FastFailIff(ttl: int, steps: seq<Step>, id: nat, inp: Input)
    requires id in Run(ttl, START, steps).requests
    requires !Run(ttl, START, steps).requests[id].phase.Returned?
    ensures var s := Run(ttl, START, steps);
            var r := s.requests[id];
            Next(ttl, s, Advance(id, inp)).requests[id].phase == Returned(FastFailed) <==>
              && r.cred.CallerSession? && r.phase == Begun && r.cred.fingerprint != ""
              && r.cred.fingerprint !in s.health.forgotten
              && exists t :: M.MarkedAt(s.health.history, r.cred.fingerprint, t) && inp.now <= t + ttl
  {
    Reachable(ttl, steps);
    var s := Run(ttl, START, steps);
    hide Run;
    var r := s.requests[id];
    if IsServer(r) {
      ServersAreNotFailedFast(ttl, s, id, inp);
    } else {
      var fp := r.cred.fingerprint;
      CallerIsFailedFastIff(ttl, s, id, inp);
      if t :| M.MarkedAt(s.health.history, fp, t) && inp.now <= t + ttl && fp != "" && fp !in s.health.forgotten {
        assert MarkOk(s.health, fp, t);
      }
      if fp in s.health.marks {
        assert MarkOk(s.health, fp, s.health.marks[fp]);
      }
    }
  }

  lemma CallerIsFailedFastIff(ttl: int, s: State, id: nat, inp: Input)
    requires id in s.requests && s.requests[id].cred.CallerSession? && !s.requests[id].phase.Returned?
    ensures var r := s.requests[id];
            EffectOf(ttl, s, id, inp).phase == Returned(FastFailed) <==>
              && r.phase == Begun && r.cred.fingerprint != "" && r.cred.fingerprint in s.health.marks
              && inp.now <= s.health.marks[r.cred.fingerprint] + ttl
  {
  }

  // ---------------------------------------------------------------------------
  // Core reservations

  // In every run a request takes at most one reservation for its core call and
  // gives it back exactly once, after the fetch, with the fetch's own outcome; it
  // holds one exactly between taking it and giving it back.
  lemma {:induction false} ReservationReturnedOnce(ttl: int, steps: seq<Step>, id: nat)
    requires id in Run(ttl, START, steps).requests
    ensures var r := Run(ttl, START, steps).requests[id];
            && (r.gate == [] || r.gate == [Took] || (|r.gate| == 2 && r.gate[0] == Took && r.gate[1].Gave?))
            && (r.gate == [Took] <==> r.phase.Reserved? || r.phase.Fetched?)
            && (r.phase.Enriching? || r.phase.Stored? ==> r.gate == [Took, Gave(None)])
            && (r.phase.Returned? ==> r.gate == [] || Settled(r, r.phase.outcome))
  {
    Reachable(ttl, steps);
    hide Run;
  }

  // ids are the requests made with caller credentials.
  ghost predicate CallersAre(ids: iset<nat>, steps: seq<Step>) {
    forall i :: 0 <= i < |steps| && steps[i].Begin? ==> (steps[i].cred.CallerSession? <==> steps[i].id in ids)
  }

  // The run without anything those requests did.
  ghost function Without(ids: iset<nat>, steps: seq<Step>): seq<Step> {
    if steps == [] then []
    else
      var init, st := Without(ids, steps[..|steps| - 1]), steps[|steps| - 1];
      if (st.Begin? || st.Advance?) && st.id in ids then init else init + [st]
  }

  ghost predicate AgreeOn(a: State, b: State, id: nat) {
    && (id in a.requests <==> id in b.requests) && (id in a.requests ==> a.requests[id] == b.requests[id])
    && (id in a.heap <==> id in b.heap) && (id in a.heap ==> a.heap[id] == b.heap[id])
  }

  ghost predicate SameShared(a: State, b: State) {
    a.cache == b.cache && a.negative == b.negative && a.flights == b.flights
  }

  // Equal for every server request, and in everything the requests share.
  ghost predicate SameForServers(ids: iset<nat>, a: State, b: State) {
    SameShared(a, b) && forall id :: id !in ids ==> AgreeOn(a, b, id)
  }

  ghost predicate Separated(ids: iset<nat>, s: State) {
    forall id :: id in s.requests ==> (s.requests[id].cred.CallerSession? <==> id in ids)
  }

  lemma CallerEffectIsPrivate(ttl: int, s: State, id: nat, inp: Input)
    requires id in s.requests && s.requests[id].cred.CallerSession?
    ensures var e := EffectOf(ttl, s, id, inp);
            !e.store && !e.missing && e.flight.Keep?
  {
  }

  lemma CallerStepIsPrivate(ttl: int, ids: iset<nat>, s: State, st: Step)
    requires Separated(ids, s) && (st.Begin? || st.Advance?) && st.id in ids
    ensures SameForServers(ids, Next(ttl, s, st), s)
  {
    if st.Advance? && st.id in s.requests {
      CallerEffectIsPrivate(ttl, s, st.id, st.input);
      hide EffectOf;
      ApplyFrame(s, st.id, EffectOf(ttl, s, st.id, st.input));
    }
  }

  // A server request looks at nothing a caller can change.
  lemma ServerEffectIsBlind(ttl: int, ids: iset<nat>, a: State, b: State, id: nat, inp: Input)
    requires Inv(a) && SameForServers(ids, a, b) && Separated(ids, a) && id !in ids && id in a.requests
    ensures EffectOf(ttl, a, id, inp) == EffectOf(ttl, b, id, inp)
  {
    var key := a.requests[id].ref.publicID;
    if key in a.cache { assert Cacheable(a, key, a.cache[key]); }
  }

  lemma ApplyAgrees(a: State, b: State, id: nat, e: Effect, x: nat)
    requires id in a.requests && AgreeOn(a, b, id) && AgreeOn(a, b, x)
    ensures AgreeOn(Apply(a, id, e), Apply(b, id, e), x)
    ensures SameShared(a, b) ==> SameShared(Apply(a, id, e), Apply(b, id, e))
  {
    hide Tracked;
  }

  lemma ServerAdvanceAgrees(ttl: int, ids: iset<nat>, a: State, b: State, id: nat, inp: Input)
    requires Inv(a) && SameForServers(ids, a, b) && Separated(ids, a) && id !in ids && id in a.requests
    ensures SameForServers(ids, Next(ttl, a, Advance(id, inp)), Next(ttl, b, Advance(id, inp)))
  {
    ServerEffectIsBlind(ttl, ids, a, b, id, inp);
    hide EffectOf, Apply, Inv, Separated, SameShared;
    assert AgreeOn(a, b, id);
    ApplyAgrees(a, b, id, EffectOf(ttl, a, id, inp), id);
    forall x | x !in ids ensures AgreeOn(Next(ttl, a, Advance(id, inp)), Next(ttl, b, Advance(id, inp)), x) {
      ApplyAgrees(a, b, id, EffectOf(ttl, a, id, inp), x);
    }
  }

  lemma ServerStepAgrees(ttl: int, ids: iset<nat>, a: State, b: State, st: Step)
    requires Inv(a) && SameForServers(ids, a, b) && Separated(ids, a)
    requires (st.Begin? || st.Advance?) ==> st.id !in ids
    ensures SameForServers(ids, Next(ttl, a, st), Next(ttl, b, st))
  {
    if st.Advance? && st.id in a.requests {
      ServerAdvanceAgrees(ttl, ids, a, b, st.id, st.input);
    } else {
      hide Inv, Separated, EffectOf, Apply;
    }
  }

  lemma {:induction false} StaysSeparated(ttl: int, ids: iset<nat>, steps: seq<Step>)
    requires CallersAre(ids, steps)
    ensures Separated(ids, Run(ttl, START, steps))
  {
    if steps != [] {
      var init, st := steps[..|steps| - 1], steps[|steps| - 1];
      StaysSeparated(ttl, ids, init);
      var s := Run(ttl, START, init);
      if st.Advance? && st.id in s.requests {
        hide EffectOf, Apply;
        ApplyFrame(s, st.id, EffectOf(ttl, s, st.id, st.input));
      }
    }
  }

  // Caller isolation: take any run of server and caller requests and leave out
  // everything the callers did. Every server request goes exactly as before, and
  // the shared cache, negative cache and flight table are the same.
  lemma {:induction false} CallersDoNotInterfere(ttl: int, ids: iset<nat>, steps: seq<Step>)
    requires CallersAre(ids, steps)
    ensures SameForServers(ids, Run(ttl, START, steps), Run(ttl, START, Without(ids, steps)))
  {
    if steps != [] {
      hide SameForServers, Separated, Next, Inv;
      var init, st := steps[..|steps| - 1], steps[|steps| - 1];
      CallersDoNotInterfere(ttl, ids, init);
      StaysSeparated(ttl, ids, init);
      Reachable(ttl, init);
      var a, rest := Run(ttl, START, init), Without(ids, init);
      var b := Run(ttl, START, rest);
      if (st.Begin? || st.Advance?) && st.id in ids {
        CallerStepIsPrivate(ttl, ids, a, st);
        SameIsTransitive(ids, Next(ttl, a, st), a, b);
      } else {
        ServerStepAgrees(ttl, ids, a, b, st);
        assert (rest + [st])[..|rest|] == rest;
      }
    } else {
      assert Without(ids, steps) == [];
      assert SameForServers(ids, START, START);
    }
  }

  lemma SameIsTransitive(ids: iset<nat>, a: State, b: State, c: State)
    requires SameForServers(ids, a, b) && SameForServers(ids, b, c)
    ensures SameForServers(ids, a, c)
  {
  }
}
