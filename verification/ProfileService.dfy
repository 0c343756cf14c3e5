// internal/service/profile.go: the service object, wired to its TTL cache, its
// negative cache, its caller tracker and the guard, and one undisturbed call of
// GetProfile in each credential mode. Results are mutable objects shared by
// reference. Every call is proved to perform the steps of ServiceProtocol.

module ProfileService {
  import opened Domain
  import opened ProfileUrl
  import opened ServiceCalls
  import B = Breaker
  import C = TtlCache
  import G = GuardProtocol
  import M = ExpiringMarks
  import P = ServiceProtocol
  import U = UpstreamGuard
  import W = TtlWindow

  // sections stands for everything enrichment writes.
  class ProfileResult {
    const publicID: string
    const url: string
    var cached: bool
    var sections: Option<int>

    constructor (publicID: string, url: string, cached: bool, sections: Option<int>)
      ensures this.publicID == publicID && this.url == url && this.cached == cached && this.sections == sections
    {
      this.publicID, this.url, this.cached, this.sections := publicID, url, cached, sections;
    }
  }

  // What the clock, the limiter and LinkedIn do to one retrieval: to its core call,
  // and then to each section that got a slot of the enrichment semaphore. urn says
  // whether there is anything to enrich: the profile URN may be absent, and no
  // section may be configured.
  datatype Retrieval = Retrieval(enterAt: int, allow: bool, fetchError: Option<Error>, doneAt: int, urn: bool,
                                 visits: seq<U.Visit>, sections: int)

  function FetchOf(w: Retrieval, refused: Option<Error>): Fetch { Fetch(refused, w.fetchError, w.urn, w.sections) }

  // What the core call does at the gate: it enters, and if it was let in it gives
  // the reservation back with its own error.
  function CoreSteps(id: nat, mode: Mode, w: Retrieval, admitted: bool): seq<G.Step> {
    [G.Enter(mode, w.enterAt), G.Limit(id, w.allow), G.Acquire(id)]
    + if admitted then [G.Release(id, w.fetchError), G.Record(id, w.doneAt)] else []
  }

  // The visits that follow: a core result is enriched, if there is anything to
  // enrich.
  function SectionVisits(w: Retrieval, refused: Option<Error>): seq<U.Visit> {
    if refused.None? && w.fetchError.None? && w.urn then w.visits else []
  }

  // The error with which the gate refused a ticket.
  function RefusalOf(t: G.Ticket): Option<Error> {
    if t.phase.Rejected? then Some(U.RejectionError(t.phase.reason)) else None
  }

  // The circuit open, with its hint; the rate exceeded; the concurrency limit.
  lemma RefusalIs(t: G.Ticket)
    ensures RefusalOf(t) == match t.phase
              case Rejected(CircuitOpen(hint)) => Some(Structured(UpstreamUnavailable, hint))
              case Rejected(RateExceeded) => Some(Structured(UpstreamRateLimited, 1))
              case Rejected(ConcurrencyLimit) => Some(Structured(UpstreamUnavailable, 0))
              case _ => None
  {
  }

  // What the clock says at each reading of the caches that one server call takes.
  datatype Readings = Readings(lookup: int, drop: int, check: int, evict: int, store: int) {
    predicate InOrder() { lookup <= drop <= check <= evict <= store }
  }

  // Everything ever stored carries the identity of its key and no cache-hit mark.
  ghost predicate AllRight(sets: seq<W.Stamp<ProfileResult>>)
    reads set s | s in sets :: s.result
  {
    forall s :: s in sets ==> Identified(s.result, s.key)
  }

  // An object as a result of the protocol, and what a cache holds in those terms.
  ghost function Shown(o: ProfileResult, origin: P.Cred): P.Result
    reads o
  {
    P.Result(o.publicID, o.url, o.cached, o.sections, origin)
  }

  ghost function ViewOf(m: map<string, W.Entry<ProfileResult>>): map<string, P.Result>
    reads set k | k in m :: m[k].result
  {
    map k | k in m :: Shown(m[k].result, SERVER)
  }

  // The latest word on this fingerprint is a rejection that has not lapsed and was
  // not given up.
  ghost predicate Standing(history: seq<M.Event>, dropped: set<string>, ttl: int, fp: string, now: int) {
    fp != "" && fp !in dropped && exists t :: M.MarkedAt(history, fp, t) && now <= t + ttl
  }

  lemma StandingAfter(history: seq<M.Event>, dropped: set<string>, dropped': set<string>, ttl: int, e: M.Event,
                      forgotten: set<string>, other: string, at: int)
    requires dropped' == dropped + forgotten - {e.key} && e.key != ""
    ensures Standing(history + [e], dropped', ttl, other, at) <==>
              if other != e.key then Standing(history, dropped, ttl, other, at) && other !in forgotten
              else e.Marked? && at <= e.at + ttl
  {
    forall t ensures M.MarkedAt(history + [e], other, t)
                <==> if e.key == other then e == M.Marked(other, t) else M.MarkedAt(history, other, t) {
      M.LatestMarkStep(history, e, other, t);
    }
    if other == e.key && e.Marked? {
      assert M.MarkedAt(history + [e], other, e.at);
    }
  }

  lemma MissingIs(w: Retrieval, refused: Option<Error>)
    ensures FoundMissing(FetchOf(w, refused)) <==>
              refused.None? && w.fetchError.Some? && w.fetchError.value.Structured?
              && w.fetchError.value.code == ProfileNotFound
  {
  }

  // The tracker hears of a success and of a refused session, and of nothing else.
  lemma HeardIs(w: Retrieval, refused: Option<Error>, fp: string, later: int)
    ensures Events(fp, Report(FetchOf(w, refused), later)) ==
              if fp == "" || refused.Some? then []
              else if w.fetchError.None? then [M.Removed(fp)]
              else if w.fetchError.value.Structured? && w.fetchError.value.code == UpstreamAuthFailed
              then [M.Marked(fp, later)]
              else []
  {
  }

  // A stored result under its key.
  ghost predicate Identified(o: ProfileResult, key: string)
    reads o
  {
    o.publicID == key && o.url == CANONICAL_PREFIX + key && !o.cached
  }

  class Service {
    const cache: C.Cache<ProfileResult>
    const negative: M.Tracker
    const health: M.CallerHealth
    const gate: U.Gate

    ghost var trace: seq<P.Step>     // the protocol steps of every call so far
    ghost var protocol: P.State      // where they lead
    ghost var nextId: nat

    ghost function Ttl(): int { health.tracker.ttl }

    ghost predicate Objects()
      reads cache, negative, health.tracker, gate, gate.breaker, gate.breaker.general, gate.breaker.session
      reads set s | s in cache.sets :: s.result
    {
      && cache.Valid() && negative.Valid() && health.tracker.Valid() && negative != health.tracker
      && gate.Valid()
      && cache.maxEntries >= 1 && AllRight(cache.sets)
    }

    // The calls so far are a run of the protocol, and the objects hold no more than
    // it does, and the same where they hold something.
    ghost predicate Coupled()
      reads this, cache, negative, health.tracker
      reads set k | k in cache.entries :: cache.entries[k].result
    {
      && Tracing()
      && CoupledTo(Ttl(), ViewOf(cache.entries), negative.entries.Keys, health.tracker.entries, nextId, protocol)
      && protocol.health.history == health.tracker.history
    }

    ghost predicate Tracing()
      reads this
    {
      protocol == P.Run(Ttl(), P.START, trace) && P.Inv(protocol)
    }

    ghost predicate Valid()
      reads this, cache, negative, health.tracker, gate, gate.breaker, gate.breaker.general, gate.breaker.session
      reads set s | s in cache.sets :: s.result
      reads set k | k in cache.entries :: cache.entries[k].result
    {
      Objects() && Coupled()
    }

    // Over caches nobody has used yet.
    constructor (cache: C.Cache<ProfileResult>, negative: M.Tracker, callerTTL: int, gate: U.Gate)
      requires cache.Valid() && cache.sets == [] && cache.entries == map[] && cache.maxEntries >= 1
      requires negative.Valid() && negative.entries == map[] && gate.Valid()
      ensures Valid() && trace == [] && health.tracker.history == []
      ensures this.cache == cache && this.negative == negative && this.gate == gate
      ensures Ttl() == (if callerTTL <= 0 then 300_000_000_000 else callerTTL)
      ensures fresh(health) && fresh(health.tracker)
    {
      this.cache, this.negative, this.gate := cache, negative, gate;
      health := new M.CallerHealth(callerTTL);
      trace, protocol, nextId := [], P.START, 0;
      new;
      hide C.Cache.Valid, M.Tracker.Valid, U.Gate.Valid, P.Inv, P.Run, CoupledTo;
      assert Objects();
      hide Objects;
      P.StartOk();
      StartsHere(Ttl(), P.START);
      StartsCoupled(Ttl());
      assert ViewOf(cache.entries) == map[];
    }

    // The core call, normalized for the reference.
    method FetchCore(ref: Ref, w: Retrieval) returns (result: ProfileResult?, err: Option<Error>)
      ensures err == w.fetchError && (result != null <==> err.None?)
      ensures result != null ==>
                && fresh(result) && result.publicID == ref.publicID && result.url == ref.canonicalURL
                && !result.cached && result.sections.None?
    {
      if w.fetchError.Some? {
        return null, w.fetchError;
      }
      result := new ProfileResult(ref.publicID, ref.canonicalURL, false, None);
      err := None;
    }

    // The core call under one reservation of the guard, given back with the call's
    // own outcome as soon as the call is over.
    method FetchThroughGate(mode: Mode, ref: Ref, w: Retrieval)
      returns (result: ProfileResult?, refused: Option<Error>, err: Option<Error>)
      requires gate.Valid()
      modifies gate, gate.breaker, gate.breaker.general, gate.breaker.session
      ensures gate.Valid()
      ensures |gate.protocol.tickets| == |old(gate.protocol).tickets| + 1
      ensures refused == RefusalOf(gate.protocol.tickets[|old(gate.protocol).tickets|])
      ensures var id := |old(gate.protocol).tickets|;
              gate.protocol == G.Run(gate.Setup(), old(gate.protocol),
                [G.Enter(mode, w.enterAt), G.Limit(id, w.allow), G.Acquire(id)]
                + if refused.None? then [G.Release(id, w.fetchError), G.Record(id, w.doneAt)] else [])
      ensures err == (if refused.Some? then None else w.fetchError)
      ensures result != null <==> refused.None? && err.None?
      ensures result != null ==>
                && fresh(result) && result.publicID == ref.publicID && result.url == ref.canonicalURL
                && !result.cached && result.sections.None?
    {
      hide G.Run, G.Inv;
      ghost var id, s := |gate.protocol.tickets|, gate.protocol;
      var release;
      release, refused := gate.Enter(mode, w.enterAt, w.allow);
      ghost var enter := U.EnterSteps(id, mode, w.enterAt, w.allow);
      if release == null {
        assert enter + [] == enter;
        return null, refused, None;
      }
      result, err := FetchCore(ref, w);
      release.Call(err, w.doneAt);
      G.RunConcat(gate.Setup(), s, enter, [G.Release(id, err), G.Record(id, w.doneAt)]);
    }

    // One section's call, under a reservation of its own.
    method VisitGate(mode: Mode, v: U.Visit)
      requires gate.Valid()
      modifies gate, gate.breaker, gate.breaker.general, gate.breaker.session
      ensures gate.Valid()
      ensures var id, was := |old(gate.protocol).tickets|, old(gate.protocol);
              var enter := [G.Enter(mode, v.enterAt), G.Limit(id, v.allow), G.Acquire(id)];
              gate.protocol == G.Run(gate.Setup(), was,
                enter + if G.At(G.Run(gate.Setup(), was, enter), id, G.Holding)
                        then [G.Release(id, v.error), G.Record(id, v.doneAt)] else [])
    {
      hide G.Run, G.Inv;
      ghost var id, s := |gate.protocol.tickets|, gate.protocol;
      var release, refused := gate.Enter(mode, v.enterAt, v.allow);
      ghost var enter := U.EnterSteps(id, mode, v.enterAt, v.allow);
      if release == null {
        assert enter + [] == enter;
        return;
      }
      release.Call(v.error, v.doneAt);
      G.RunConcat(gate.Setup(), s, enter, [G.Release(id, v.error), G.Record(id, v.doneAt)]);
    }

    method EnrichResult(mode: Mode, result: ProfileResult, w: Retrieval)
      requires gate.Valid()
      modifies result, gate, gate.breaker, gate.breaker.general, gate.breaker.session
      ensures gate.Valid()
      ensures gate.protocol == G.Run(gate.Setup(), old(gate.protocol),
                                     U.VisitsSteps(gate.Setup(), old(gate.protocol), mode,
                                                   if w.urn then w.visits else []))
      ensures result.sections == (if w.urn then Some(w.sections) else old(result.sections))
      ensures result.cached == old(result.cached)
    {
      hide G.Run, U.Gate.Valid;
      ghost var was, c := gate.protocol, gate.Setup();
      U.NoVisits(c, was, mode);
      if !w.urn {
        return;
      }
      for i := 0 to |w.visits|
        invariant gate.Valid() && result.cached == old(result.cached)
        invariant gate.protocol == G.Run(c, was, U.VisitsSteps(c, was, mode, w.visits[..i]))
      {
        VisitGate(mode, w.visits[i]);
        U.VisitsThen(c, was, mode, w.visits[..i], w.visits[i]);
        assert w.visits[..i] + [w.visits[i]] == w.visits[..i + 1];
      }
      assert w.visits[..|w.visits|] == w.visits;
      result.sections := Some(w.sections);
    }

    // The guard performed the core call's visit, refused it or not, and then, for a
    // core result, one visit of every section.
    ghost predicate GateTold(was: G.Guard, mode: Mode, w: Retrieval, refused: Option<Error>)
      reads gate
    {
      var id := |was.tickets|;
      var core := G.Run(gate.Setup(), was, CoreSteps(id, mode, w, refused.None?));
      && |core.tickets| == id + 1 && refused == RefusalOf(core.tickets[id])
      && gate.protocol
         == G.Run(gate.Setup(), core, U.VisitsSteps(gate.Setup(), core, mode, SectionVisits(w, refused)))
    }

    // Whatever became of the visits, none of them holds anything any more.
    lemma EveryReservationReturned(was: G.Guard, mode: Mode, w: Retrieval, refused: Option<Error>)
      requires GateTold(was, mode, w, refused)
      ensures U.SettledFrom(was, gate.protocol, mode,
                            1 + if refused.None? && w.fetchError.None? && w.urn then |w.visits| else 0)
    {
      var c, id := gate.Setup(), |was.tickets|;
      var v := U.Visit(w.enterAt, w.allow, w.fetchError, w.doneAt);
      var core := G.Run(c, was, CoreSteps(id, mode, w, refused.None?));
      AdmittedUnlessRefused(c, was, mode, w, refused);
      U.VisitSettles(c, was, mode, v);
      U.VisitsSettle(c, core, mode, SectionVisits(w, refused));
      hide G.Run, U.Settled;
    }

    // The guard's breakers hear what the core call ended with.
    lemma FailureIsHeard(was: G.Guard, mode: Mode, w: Retrieval, refused: Option<Error>)
      requires GateTold(was, mode, w, refused) && refused.None? && w.fetchError.Some?
      ensures gate.protocol.br == B.AfterRecord(gate.Setup().breaker, B.AfterBlocked(was.br, w.enterAt, mode),
                                                w.fetchError, w.doneAt, mode)
    {
      hide B.AfterRecord, B.AfterBlocked;
      var c, id := gate.Setup(), |was.tickets|;
      var enter := [G.Enter(mode, w.enterAt), G.Limit(id, w.allow), G.Acquire(id)];
      AdmittedUnlessRefused(c, was, mode, w, refused);
      U.EnterOutcome(c, was, mode, w.enterAt, w.allow);
      G.RunConcat(c, was, enter, [G.Release(id, w.fetchError), G.Record(id, w.doneAt)]);
      U.RunTwo(c, G.Run(c, was, enter), G.Release(id, w.fetchError), G.Record(id, w.doneAt));
      U.NoVisits(c, gate.protocol, mode);
      assert enter + [] == enter;
      hide G.Run;
    }

    lemma AdmittedUnlessRefused(c: G.Setup, was: G.Guard, mode: Mode, w: Retrieval, refused: Option<Error>)
      requires var core := G.Run(c, was, CoreSteps(|was.tickets|, mode, w, refused.None?));
               |core.tickets| == |was.tickets| + 1 && refused == RefusalOf(core.tickets[|was.tickets|])
      ensures U.VisitSteps(c, was, mode, U.Visit(w.enterAt, w.allow, w.fetchError, w.doneAt))
           == CoreSteps(|was.tickets|, mode, w, refused.None?)
    {
      var id := |was.tickets|;
      var enter := [G.Enter(mode, w.enterAt), G.Limit(id, w.allow), G.Acquire(id)];
      U.EnterAppends(c, was, mode, w.enterAt, w.allow);
      assert enter + [] == enter;
      G.RunConcat(c, was, enter, [G.Release(id, w.fetchError), G.Record(id, w.doneAt)]);
      U.RunTwo(c, G.Run(c, was, enter), G.Release(id, w.fetchError), G.Record(id, w.doneAt));
      hide G.Run;
    }

    // The core call and, when it succeeds, the enrichment of what it returned.
    method FetchAndEnrich(mode: Mode, ref: Ref, w: Retrieval)
      returns (result: ProfileResult?, refused: Option<Error>, err: Option<Error>)
      requires gate.Valid()
      modifies gate, gate.breaker, gate.breaker.general, gate.breaker.session
      ensures gate.Valid() && GateTold(old(gate.protocol), mode, w, refused)
      ensures err == (if refused.Some? then None else w.fetchError)
      ensures result != null <==> refused.None? && err.None?
      ensures result != null ==>
                && fresh(result) && result.publicID == ref.publicID && result.url == ref.canonicalURL
                && !result.cached && result.sections == (if w.urn then Some(w.sections) else None)
    {
      hide G.Run, U.Gate.Valid, U.VisitsSteps;
      result, refused, err := FetchThroughGate(mode, ref, w);
      U.NoVisits(gate.Setup(), gate.protocol, mode);
      if result != null {
        EnrichResult(mode, result, w);
      }
    }

    // A missing profile is remembered. A mark that stood is forgotten only to make
    // room, and then exactly one is.
    method NoteFailure(key: string, err: Error, evict: int, store: int) returns (ghost forgotten: set<string>)
      requires negative.Valid() && negative.clock <= evict <= store && key !in negative.entries
      modifies negative
      ensures negative.Valid()
      ensures Remembered(old(negative.history), old(negative.entries), old(negative.dropped), key,
                         P.Is(err, ProfileNotFound), evict, store, forgotten)
    {
      hide M.Tracker.Valid, M.Unlapsed;
      forgotten := {};
      if P.Is(err, ProfileNotFound) {
        forgotten := negative.Remember(key, evict, store);
      }
    }

    // What the outcome of a fetch does to the caches.
    method FillCaches(ref: Ref, result: ProfileResult?, w: Retrieval, evict: int, store: int)
      returns (ghost forgotten: set<string>)
      requires cache.Valid() && negative.Valid() && AllRight(cache.sets)
      requires ref.publicID != "" && ref.canonicalURL == CANONICAL_PREFIX + ref.publicID
      requires cache.clock <= evict <= store && negative.clock <= evict
      requires ref.publicID !in negative.entries && ref.publicID !in cache.entries
      requires result != null <==> w.fetchError.None?
      requires result != null ==> Shown(result, SERVER) == Enriched(ref, SERVER, FetchOf(w, None))
      requires forall s :: s in cache.sets ==> s.result != result
      requires forall k :: k in cache.entries ==> cache.entries[k].result != result
      modifies cache, negative
      ensures cache.Valid() && negative.Valid() && AllRight(cache.sets)
      ensures cache.sets == old(cache.sets) + (if result != null then [W.Stamp(ref.publicID, result, store)] else [])
      ensures Moves(ref, Unknown, FetchOf(w, None), old(ViewOf(cache.entries)), old(negative.entries.Keys),
                    ViewOf(cache.entries), negative.entries.Keys)
      ensures Remembered(old(negative.history), old(negative.entries), old(negative.dropped), ref.publicID,
                         FoundMissing(FetchOf(w, None)), evict, store, forgotten)
    {
      hide M.Tracker.Valid, C.Cache.Valid, M.Unlapsed, P.Is;
      forgotten := {};
      if w.fetchError.Some? {
        forgotten := NoteFailure(ref.publicID, w.fetchError.value, evict, store);
      } else {
        cache.Set(ref.publicID, result, evict, store);
      }
    }

    // One guarded retrieval for a cache miss; it fills the caches on the way out.
    method Retrieve(ref: Ref, w: Retrieval, evict: int, store: int)
      returns (result: ProfileResult?, err: Option<Error>, ghost refused: Option<Error>, ghost forgotten: set<string>)
      requires Objects() && ref.publicID != "" && ref.canonicalURL == CANONICAL_PREFIX + ref.publicID
      requires cache.clock <= evict <= store && negative.clock <= evict
      requires ref.publicID !in negative.entries && ref.publicID !in cache.entries
      modifies cache, negative, gate, gate.breaker, gate.breaker.general, gate.breaker.session
      ensures Objects()
      ensures GateTold(old(gate.protocol), Server, w, refused)
      ensures err == (if refused.Some? then refused else w.fetchError) && (result != null <==> err.None?)
      ensures result != null ==> fresh(result) && Shown(result, SERVER) == Enriched(ref, SERVER, FetchOf(w, refused))
      ensures cache.sets == old(cache.sets) + (if result != null then [W.Stamp(ref.publicID, result, store)] else [])
      ensures Moves(ref, Unknown, FetchOf(w, refused), old(ViewOf(cache.entries)), old(negative.entries.Keys),
                    ViewOf(cache.entries), negative.entries.Keys)
      ensures Remembered(old(negative.history), old(negative.entries), old(negative.dropped), ref.publicID,
                         FoundMissing(FetchOf(w, refused)), evict, store, forgotten)
    {
      hide M.Tracker.Valid, C.Cache.Valid, U.Gate.Valid, M.Unlapsed, P.Is, GateTold;
      var denied;
      result, denied, err := FetchAndEnrich(Server, ref, w);
      refused := denied;
      if denied.Some? {
        return null, denied, denied, {};
      }
      forgotten := FillCaches(ref, result, w, evict, store);
    }

    // What the cache holds for a key, and whether it is remembered as missing, when
    // the call looks.
    ghost function Held(key: string, r: Readings): Option<ProfileResult>
      requires cache.maxEntries >= 1
      reads cache
    {
      W.WindowGet(cache.recency, cache.ttl, cache.maxEntries, key, r.lookup)
    }

    ghost predicate Missing(key: string, r: Readings)
      reads negative
    {
      key !in negative.dropped && exists t :: M.MarkedAt(negative.history, key, t) && r.check <= t + negative.ttl
    }

    ghost function SeenAt(key: string, r: Readings): Seen
      requires cache.maxEntries >= 1
      reads cache, negative
    {
      if Held(key, r).Some? then Hit else if Missing(key, r) then KnownMissing else Unknown
    }

    // The protocol takes the steps of one call.
    ghost method Perform(steps: seq<P.Step>, end: P.State)
      requires Tracing() && P.Run(Ttl(), protocol, steps) == end
      modifies this`trace, this`protocol, this`nextId
      ensures Tracing() && protocol == end
      ensures trace == old(trace) + steps && nextId == old(nextId) + 1
    {
      hide P.Run, P.Inv;
      RunConcat(Ttl(), P.START, trace, steps);
      P.InvRun(Ttl(), protocol, steps);
      trace, protocol, nextId := trace + steps, end, nextId + 1;
    }

    // Once the objects have moved as a server call moves them, the protocol
    // follows.
    ghost method SettleServer(ref: Ref, seen: Seen, f: Fetch, view: map<string, P.Result>, missing: set<string>)
      requires Tracing() && protocol.health.history == health.tracker.history
      requires CoupledTo(Ttl(), view, missing, health.tracker.entries, nextId, protocol)
      requires ref.canonicalURL == CANONICAL_PREFIX + ref.publicID
      requires (seen == Hit ==> ref.publicID in view) && (seen == KnownMissing ==> ref.publicID in missing)
      requires Moves(ref, seen, f, view, missing, ViewOf(cache.entries), negative.entries.Keys)
      modifies this`trace, this`protocol, this`nextId
      ensures Coupled() && nextId == old(nextId) + 1
      ensures trace == old(trace) + ServerSteps(old(nextId), ref, seen, f)
      ensures old(nextId) in protocol.requests
      ensures protocol.requests[old(nextId)].phase
           == P.Returned(ServerOutcome(old(protocol), old(nextId), ref, seen, f))
      ensures ServerOutcome(old(protocol), old(nextId), ref, seen, f).Got? ==>
                && old(nextId) in protocol.heap
                && protocol.heap[old(nextId)]
                   == if seen == Hit then view[ref.publicID].(cached := true) else Enriched(ref, SERVER, f)
    {
      hide P.Run, P.Inv, ServerEnd, Moves, ServerSteps;
      ghost var id, s, now := nextId, protocol, ViewOf(cache.entries);
      ServerRuns(Ttl(), s, id, ref, seen, f);
      ServerAnswers(s, id, ref, seen, f);
      ServerKeepsCoupled(Ttl(), s, id, ref, seen, f, health.tracker.entries, view, missing,
                         ViewOf(cache.entries), negative.entries.Keys);
      ServerKeepsHistory(s, id, ref, seen, f);
      Perform(ServerSteps(id, ref, seen, f), ServerEnd(s, id, ref, seen, f));
      assert ViewOf(cache.entries) == now;
    }

    // The call's request, as the protocol has it, was answered with this.
    ghost predicate Answered(id: nat, origin: P.Cred, result: ProfileResult?, err: Option<Error>)
      reads this`protocol, result
    {
      && id in protocol.requests
      && (result != null <==> err.None?)
      && protocol.requests[id].phase == P.Returned(if err.None? then P.Got(id) else P.Failed(err.value))
      && (result != null ==> id in protocol.heap && protocol.heap[id] == Shown(result, origin))
    }

    // The protocol is where it was before the lookups, and the objects hold no more
    // than they did then.
    ghost predicate Pending(view: map<string, P.Result>, missing: set<string>)
      reads this, cache, negative, health.tracker
      reads set k | k in cache.entries :: cache.entries[k].result
    {
      && Tracing() && protocol.health.history == health.tracker.history
      && CoupledTo(Ttl(), view, missing, health.tracker.entries, nextId, protocol)
      && (forall k :: k in cache.entries ==> k in view && ViewOf(cache.entries)[k] == view[k])
      && negative.entries.Keys <= missing
    }

    // The two lookups of a server call. What they drop has lapsed.
    method Look(ref: Ref, r: Readings) returns (stored: Option<ProfileResult>, known: bool, ghost seen: Seen)
      requires Valid() && r.InOrder() && cache.clock <= r.lookup && negative.clock <= r.check
      modifies cache, negative
      ensures Objects() && cache.clock <= r.drop && negative.clock <= r.check
      ensures Pending(old(ViewOf(cache.entries)), old(negative.entries.Keys))
      ensures cache.sets == old(cache.sets)
      ensures negative.history == old(negative.history) && negative.dropped == old(negative.dropped)
      ensures seen == old(SeenAt(ref.publicID, r)) && stored == old(Held(ref.publicID, r))
      ensures (stored.Some? <==> seen == Hit) && (known <==> seen == KnownMissing)
      ensures stored.Some? ==>
                && Identified(stored.value, ref.publicID)
                && ref.publicID in cache.entries && cache.entries[ref.publicID].result == stored.value
      ensures stored.None? ==>
                ref.publicID !in cache.entries && (known <==> ref.publicID in negative.entries)
                && (known ==> ref.publicID in old(negative.entries))
      ensures forall k :: k in negative.entries ==>
                k in old(negative.entries) && negative.entries[k] == old(negative.entries)[k]
      ensures M.Unlapsed(negative.entries, r.evict) == M.Unlapsed(old(negative.entries), r.evict)
    {
      hide M.Tracker.Valid, U.Gate.Valid, W.WindowGet, W.Tracks, W.IsRecency, M.MarkedAt, M.Unlapsed;
      hide P.Run, P.Inv, CoupledTo;
      var key := ref.publicID;
      known, seen := false, SeenAt(key, r);
      if Held(key, r).Some? {
        W.AnswerWasSet(cache.recency, cache.sets, cache.ttl, cache.maxEntries, key, r.lookup);
      }
      stored := cache.Get(key, r.lookup, r.drop);
      if stored.None? {
        known := AskNegative(key, r);
      }
    }

    method AskNegative(key: string, r: Readings) returns (known: bool)
      requires negative.Valid() && r.InOrder() && negative.clock <= r.check
      modifies negative
      ensures negative.Valid() && negative.clock <= r.check
      ensures negative.history == old(negative.history) && negative.dropped == old(negative.dropped)
      ensures known <==> old(Missing(key, r))
      ensures (known <==> key in negative.entries) && (known ==> key in old(negative.entries))
      ensures forall k :: k in negative.entries ==>
                k in old(negative.entries) && negative.entries[k] == old(negative.entries)[k]
      ensures M.Unlapsed(negative.entries, r.evict) == M.Unlapsed(old(negative.entries), r.evict)
    {
      hide M.Tracker.Valid, M.MarkedAt, M.Unlapsed;
      known := negative.Blocked(key, r.check);
      if !known {
        M.LapsedDoesNotCount(old(negative.entries), key, r.evict);
      }
    }

    method AnswerHit(ref: Ref, stored: ProfileResult, w: Retrieval,
                     ghost view: map<string, P.Result>, ghost missing: set<string>)
      returns (result: ProfileResult)
      requires Objects() && Pending(view, missing) && ref.canonicalURL == CANONICAL_PREFIX + ref.publicID
      requires ref.publicID in cache.entries && cache.entries[ref.publicID].result == stored
      modifies this`trace, this`protocol, this`nextId
      ensures Valid() && trace == old(trace) + ServerSteps(old(nextId), ref, Hit, FetchOf(w, None))
      ensures nextId == old(nextId) + 1 && Answered(old(nextId), SERVER, result, None)
      ensures fresh(result) && Shown(result, SERVER) == Shown(stored, SERVER).(cached := true)
    {
      hide CoupledTo, P.Run, P.Inv, ServerSteps, M.Tracker.Valid, C.Cache.Valid, U.Gate.Valid;
      result := new ProfileResult(stored.publicID, stored.url, true, stored.sections);
      SettleServer(ref, Hit, FetchOf(w, None), view, missing);
    }

    ghost method AnswerKnown(ref: Ref, w: Retrieval, view: map<string, P.Result>, missing: set<string>)
      requires Objects() && Pending(view, missing) && ref.canonicalURL == CANONICAL_PREFIX + ref.publicID
      requires ref.publicID in missing && ref.publicID !in cache.entries
      modifies this`trace, this`protocol, this`nextId
      ensures Valid() && trace == old(trace) + ServerSteps(old(nextId), ref, KnownMissing, FetchOf(w, None))
      ensures nextId == old(nextId) + 1 && Answered(old(nextId), SERVER, null, Some(P.NOT_FOUND))
    {
      hide CoupledTo, P.Run, P.Inv, ServerSteps, M.Tracker.Valid, C.Cache.Valid, U.Gate.Valid;
      SettleServer(ref, KnownMissing, FetchOf(w, None), view, missing);
    }

    method AnswerMiss(ref: Ref, r: Readings, w: Retrieval,
                      ghost view: map<string, P.Result>, ghost missing: set<string>)
      returns (result: ProfileResult?, err: Option<Error>, ghost refused: Option<Error>, ghost forgotten: set<string>)
      requires Objects() && Pending(view, missing)
      requires ref.publicID != "" && ref.canonicalURL == CANONICAL_PREFIX + ref.publicID
      requires r.InOrder() && cache.clock <= r.drop && negative.clock <= r.check
      requires ref.publicID !in cache.entries && ref.publicID !in negative.entries
      modifies this, cache, negative, gate, gate.breaker, gate.breaker.general, gate.breaker.session
      ensures Valid()
      ensures trace == old(trace) + ServerSteps(old(nextId), ref, Unknown, FetchOf(w, refused))
      ensures nextId == old(nextId) + 1 && Answered(old(nextId), SERVER, result, err)
      ensures GateTold(old(gate.protocol), Server, w, refused)
      ensures err == if refused.Some? then refused else w.fetchError
      ensures result != null ==> fresh(result) && Shown(result, SERVER) == Enriched(ref, SERVER, FetchOf(w, refused))
      ensures cache.sets == old(cache.sets) + (if result != null then [W.Stamp(ref.publicID, result, r.store)] else [])
      ensures Remembered(old(negative.history), old(negative.entries), old(negative.dropped), ref.publicID,
                         FoundMissing(FetchOf(w, refused)), r.evict, r.store, forgotten)
    {
      hide M.Tracker.Valid, C.Cache.Valid, U.Gate.Valid, M.Unlapsed, P.Is, Enriched;
      hide P.Run, P.Inv, ServerSteps, CoupledTo, Remembered, GateTold;
      ghost var view1, missing1 := ViewOf(cache.entries), negative.entries.Keys;
      result, err, refused, forgotten := Retrieve(ref, w, r.evict, r.store);
      MovesFrom(ref, FetchOf(w, refused), view, missing, view1, missing1, ViewOf(cache.entries), negative.entries.Keys);
      SettleServer(ref, Unknown, FetchOf(w, refused), view, missing);
    }

    // One call is one run of the protocol. A hit is a marked copy of what was last
    // stored under the key; a miss is answered with the very object that is then
    // stored. Either way the object returned is new and no result that existed
    // before is written.
    method GetServer(ref: Ref, r: Readings, w: Retrieval)
      returns (result: ProfileResult?, err: Option<Error>, ghost seen: Seen, ghost found: Option<ProfileResult>,
               ghost refused: Option<Error>, ghost forgotten: set<string>)
      requires Valid() && ref.publicID != "" && ref.canonicalURL == CANONICAL_PREFIX + ref.publicID
      requires r.InOrder() && cache.clock <= r.lookup && negative.clock <= r.check
      modifies this, cache, negative, gate, gate.breaker, gate.breaker.general, gate.breaker.session
      ensures Valid()
      ensures found == old(Held(ref.publicID, r)) && seen == old(SeenAt(ref.publicID, r))
      ensures trace == old(trace) + ServerSteps(old(nextId), ref, seen, FetchOf(w, refused))
      ensures nextId == old(nextId) + 1 && Answered(old(nextId), SERVER, result, err)
      ensures result != null ==> fresh(result) && result.publicID == ref.publicID && result.url == ref.canonicalURL
      ensures seen == Hit ==> err.None? && Shown(result, SERVER) == Shown(found.value, SERVER).(cached := true)
      ensures seen == Hit ==> result.cached && result.sections == found.value.sections
      ensures seen == KnownMissing ==> err == Some(Structured(ProfileNotFound, 0))
      ensures seen == Unknown ==> GateTold(old(gate.protocol), Server, w, refused)
      ensures seen == Unknown ==> err == if refused.Some? then refused else w.fetchError
      ensures seen == Unknown && result != null ==> Shown(result, SERVER) == Enriched(ref, SERVER, FetchOf(w, refused))
      ensures seen == Unknown && result != null ==>
                !result.cached && result.sections == if w.urn then Some(w.sections) else None
      ensures seen == Unknown && refused.None? && w.fetchError.Some? ==>
                gate.protocol.br == B.AfterRecord(gate.Setup().breaker,
                  B.AfterBlocked(old(gate.protocol).br, w.enterAt, Server), w.fetchError, w.doneAt, Server)
      ensures seen != Unknown ==> gate.protocol == old(gate.protocol)
      ensures cache.sets == old(cache.sets) +
                (if seen == Unknown && result != null then [W.Stamp(ref.publicID, result, r.store)] else [])
      ensures Remembered(old(negative.history), old(negative.entries), old(negative.dropped), ref.publicID,
                         seen == Unknown && refused.None? && w.fetchError.Some? && w.fetchError.value.Structured?
                         && w.fetchError.value.code == ProfileNotFound, r.evict, r.store, forgotten)
    {
      hide Objects, Coupled, Pending, GateTold, ServerSteps, M.Unlapsed, FoundMissing, B.AfterRecord, B.AfterBlocked;
      hide Remembered;
      refused, forgotten := None, {};
      ghost var view, missing := ViewOf(cache.entries), negative.entries.Keys;
      var stored, known;
      stored, known, seen := Look(ref, r);
      found := stored;
      if stored.Some? {
        result := AnswerHit(ref, stored.value, w, view, missing);
        err := None;
        NothingRemembered(old(negative.history), old(negative.entries), old(negative.dropped), ref.publicID, r);
      } else if known {
        AnswerKnown(ref, w, view, missing);
        result, err := null, Some(P.NOT_FOUND);
        NothingRemembered(old(negative.history), old(negative.entries), old(negative.dropped), ref.publicID, r);
      } else {
        ghost var looked := negative.entries;
        result, err, refused, forgotten := AnswerMiss(ref, r, w, view, missing);
        MissingIs(w, refused);
        RememberedFrom(old(negative.history), old(negative.entries), looked, old(negative.dropped), ref.publicID,
                       FoundMissing(FetchOf(w, refused)), r, forgotten);
        if refused.None? && w.fetchError.Some? {
          FailureIsHeard(old(gate.protocol), Server, w, refused);
        }
      }
    }

    lemma NothingRemembered(history: seq<M.Event>, entries: map<string, int>, dropped: set<string>, key: string,
                            r: Readings)
      requires negative.history == history && negative.dropped == dropped
      requires forall k :: k in negative.entries ==> k in entries && negative.entries[k] == entries[k]
      ensures Remembered(history, entries, dropped, key, false, r.evict, r.store, {})
    {
      hide M.Unlapsed;
    }

    // What the lookups dropped had lapsed.
    lemma RememberedFrom(history: seq<M.Event>, entries: map<string, int>, looked: map<string, int>,
                         dropped: set<string>, key: string, told: bool, r: Readings, forgotten: set<string>)
      requires Remembered(history, looked, dropped, key, told, r.evict, r.store, forgotten)
      requires M.Unlapsed(looked, r.evict) == M.Unlapsed(entries, r.evict)
      requires forall k :: k in looked ==> k in entries && looked[k] == entries[k]
      ensures Remembered(history, entries, dropped, key, told, r.evict, r.store, forgotten)
    {
      hide M.Unlapsed;
    }

    // Once the tracker has moved as a caller call moves it, the protocol follows.
    ghost method SettleCaller(ref: Ref, fp: string, now: int, later: int, rejected: bool, f: Fetch,
                              marks: map<string, int>)
      requires Objects() && Tracing() && ref.canonicalURL == CANONICAL_PREFIX + ref.publicID
      requires CoupledTo(Ttl(), ViewOf(cache.entries), negative.entries.Keys, marks, nextId, protocol)
      requires rejected ==> HeldAgainst(Ttl(), protocol.health, fp, now)
      requires MarksMove(Ttl(), fp, rejected, Report(f, later), marks, health.tracker.entries)
      requires health.tracker.history
            == protocol.health.history + Events(fp, if rejected then P.NoMark else Report(f, later))
      modifies this`trace, this`protocol, this`nextId
      ensures Valid() && nextId == old(nextId) + 1
      ensures trace == old(trace) + CallerSteps(old(nextId), ref, fp, now, later, rejected, f)
      ensures old(nextId) in protocol.requests
      ensures protocol.requests[old(nextId)].phase == P.Returned(CallerOutcome(old(nextId), rejected, f))
      ensures CallerOutcome(old(nextId), rejected, f).Got? ==>
                && old(nextId) in protocol.heap
                && protocol.heap[old(nextId)] == Enriched(ref, P.CallerSession(fp), f)
    {
      hide P.Run, P.Inv, CallerEnd, CallerSteps, MarksMove, Report, Events;
      hide C.Cache.Valid, M.Tracker.Valid, U.Gate.Valid;
      ghost var id, s, view := nextId, protocol, ViewOf(cache.entries);
      CallerRuns(Ttl(), s, id, ref, fp, now, later, rejected, f);
      CallerAnswers(s, id, ref, fp, later, rejected, f);
      NoEmptyMark(s);
      assert "" !in marks;
      CallerKeepsCoupled(Ttl(), s, id, ref, fp, later, rejected, f, view, negative.entries.Keys, marks,
                         health.tracker.entries);
      CallerTells(s, id, ref, fp, later, rejected, f);
      Perform(CallerSteps(id, ref, fp, now, later, rejected, f), CallerEnd(s, id, ref, fp, later, rejected, f));
      assert ViewOf(cache.entries) == view;
    }

    // The tracker was told of a rejection, of a success, or of nothing. A rejection
    // that stood is forgotten only to make room, and then exactly one is.
    ghost predicate HealthTold(history: seq<M.Event>, entries: map<string, int>, dropped: set<string>, fp: string,
                               op: P.MarkOp, evict: int, forgotten: set<string>)
      reads health.tracker
    {
      var marked, cleared := op.MarkAt? && fp != "", op.Clear? && fp != "";
      && health.tracker.history == history + Events(fp, op)
      && health.tracker.dropped == (if marked then dropped + forgotten - {fp}
                                    else if cleared then dropped - {fp} else dropped)
      && forgotten <= M.Unlapsed(entries, evict).Keys
      && |forgotten| == (if marked && |M.Unlapsed(entries, evict)| >= health.tracker.max then 1 else 0)
    }

    lemma HealthToldFrom(history: seq<M.Event>, asked: map<string, int>, marks: map<string, int>, dropped: set<string>,
                         fp: string, op: P.MarkOp, evict: int, forgotten: set<string>)
      requires HealthTold(history, asked, dropped, fp, op, evict, forgotten)
      requires M.Unlapsed(asked, evict) == M.Unlapsed(marks, evict)
      ensures HealthTold(history, marks, dropped, fp, op, evict, forgotten)
      ensures health.tracker.history == history + Events(fp, op)
    {
    }

    // What the outcome of a caller's fetch tells the tracker.
    method ReportHealth(fp: string, evict: int, later: int, w: Retrieval) returns (ghost forgotten: set<string>)
      requires health.tracker.Valid() && health.tracker.clock <= evict <= later
      requires fp != "" ==> fp !in health.tracker.entries
      modifies health.tracker
      ensures health.tracker.Valid()
      ensures HealthTold(old(health.tracker.history), old(health.tracker.entries), old(health.tracker.dropped), fp,
                         Report(FetchOf(w, None), later), evict, forgotten)
      ensures MarksMove(Ttl(), fp, false, Report(FetchOf(w, None), later), old(health.tracker.entries),
                        health.tracker.entries)
    {
      hide M.Tracker.Valid, M.Unlapsed;
      forgotten := {};
      if w.fetchError.None? {
        health.Clear(fp);
      } else if P.Is(w.fetchError.value, UpstreamAuthFailed) {
        forgotten := health.MarkUnhealthy(fp, evict, later);
      }
    }

    // The tracker holds this fingerprint's rejection, and it has not lapsed.
    ghost predicate Rejected(fp: string, now: int)
      reads health.tracker
    {
      Standing(health.tracker.history, health.tracker.dropped, Ttl(), fp, now)
    }

    // What the next call of any caller sees, after a call has told the tracker its
    // outcome: a refused session is held against its fingerprint until the TTL has
    // passed, a successful one is not, and nobody else's standing changes but for
    // the one given up for want of room.
    lemma NextCallSees(history: seq<M.Event>, entries: map<string, int>, dropped: set<string>, fp: string,
                       op: P.MarkOp, evict: int, forgotten: set<string>, other: string, at: int)
      requires HealthTold(history, entries, dropped, fp, op, evict, forgotten)
      ensures Rejected(other, at) <==>
                if other != fp || fp == "" || op.NoMark?
                then Standing(history, dropped, Ttl(), other, at) && (op.MarkAt? && fp != "" ==> other !in forgotten)
                else op.MarkAt? && at <= op.now + Ttl()
    {
      hide M.Unlapsed, Standing;
      var now := health.tracker.dropped;
      if fp != "" && !op.NoMark? {
        var e := if op.MarkAt? then M.Marked(fp, op.now) else M.Removed(fp);
        assert health.tracker.history == history + [e];
        StandingAfter(history, dropped, now, Ttl(), e, if op.MarkAt? then forgotten else {}, other, at);
      } else {
        assert health.tracker.history == history && now == dropped;
      }
    }

    // The first thing a caller call does.
    method AskHealth(fp: string, now: int) returns (rejected: bool)
      requires Valid() && health.tracker.clock <= now
      modifies health.tracker
      ensures Objects() && health.tracker.clock <= now
      ensures rejected <==> old(Rejected(fp, now))
      ensures Tracing() && protocol.health.history == health.tracker.history
      ensures CoupledTo(Ttl(), ViewOf(cache.entries), negative.entries.Keys, old(health.tracker.entries), nextId,
                        protocol)
      ensures rejected ==> HeldAgainst(Ttl(), protocol.health, fp, now)
      ensures if rejected then health.tracker.entries == old(health.tracker.entries)
              else health.tracker.entries == old(health.tracker.entries) - (if fp != "" then {fp} else {})
      ensures !rejected ==> forall at :: at >= now ==>
                M.Unlapsed(health.tracker.entries, at) == M.Unlapsed(old(health.tracker.entries), at)
      ensures health.tracker.history == old(health.tracker.history)
      ensures health.tracker.dropped == old(health.tracker.dropped)
    {
      hide M.Tracker.Valid, C.Cache.Valid, U.Gate.Valid, M.MarkedAt, M.Unlapsed, P.Run, P.Inv;
      ghost var view := ViewOf(cache.entries);
      rejected := health.Unhealthy(fp, now);
      assert ViewOf(cache.entries) == view;
      if !rejected && fp != "" {
        forall at | at >= now
          ensures M.Unlapsed(health.tracker.entries, at) == M.Unlapsed(old(health.tracker.entries), at)
        {
          M.LapsedDoesNotCount(old(health.tracker.entries), fp, at);
        }
      }
    }

    // The call of a caller the tracker holds nothing against.
    method CallThrough(ref: Ref, fp: string, evict: int, later: int, w: Retrieval)
      returns (result: ProfileResult?, err: Option<Error>, ghost refused: Option<Error>, ghost forgotten: set<string>)
      requires Objects() && ref.canonicalURL == CANONICAL_PREFIX + ref.publicID
      requires health.tracker.clock <= evict <= later && (fp != "" ==> fp !in health.tracker.entries)
      modifies health.tracker, gate, gate.breaker, gate.breaker.general, gate.breaker.session
      ensures Objects() && GateTold(old(gate.protocol), Caller, w, refused)
      ensures negative.entries == old(negative.entries) && cache.sets == old(cache.sets)
      ensures HealthTold(old(health.tracker.history), old(health.tracker.entries), old(health.tracker.dropped), fp,
                         Report(FetchOf(w, refused), later), evict, forgotten)
      ensures MarksMove(Ttl(), fp, false, Report(FetchOf(w, refused), later), old(health.tracker.entries),
                        health.tracker.entries)
      ensures result != null <==> err.None?
      ensures err == if refused.Some? then refused
                     else if w.fetchError.Some? then Some(Blamed(w.fetchError.value)) else None
      ensures result != null ==>
                && fresh(result)
                && Shown(result, P.CallerSession(fp)) == Enriched(ref, P.CallerSession(fp), FetchOf(w, refused))
    {
      hide M.Tracker.Valid, C.Cache.Valid, U.Gate.Valid, M.Unlapsed, P.Is, GateTold;
      var denied;
      result, denied, err := FetchAndEnrich(Caller, ref, w);
      refused := denied;
      if denied.Some? {
        return null, denied, denied, {};
      }
      forgotten := ReportHealth(fp, evict, later, w);
      if err.Some? {
        err := Some(Blamed(err.value));
      }
    }

    // A call that was not failed fast, from there on.
    method FinishCall(ref: Ref, fp: string, now: int, evict: int, later: int, w: Retrieval,
                      ghost marks: map<string, int>)
      returns (result: ProfileResult?, err: Option<Error>, ghost refused: Option<Error>, ghost forgotten: set<string>)
      requires Objects() && Tracing() && ref.canonicalURL == CANONICAL_PREFIX + ref.publicID
      requires CoupledTo(Ttl(), ViewOf(cache.entries), negative.entries.Keys, marks, nextId, protocol)
      requires protocol.health.history == health.tracker.history
      requires health.tracker.clock <= evict <= later
      requires health.tracker.entries == marks - (if fp != "" then {fp} else {})
      requires M.Unlapsed(health.tracker.entries, evict) == M.Unlapsed(marks, evict)
      modifies this, health.tracker, gate, gate.breaker, gate.breaker.general, gate.breaker.session
      ensures Valid() && nextId == old(nextId) + 1
      ensures trace == old(trace) + CallerSteps(old(nextId), ref, fp, now, later, false, FetchOf(w, refused))
      ensures Answered(old(nextId), P.CallerSession(fp), result, err)
      ensures GateTold(old(gate.protocol), Caller, w, refused)
      ensures err == if refused.Some? then refused
                     else if w.fetchError.Some? then Some(Blamed(w.fetchError.value)) else None
      ensures result != null ==>
                && fresh(result)
                && Shown(result, P.CallerSession(fp)) == Enriched(ref, P.CallerSession(fp), FetchOf(w, refused))
      ensures HealthTold(old(health.tracker.history), marks, old(health.tracker.dropped), fp,
                         Report(FetchOf(w, refused), later), evict, forgotten)
    {
      hide Objects, GateTold, CallerSteps, M.Unlapsed, CoupledTo, P.Run, P.Inv, Enriched, HeldAgainst, Blamed;
      hide MarksMove, Report, Events, HealthTold;
      ghost var asked, view := health.tracker.entries, ViewOf(cache.entries);
      result, err, refused, forgotten := CallThrough(ref, fp, evict, later, w);
      assert ViewOf(cache.entries) == view;
      HealthToldFrom(old(health.tracker.history), asked, marks, old(health.tracker.dropped), fp,
                     Report(FetchOf(w, refused), later), evict, forgotten);
      MarksMoveFrom(Ttl(), fp, Report(FetchOf(w, refused), later), marks, asked, health.tracker.entries);
      SettleCaller(ref, fp, now, later, false, FetchOf(w, refused), marks);
    }

    // A call that was.
    ghost method FailFast(ref: Ref, fp: string, now: int, evict: int, later: int, w: Retrieval)
      requires Objects() && Coupled() && ref.canonicalURL == CANONICAL_PREFIX + ref.publicID
      requires HeldAgainst(Ttl(), protocol.health, fp, now)
      modifies this`trace, this`protocol, this`nextId
      ensures Valid() && nextId == old(nextId) + 1
      ensures trace == old(trace) + CallerSteps(old(nextId), ref, fp, now, later, true, FetchOf(w, None))
      ensures old(nextId) in protocol.requests
      ensures protocol.requests[old(nextId)].phase == P.Returned(P.FastFailed)
      ensures HealthTold(health.tracker.history, health.tracker.entries, health.tracker.dropped, fp, P.NoMark, evict,
                         {})
    {
      hide Objects, CallerSteps, M.Unlapsed, CoupledTo, P.Run, P.Inv, HeldAgainst, MarksMove, Report;
      NothingMoves(Ttl(), fp, Report(FetchOf(w, None), later), health.tracker.entries);
      SettleCaller(ref, fp, now, later, true, FetchOf(w, None), health.tracker.entries);
    }

    // One call is one run of the protocol. A caller neither reads nor writes the
    // shared caches, and is failed fast without a reservation exactly when the
    // tracker holds its rejection.
    method GetCaller(ref: Ref, fp: string, now: int, evict: int, later: int, w: Retrieval)
      returns (result: ProfileResult?, err: Option<Error>, fastFailed: bool,
               ghost refused: Option<Error>, ghost forgotten: set<string>)
      requires Valid() && ref.canonicalURL == CANONICAL_PREFIX + ref.publicID
      requires health.tracker.clock <= now <= evict <= later
      modifies this, health.tracker, gate, gate.breaker, gate.breaker.general, gate.breaker.session
      ensures Valid()
      ensures fastFailed <==> old(Rejected(fp, now))
      ensures trace == old(trace) + CallerSteps(old(nextId), ref, fp, now, later, fastFailed, FetchOf(w, refused))
      ensures nextId == old(nextId) + 1 && old(nextId) in protocol.requests
      ensures fastFailed ==>
                && result == null && err == Some(Structured(CallerSessionInvalid, 0))
                && gate.protocol == old(gate.protocol)
                && protocol.requests[old(nextId)].phase == P.Returned(P.FastFailed)
      ensures !fastFailed ==>
                && Answered(old(nextId), P.CallerSession(fp), result, err)
                && GateTold(old(gate.protocol), Caller, w, refused)
      ensures !fastFailed ==>
                err == if refused.Some? then refused
                       else if w.fetchError.Some? && w.fetchError.value.Structured?
                               && w.fetchError.value.code == UpstreamAuthFailed
                       then Some(Structured(CallerSessionInvalid, 0))
                       else w.fetchError
      ensures !fastFailed && refused.None? && w.fetchError.Some? ==>
                gate.protocol.br == B.AfterRecord(gate.Setup().breaker,
                  B.AfterBlocked(old(gate.protocol).br, w.enterAt, Caller), w.fetchError, w.doneAt, Caller)
      ensures result != null ==>
                && result.publicID == ref.publicID && result.url == ref.canonicalURL && !result.cached
                && result.sections == if w.urn then Some(w.sections) else None
      ensures result != null ==>
                && fresh(result)
                && Shown(result, P.CallerSession(fp)) == Enriched(ref, P.CallerSession(fp), FetchOf(w, refused))
      ensures HealthTold(old(health.tracker.history), old(health.tracker.entries), old(health.tracker.dropped), fp,
                         if fastFailed then P.NoMark else Report(FetchOf(w, refused), later), evict, forgotten)
      ensures health.tracker.history == old(health.tracker.history) +
                if fastFailed || fp == "" || refused.Some? then []
                else if w.fetchError.None? then [M.Removed(fp)]
                else if w.fetchError.value.Structured? && w.fetchError.value.code == UpstreamAuthFailed
                then [M.Marked(fp, later)]
                else []
    {
      hide Objects, GateTold, CallerSteps, M.Unlapsed, CoupledTo, P.Run, P.Inv, Rejected, HeldAgainst;
      hide B.AfterRecord, B.AfterBlocked;
      hide Report, Events, HealthTold;
      refused, forgotten := None, {};
      ghost var marks, view := health.tracker.entries, ViewOf(cache.entries);
      fastFailed := AskHealth(fp, now);
      assert ViewOf(cache.entries) == view;
      if fastFailed {
        FailFast(ref, fp, now, evict, later, w);
        return null, Some(P.SESSION_INVALID), true, None, {};
      }
      result, err, refused, forgotten := FinishCall(ref, fp, now, evict, later, w, marks);
      HeardIs(w, refused, fp, later);
      HealthToldFrom(old(health.tracker.history), marks, marks, old(health.tracker.dropped), fp,
                     Report(FetchOf(w, refused), later), evict, forgotten);
      if refused.None? && w.fetchError.Some? {
        FailureIsHeard(old(gate.protocol), Caller, w, refused);
      }
    }

    // The negative cache was told of a missing profile, or of nothing.
    ghost predicate Remembered(history: seq<M.Event>, entries: map<string, int>, dropped: set<string>, key: string,
                               told: bool, evict: int, at: int, forgotten: set<string>)
      reads negative
    {
      && negative.history == history + (if told then [M.Marked(key, at)] else [])
      && negative.dropped == (if told then dropped + forgotten - {key} else dropped)
      && forgotten <= M.Unlapsed(entries, evict).Keys
      && |forgotten| == (if told && |M.Unlapsed(entries, evict)| >= negative.max then 1 else 0)
      && (forall k :: k in negative.entries && !(told && k == key) ==>
            k in entries && negative.entries[k] == entries[k])
    }
  }
}
