// internal/service/profile.go: the steps of the protocol one call of GetProfile
// takes when no other call interleaves, and where they lead.

module ServiceCalls {
  import opened Domain
  import opened ProfileUrl
  import opened ServiceProtocol
  import M = ExpiringMarks

  // What the gate and LinkedIn do to one retrieval.
  datatype Fetch = Fetch(refused: Option<Error>, error: Option<Error>, urn: bool, sections: int) {
    function Sections(): Option<int> { if urn then Some(sections) else None }
  }

  // What a server call finds: the profile in the cache, a mark in the negative
  // cache, or neither.
  datatype Seen = Hit | KnownMissing | Unknown

  function In(now: int, f: Fetch, more: bool): Input { Input(now, f.refused, f.error, f.sections, more) }

  // A state with one request, and its result if it has one, put into it.
  function With(s: State, id: nat, r: Request, res: Option<Result>): State {
    s.(requests := s.requests[id := r], heap := if res.Some? then s.heap[id := res.value] else s.heap)
  }

  // The shared tables after a step of the request.
  function Tables(s: State, id: nat, r: Request, e: Effect): State {
    var key := r.ref.publicID;
    s.(cache := if e.store then s.cache[key := id] else s.cache,
       negative := if e.missing then s.negative[key := id] else s.negative,
       flights := match e.flight
                  case Keep => s.flights case Take => s.flights[key := id] case Land => s.flights - {key},
       health := Tracked(s.health, r.cred, e.mark))
  }

  lemma AdvanceIs(ttl: int, s: State, id: nat, r: Request, res: Option<Result>, inp: Input)
    ensures var s1 := With(s, id, r, res);
            var e := EffectOf(ttl, s1, id, inp);
            Next(ttl, s1, Advance(id, inp))
              == With(Tables(s, id, r, e), id, Moved(r, e), if e.write.Some? then e.write else res)
  {
    hide EffectOf, Tracked;
    var s1 := With(s, id, r, res);
    var e := EffectOf(ttl, s1, id, inp);
    assert s1.requests[id := Moved(r, e)] == s.requests[id := Moved(r, e)];
    assert e.write.Some? ==> s1.heap[id := e.write.value] == s.heap[id := e.write.value];
  }

  lemma RunSnoc(ttl: int, s: State, steps: seq<Step>, st: Step)
    ensures Run(ttl, s, steps + [st]) == Next(ttl, Run(ttl, s, steps), st)
  {
    assert (steps + [st])[..|steps|] == steps;
  }

  lemma {:induction false} RunConcat(ttl: int, s: State, a: seq<Step>, b: seq<Step>)
    ensures Run(ttl, s, a + b) == Run(ttl, Run(ttl, s, a), b)
  {
    if b == [] {
      assert a + b == a;
    } else {
      assert (a + b)[..|a + b| - 1] == a + b[..|b| - 1];
      RunConcat(ttl, s, a, b[..|b| - 1]);
    }
  }

  // A run that has led from one state to another.
  ghost predicate Leads(ttl: int, s: State, steps: seq<Step>, s': State) { Run(ttl, s, steps) == s' }

  lemma Extend(ttl: int, s: State, steps: seq<Step>, s': State, st: Step)
    requires Leads(ttl, s, steps, s')
    ensures Leads(ttl, s, steps + [st], Next(ttl, s', st))
  {
    RunSnoc(ttl, s, steps, st);
  }

  lemma Join(ttl: int, s: State, a: seq<Step>, s': State, b: seq<Step>, s'': State)
    requires Leads(ttl, s, a, s') && Leads(ttl, s', b, s'')
    ensures Leads(ttl, s, a + b, s'')
  {
    RunConcat(ttl, s, a, b);
  }

  // ---------------------------------------------------------------------------
  // The retrieval, from the gate on

  function Repeat(id: nat, inp: Input, n: nat): seq<Step> {
    if n == 0 then [] else Repeat(id, inp, n - 1) + [Advance(id, inp)]
  }

  // Past the gate, the fetch, the release, and then either the failure or the
  // core result.
  function FetchSteps(id: nat, inp: Input): seq<Step> { Repeat(id, inp, 3) }

  // Where they leave the request.
  function FetchEnd(s: State, id: nat, ref: Ref, cred: Cred, f: Fetch): State {
    if f.error.Some? then
      With(if cred.ServerSession? && Is(f.error.value, ProfileNotFound)
           then s.(negative := s.negative[ref.publicID := id]) else s,
           id, Request(ref, cred, Failing(f.error.value), [Took, Gave(f.error)]), None)
    else
      With(s, id, Request(ref, cred, Enriching, [Took, Gave(None)]),
           Some(Result(ref.publicID, ref.canonicalURL, false, None, cred)))
  }

  lemma Repeats(id: nat, inp: Input)
    ensures Repeat(id, inp, 0) == [] && Repeat(id, inp, 1) == [Advance(id, inp)]
    ensures Repeat(id, inp, 2) == [Advance(id, inp)] + [Advance(id, inp)]
    ensures Repeat(id, inp, 3) == [Advance(id, inp)] + [Advance(id, inp)] + [Advance(id, inp)]
  {
    assert [] + [Advance(id, inp)] == [Advance(id, inp)];
  }

  lemma FetchRuns(ttl: int, s: State, id: nat, ref: Ref, cred: Cred, now: int, f: Fetch)
    requires f.refused.None?
    ensures var r := Request(ref, cred, if cred.ServerSession? then Leading else Healthy, []);
            Leads(ttl, With(s, id, r, None), FetchSteps(id, In(now, f, false)), FetchEnd(s, id, ref, cred, f))
  {
    hide Leads, Next, With, Tables, Tracked;
    var inp := In(now, f, false);
    var r0 := Request(ref, cred, if cred.ServerSession? then Leading else Healthy, []);
    var r1 := Request(ref, cred, Reserved, [Took]);
    var r2 := Request(ref, cred, Fetched(f.error), [Took]);
    Repeats(id, inp);
    StartsHere(ttl, With(s, id, r0, None));
    Extend(ttl, With(s, id, r0, None), [], With(s, id, r0, None), Advance(id, inp));
    PassesGate(ttl, s, id, ref, cred, inp);
    Extend(ttl, With(s, id, r0, None), [Advance(id, inp)], With(s, id, r1, None), Advance(id, inp));
    Fetches(ttl, s, id, ref, cred, inp);
    Extend(ttl, With(s, id, r0, None), [Advance(id, inp)] + [Advance(id, inp)], With(s, id, r2, None),
           Advance(id, inp));
    Releases(ttl, s, id, ref, cred, inp, f);
    assert [] + [Advance(id, inp)] == [Advance(id, inp)];
  }

  lemma StartsHere(ttl: int, s: State)
    ensures Leads(ttl, s, [], s)
  {
  }

  lemma NoTables(s: State, id: nat, r: Request, phase: Phase, gate: seq<GateEvent>, write: Option<Result>)
    ensures Tables(s, id, r, Just(phase).(gate := gate, write := write)) == s
  {
  }

  lemma PassesGate(ttl: int, s: State, id: nat, ref: Ref, cred: Cred, inp: Input)
    requires inp.refused.None?
    ensures var r := Request(ref, cred, if cred.ServerSession? then Leading else Healthy, []);
            Next(ttl, With(s, id, r, None), Advance(id, inp)) == With(s, id, Request(ref, cred, Reserved, [Took]), None)
  {
    var r := Request(ref, cred, if cred.ServerSession? then Leading else Healthy, []);
    AdvanceIs(ttl, s, id, r, None, inp);
    NoTables(s, id, r, Reserved, [Took], None);
    assert [] + [Took] == [Took];
    hide Next, Tables, Tracked;
  }

  lemma Fetches(ttl: int, s: State, id: nat, ref: Ref, cred: Cred, inp: Input)
    ensures Next(ttl, With(s, id, Request(ref, cred, Reserved, [Took]), None), Advance(id, inp))
         == With(s, id, Request(ref, cred, Fetched(inp.fetchError), [Took]), None)
  {
    var r := Request(ref, cred, Reserved, [Took]);
    AdvanceIs(ttl, s, id, r, None, inp);
    NoTables(s, id, r, Fetched(inp.fetchError), [], None);
    assert [Took] + [] == [Took];
    hide Next, Tables, Tracked;
  }

  lemma Releases(ttl: int, s: State, id: nat, ref: Ref, cred: Cred, inp: Input, f: Fetch)
    requires inp.fetchError == f.error
    ensures Next(ttl, With(s, id, Request(ref, cred, Fetched(f.error), [Took]), None), Advance(id, inp))
         == FetchEnd(s, id, ref, cred, f)
  {
    var r := Request(ref, cred, Fetched(f.error), [Took]);
    AdvanceIs(ttl, s, id, r, None, inp);
    assert [Took] + [Gave(f.error)] == [Took, Gave(f.error)];
    hide Next, Tracked;
    TrackedNothing(s.health, r.cred);
  }

  lemma TrackedNothing(h: Tracker, cred: Cred)
    ensures Tracked(h, cred, NoMark) == h
  {
  }

  // ---------------------------------------------------------------------------
  // Enrichment

  function EnrichSteps(id: nat, now: int, f: Fetch): seq<Step> {
    if f.urn then [Advance(id, In(now, f, true))] else []
  }

  function Core(ref: Ref, cred: Cred): Result { Result(ref.publicID, ref.canonicalURL, false, None, cred) }

  function Enriched(ref: Ref, cred: Cred, f: Fetch): Result { Core(ref, cred).(sections := f.Sections()) }

  lemma EnrichRuns(ttl: int, s: State, id: nat, ref: Ref, cred: Cred, now: int, f: Fetch)
    ensures var r := Request(ref, cred, Enriching, [Took, Gave(None)]);
            Leads(ttl, With(s, id, r, Some(Core(ref, cred))), EnrichSteps(id, now, f),
                  With(s, id, r, Some(Enriched(ref, cred, f))))
  {
    hide Next, Tables, Tracked;
    var r, inp := Request(ref, cred, Enriching, [Took, Gave(None)]), In(now, f, true);
    if f.urn {
      AdvanceIs(ttl, s, id, r, Some(Core(ref, cred)), inp);
      assert r.gate + [] == r.gate;
      NoTables(s, id, r, Enriching, [], Some(Enriched(ref, cred, f)));
      StartsHere(ttl, With(s, id, r, Some(Core(ref, cred))));
      Extend(ttl, With(s, id, r, Some(Core(ref, cred))), [], With(s, id, r, Some(Core(ref, cred))), Advance(id, inp));
      assert [] + [Advance(id, inp)] == [Advance(id, inp)];
    }
  }

  // One step, as a run.
  lemma Once(ttl: int, s: State, st: Step)
    ensures Leads(ttl, s, [st], Next(ttl, s, st))
  {
    Extend(ttl, s, [], s, st);
    assert [] + [st] == [st];
  }

  // ---------------------------------------------------------------------------
  // A server call

  const SERVER := ServerSession

  function RetrieveSteps(id: nat, f: Fetch): seq<Step> {
    var inp := In(0, f, false);
    if f.refused.Some? then [Advance(id, inp)]
    else if f.error.Some? then FetchSteps(id, inp) + [Advance(id, inp)]
    else FetchSteps(id, inp) + EnrichSteps(id, 0, f) + [Advance(id, inp)] + [Advance(id, inp)]
  }

  // Where a flight of this request leads, once landed.
  function RetrieveEnd(s: State, id: nat, ref: Ref, f: Fetch): State {
    var key := ref.publicID;
    var landed := s.(flights := s.flights - {key});
    if f.refused.Some? then
      With(landed, id, Request(ref, SERVER, Returned(Failed(f.refused.value)), []), None)
    else if f.error.Some? then
      With(if Is(f.error.value, ProfileNotFound) then landed.(negative := s.negative[key := id]) else landed,
           id, Request(ref, SERVER, Returned(Failed(f.error.value)), [Took, Gave(f.error)]), None)
    else
      With(landed.(cache := s.cache[key := id]), id, Request(ref, SERVER, Returned(Got(id)), [Took, Gave(None)]),
           Some(Enriched(ref, SERVER, f)))
  }

  lemma RefusedEnds(ttl: int, s: State, id: nat, ref: Ref, f: Fetch)
    requires f.refused.Some?
    ensures Next(ttl, With(s, id, Request(ref, SERVER, Leading, []), None), Advance(id, In(0, f, false)))
         == RetrieveEnd(s, id, ref, f)
  {
    var r := Request(ref, SERVER, Leading, []);
    AdvanceIs(ttl, s, id, r, None, In(0, f, false));
    TrackedNothing(s.health, r.cred);
    assert r.gate + [] == r.gate;
    hide Next, Tracked;
  }

  lemma FailureLands(ttl: int, s: State, id: nat, ref: Ref, f: Fetch)
    requires f.refused.None? && f.error.Some?
    ensures Next(ttl, FetchEnd(s, id, ref, SERVER, f), Advance(id, In(0, f, false))) == RetrieveEnd(s, id, ref, f)
  {
    hide With, Is, Next;
    var s1 := if Is(f.error.value, ProfileNotFound) then s.(negative := s.negative[ref.publicID := id]) else s;
    FailureReturns(ttl, s1, id, ref, f.error.value, In(0, f, false));
  }

  lemma FailureReturns(ttl: int, s: State, id: nat, ref: Ref, err: Error, inp: Input)
    ensures Next(ttl, With(s, id, Request(ref, SERVER, Failing(err), [Took, Gave(Some(err))]), None), Advance(id, inp))
         == With(s.(flights := s.flights - {ref.publicID}), id,
                 Request(ref, SERVER, Returned(Failed(err)), [Took, Gave(Some(err))]), None)
  {
    var r := Request(ref, SERVER, Failing(err), [Took, Gave(Some(err))]);
    AdvanceIs(ttl, s, id, r, None, inp);
    TrackedNothing(s.health, r.cred);
    assert r.gate + [] == r.gate;
    hide Next, Tracked;
  }

  lemma SuccessStores(ttl: int, s: State, id: nat, ref: Ref, f: Fetch)
    ensures Next(ttl, With(s, id, Request(ref, SERVER, Enriching, [Took, Gave(None)]), Some(Enriched(ref, SERVER, f))),
                 Advance(id, In(0, f, false)))
         == With(s.(cache := s.cache[ref.publicID := id]), id, Request(ref, SERVER, Stored, [Took, Gave(None)]),
                 Some(Enriched(ref, SERVER, f)))
  {
    var r := Request(ref, SERVER, Enriching, [Took, Gave(None)]);
    AdvanceIs(ttl, s, id, r, Some(Enriched(ref, SERVER, f)), In(0, f, false));
    TrackedNothing(s.health, r.cred);
    assert r.gate + [] == r.gate;
    hide Next, Tracked;
  }

  lemma SuccessLands(ttl: int, s: State, id: nat, ref: Ref, f: Fetch)
    requires f.refused.None? && f.error.None?
    ensures Next(ttl, With(s.(cache := s.cache[ref.publicID := id]), id,
                           Request(ref, SERVER, Stored, [Took, Gave(None)]), Some(Enriched(ref, SERVER, f))),
                 Advance(id, In(0, f, false)))
         == RetrieveEnd(s, id, ref, f)
  {
    var r := Request(ref, SERVER, Stored, [Took, Gave(None)]);
    var s1 := s.(cache := s.cache[ref.publicID := id]);
    AdvanceIs(ttl, s1, id, r, Some(Enriched(ref, SERVER, f)), In(0, f, false));
    TrackedNothing(s1.health, r.cred);
    assert r.gate + [] == r.gate;
    hide Next, Tracked;
  }

  lemma RetrieveRuns(ttl: int, s: State, id: nat, ref: Ref, f: Fetch)
    ensures Leads(ttl, With(s, id, Request(ref, SERVER, Leading, []), None), RetrieveSteps(id, f),
                  RetrieveEnd(s, id, ref, f))
  {
    hide Leads, Next, With, RetrieveEnd, FetchSteps, EnrichSteps;
    var inp, start := In(0, f, false), With(s, id, Request(ref, SERVER, Leading, []), None);
    if f.refused.Some? {
      Once(ttl, start, Advance(id, inp));
      RefusedEnds(ttl, s, id, ref, f);
    } else {
      FetchRuns(ttl, s, id, ref, SERVER, 0, f);
      if f.error.Some? {
        FailureLands(ttl, s, id, ref, f);
        Extend(ttl, start, FetchSteps(id, inp), FetchEnd(s, id, ref, SERVER, f), Advance(id, inp));
      } else {
        var r := Request(ref, SERVER, Enriching, [Took, Gave(None)]);
        EnrichRuns(ttl, s, id, ref, SERVER, 0, f);
        Join(ttl, start, FetchSteps(id, inp), With(s, id, r, Some(Core(ref, SERVER))), EnrichSteps(id, 0, f),
             With(s, id, r, Some(Enriched(ref, SERVER, f))));
        var steps := FetchSteps(id, inp) + EnrichSteps(id, 0, f);
        SuccessStores(ttl, s, id, ref, f);
        Extend(ttl, start, steps, With(s, id, r, Some(Enriched(ref, SERVER, f))), Advance(id, inp));
        SuccessLands(ttl, s, id, ref, f);
        Extend(ttl, start, steps + [Advance(id, inp)],
               With(s.(cache := s.cache[ref.publicID := id]), id, Request(ref, SERVER, Stored, [Took, Gave(None)]),
                    Some(Enriched(ref, SERVER, f))),
               Advance(id, inp));
      }
    }
  }

  // A whole call. What the caches no longer hold they have forgotten by now.
  function ServerSteps(id: nat, ref: Ref, seen: Seen, f: Fetch): seq<Step> {
    var inp, key := In(0, f, false), ref.publicID;
    match seen
    case Hit => [Begin(id, ref, SERVER)] + [Advance(id, inp)]
    case KnownMissing => [Begin(id, ref, SERVER)] + [CacheForgets(key)] + [Advance(id, inp)] + [Advance(id, inp)]
    case Unknown =>
      [Begin(id, ref, SERVER)] + [CacheForgets(key)] + [Advance(id, inp)] + [NegativeForgets(key)] + [Advance(id, inp)]
      + [Advance(id, inp)] + RetrieveSteps(id, f)
  }

  function ServerEnd(s: State, id: nat, ref: Ref, seen: Seen, f: Fetch): State
    requires seen == Hit ==> ref.publicID in s.cache && s.cache[ref.publicID] in s.heap
  {
    var key := ref.publicID;
    match seen
    case Hit =>
      With(s, id, Request(ref, SERVER, Returned(Got(id)), []), Some(s.heap[s.cache[key]].(cached := true)))
    case KnownMissing =>
      With(s.(cache := s.cache - {key}), id, Request(ref, SERVER, Returned(Failed(NOT_FOUND)), []), None)
    case Unknown =>
      RetrieveEnd(s.(cache := s.cache - {key}, negative := s.negative - {key}, flights := s.flights[key := id]),
                  id, ref, f)
  }

  lemma BeginIs(ttl: int, s: State, id: nat, ref: Ref, cred: Cred)
    requires id !in s.requests && ref.canonicalURL == CANONICAL_PREFIX + ref.publicID
    ensures Next(ttl, s, Begin(id, ref, cred)) == With(s, id, Request(ref, cred, Begun, []), None)
  {
  }

  lemma HitIs(ttl: int, s: State, id: nat, ref: Ref, f: Fetch)
    requires ref.publicID in s.cache && s.cache[ref.publicID] in s.heap
    ensures Next(ttl, With(s, id, Request(ref, SERVER, Begun, []), None), Advance(id, In(0, f, false)))
         == ServerEnd(s, id, ref, Hit, f)
  {
    var r := Request(ref, SERVER, Begun, []);
    assert r.gate + [] == r.gate;
    AdvanceIs(ttl, s, id, r, None, In(0, f, false));
    NoTables(s, id, r, Returned(Got(id)), [], Some(s.heap[s.cache[ref.publicID]].(cached := true)));
    hide Next, Tables, Tracked;
  }

  // A lookup that finds nothing, in either cache.
  lemma MissIs(ttl: int, s: State, id: nat, ref: Ref, f: Fetch)
    requires ref.publicID !in s.cache
    ensures Next(ttl, With(s, id, Request(ref, SERVER, Begun, []), None), Advance(id, In(0, f, false)))
         == With(s, id, Request(ref, SERVER, CacheMissed, []), None)
  {
    var r := Request(ref, SERVER, Begun, []);
    assert r.gate + [] == r.gate;
    AdvanceIs(ttl, s, id, r, None, In(0, f, false));
    NoTables(s, id, r, CacheMissed, [], None);
    hide Next, Tables, Tracked;
  }

  lemma CheckIs(ttl: int, s: State, id: nat, ref: Ref, f: Fetch)
    ensures Next(ttl, With(s, id, Request(ref, SERVER, CacheMissed, []), None), Advance(id, In(0, f, false)))
         == With(s, id, Request(ref, SERVER,
                                if ref.publicID in s.negative then Returned(Failed(NOT_FOUND)) else Missed, []),
                 None)
  {
    var r := Request(ref, SERVER, CacheMissed, []);
    assert r.gate + [] == r.gate;
    AdvanceIs(ttl, s, id, r, None, In(0, f, false));
    NoTables(s, id, r, if ref.publicID in s.negative then Returned(Failed(NOT_FOUND)) else Missed, [], None);
    hide Next, Tables, Tracked;
  }

  lemma TakeOffIs(ttl: int, s: State, id: nat, ref: Ref, f: Fetch)
    requires ref.publicID !in s.flights
    ensures Next(ttl, With(s, id, Request(ref, SERVER, Missed, []), None), Advance(id, In(0, f, false)))
         == With(s.(flights := s.flights[ref.publicID := id]), id, Request(ref, SERVER, Leading, []), None)
  {
    var r := Request(ref, SERVER, Missed, []);
    assert r.gate + [] == r.gate;
    AdvanceIs(ttl, s, id, r, None, In(0, f, false));
    TrackedNothing(s.health, r.cred);
    hide Next, Tracked;
  }

  // The call leads where it should.
  lemma ServerRuns(ttl: int, s: State, id: nat, ref: Ref, seen: Seen, f: Fetch)
    requires id !in s.requests && ref.canonicalURL == CANONICAL_PREFIX + ref.publicID && s.flights == map[]
    requires seen == Hit ==> ref.publicID in s.cache && s.cache[ref.publicID] in s.heap
    requires seen == KnownMissing ==> ref.publicID in s.negative
    ensures Run(ttl, s, ServerSteps(id, ref, seen, f)) == ServerEnd(s, id, ref, seen, f)
  {
    hide Run, Leads, RetrieveSteps, RetrieveEnd;
    var inp, key, begin := In(0, f, false), ref.publicID, [Begin(id, ref, SERVER)];
    LeadsIs(ttl, s, ServerSteps(id, ref, seen, f));
    Once(ttl, s, Begin(id, ref, SERVER));
    BeginIs(ttl, s, id, ref, SERVER);
    if seen == Hit {
      HitIs(ttl, s, id, ref, f);
      Extend(ttl, s, begin, With(s, id, Request(ref, SERVER, Begun, []), None), Advance(id, inp));
    } else {
      MissRuns(ttl, s, id, ref, f);
      var s1 := s.(cache := s.cache - {key});
      var missed := begin + [CacheForgets(key)] + [Advance(id, inp)];
      if seen == KnownMissing {
        CheckIs(ttl, s1, id, ref, f);
        Extend(ttl, s, missed, With(s1, id, Request(ref, SERVER, CacheMissed, []), None), Advance(id, inp));
      } else {
        TakeOffRuns(ttl, s, id, ref, f);
        var s2 := s1.(negative := s.negative - {key}, flights := s.flights[key := id]);
        RetrieveRuns(ttl, s2, id, ref, f);
        Join(ttl, s, missed + [NegativeForgets(key)] + [Advance(id, inp)] + [Advance(id, inp)],
             With(s2, id, Request(ref, SERVER, Leading, []), None), RetrieveSteps(id, f), RetrieveEnd(s2, id, ref, f));
      }
    }
  }

  lemma LeadsIs(ttl: int, s: State, steps: seq<Step>)
    ensures forall s' :: Leads(ttl, s, steps, s') <==> Run(ttl, s, steps) == s'
  {
  }

  lemma MissRuns(ttl: int, s: State, id: nat, ref: Ref, f: Fetch)
    requires id !in s.requests && ref.canonicalURL == CANONICAL_PREFIX + ref.publicID
    ensures Leads(ttl, s, [Begin(id, ref, SERVER)] + [CacheForgets(ref.publicID)] + [Advance(id, In(0, f, false))],
                  With(s.(cache := s.cache - {ref.publicID}), id, Request(ref, SERVER, CacheMissed, []), None))
  {
    hide Leads;
    var inp, key, begin := In(0, f, false), ref.publicID, [Begin(id, ref, SERVER)];
    Once(ttl, s, Begin(id, ref, SERVER));
    BeginIs(ttl, s, id, ref, SERVER);
    var s1 := s.(cache := s.cache - {key});
    Extend(ttl, s, begin, With(s, id, Request(ref, SERVER, Begun, []), None), CacheForgets(key));
    MissIs(ttl, s1, id, ref, f);
    Extend(ttl, s, begin + [CacheForgets(key)], With(s1, id, Request(ref, SERVER, Begun, []), None), Advance(id, inp));
  }

  lemma TakeOffRuns(ttl: int, s: State, id: nat, ref: Ref, f: Fetch)
    requires id !in s.requests && ref.canonicalURL == CANONICAL_PREFIX + ref.publicID && s.flights == map[]
    ensures var inp, key := In(0, f, false), ref.publicID;
            Leads(ttl, s, [Begin(id, ref, SERVER)] + [CacheForgets(key)] + [Advance(id, inp)] + [NegativeForgets(key)]
                          + [Advance(id, inp)] + [Advance(id, inp)],
                  With(s.(cache := s.cache - {key}, negative := s.negative - {key}, flights := s.flights[key := id]),
                       id, Request(ref, SERVER, Leading, []), None))
  {
    hide Leads;
    var inp, key := In(0, f, false), ref.publicID;
    var missed := [Begin(id, ref, SERVER)] + [CacheForgets(key)] + [Advance(id, inp)];
    MissRuns(ttl, s, id, ref, f);
    var s1 := s.(cache := s.cache - {key});
    var s2 := s1.(negative := s.negative - {key});
    Extend(ttl, s, missed, With(s1, id, Request(ref, SERVER, CacheMissed, []), None), NegativeForgets(key));
    CheckIs(ttl, s2, id, ref, f);
    Extend(ttl, s, missed + [NegativeForgets(key)], With(s2, id, Request(ref, SERVER, CacheMissed, []), None),
           Advance(id, inp));
    TakeOffIs(ttl, s2, id, ref, f);
    Extend(ttl, s, missed + [NegativeForgets(key)] + [Advance(id, inp)],
           With(s2, id, Request(ref, SERVER, Missed, []), None), Advance(id, inp));
  }

  // ---------------------------------------------------------------------------
  // A caller call: the tracker is read at one instant and told at another

  function CallSteps(id: nat, later: int, f: Fetch): seq<Step> {
    var inp := In(later, f, false);
    if f.refused.Some? then [Advance(id, inp)]
    else if f.error.Some? then FetchSteps(id, inp) + [Advance(id, inp)]
    else FetchSteps(id, inp) + EnrichSteps(id, later, f) + [Advance(id, inp)]
  }

  // What a caller is told of an error of its core call.
  function Blamed(e: Error): Error { if Is(e, UpstreamAuthFailed) then SESSION_INVALID else e }

  // What the tracker is told.
  function Report(f: Fetch, later: int): MarkOp {
    if f.refused.Some? then NoMark
    else if f.error.None? then Clear
    else if Is(f.error.value, UpstreamAuthFailed) then MarkAt(later)
    else NoMark
  }

  function CallEnd(s: State, id: nat, ref: Ref, fp: string, later: int, f: Fetch): State {
    var cred := CallerSession(fp);
    var told := s.(health := Tracked(s.health, cred, Report(f, later)));
    if f.refused.Some? then
      With(told, id, Request(ref, cred, Returned(Failed(f.refused.value)), []), None)
    else if f.error.Some? then
      With(told, id, Request(ref, cred, Returned(Failed(Blamed(f.error.value))), [Took, Gave(f.error)]), None)
    else
      With(told, id, Request(ref, cred, Returned(Got(id)), [Took, Gave(None)]), Some(Enriched(ref, cred, f)))
  }

  lemma CallRefused(ttl: int, s: State, id: nat, ref: Ref, fp: string, later: int, f: Fetch)
    requires f.refused.Some?
    ensures Next(ttl, With(s, id, Request(ref, CallerSession(fp), Healthy, []), None), Advance(id, In(later, f, false)))
         == CallEnd(s, id, ref, fp, later, f)
  {
    var r := Request(ref, CallerSession(fp), Healthy, []);
    AdvanceIs(ttl, s, id, r, None, In(later, f, false));
    TrackedNothing(s.health, r.cred);
    assert r.gate + [] == r.gate;
    hide Next, Tracked;
  }

  lemma CallFails(ttl: int, s: State, id: nat, ref: Ref, fp: string, later: int, f: Fetch)
    requires f.refused.None? && f.error.Some?
    ensures Next(ttl, FetchEnd(s, id, ref, CallerSession(fp), f), Advance(id, In(later, f, false)))
         == CallEnd(s, id, ref, fp, later, f)
  {
    var r := Request(ref, CallerSession(fp), Failing(f.error.value), [Took, Gave(f.error)]);
    AdvanceIs(ttl, s, id, r, None, In(later, f, false));
    assert r.gate + [] == r.gate;
    hide Next, Tracked, Is;
  }

  lemma CallSucceeds(ttl: int, s: State, id: nat, ref: Ref, fp: string, later: int, f: Fetch)
    requires f.refused.None? && f.error.None?
    ensures Next(ttl, With(s, id, Request(ref, CallerSession(fp), Enriching, [Took, Gave(None)]),
                           Some(Enriched(ref, CallerSession(fp), f))), Advance(id, In(later, f, false)))
         == CallEnd(s, id, ref, fp, later, f)
  {
    var r := Request(ref, CallerSession(fp), Enriching, [Took, Gave(None)]);
    AdvanceIs(ttl, s, id, r, Some(Enriched(ref, CallerSession(fp), f)), In(later, f, false));
    assert r.gate + [] == r.gate;
    hide Next, Tracked;
  }

  lemma CallRuns(ttl: int, s: State, id: nat, ref: Ref, fp: string, later: int, f: Fetch)
    ensures Leads(ttl, With(s, id, Request(ref, CallerSession(fp), Healthy, []), None), CallSteps(id, later, f),
                  CallEnd(s, id, ref, fp, later, f))
  {
    hide Leads, Next, With, CallEnd, FetchSteps, EnrichSteps;
    var inp, cred := In(later, f, false), CallerSession(fp);
    var start := With(s, id, Request(ref, cred, Healthy, []), None);
    if f.refused.Some? {
      Once(ttl, start, Advance(id, inp));
      CallRefused(ttl, s, id, ref, fp, later, f);
    } else {
      FetchRuns(ttl, s, id, ref, cred, later, f);
      if f.error.Some? {
        CallFails(ttl, s, id, ref, fp, later, f);
        Extend(ttl, start, FetchSteps(id, inp), FetchEnd(s, id, ref, cred, f), Advance(id, inp));
      } else {
        var r := Request(ref, cred, Enriching, [Took, Gave(None)]);
        EnrichRuns(ttl, s, id, ref, cred, later, f);
        Join(ttl, start, FetchSteps(id, inp), With(s, id, r, Some(Core(ref, cred))), EnrichSteps(id, later, f),
             With(s, id, r, Some(Enriched(ref, cred, f))));
        CallSucceeds(ttl, s, id, ref, fp, later, f);
        Extend(ttl, start, FetchSteps(id, inp) + EnrichSteps(id, later, f),
               With(s, id, r, Some(Enriched(ref, cred, f))), Advance(id, inp));
      }
    }
  }

  // A whole call. A rejection the tracker no longer holds it has forgotten by now.
  function CallerSteps(id: nat, ref: Ref, fp: string, now: int, later: int, rejected: bool, f: Fetch): seq<Step> {
    var begin, inp := [Begin(id, ref, CallerSession(fp))], In(now, f, false);
    if rejected then begin + [Advance(id, inp)]
    else begin + [HealthForgets(fp)] + [Advance(id, inp)] + CallSteps(id, later, f)
  }

  function CallerEnd(s: State, id: nat, ref: Ref, fp: string, later: int, rejected: bool, f: Fetch): State {
    if rejected then With(s, id, Request(ref, CallerSession(fp), Returned(FastFailed), []), None)
    else CallEnd(s.(health := Forget(s.health, fp)), id, ref, fp, later, f)
  }

  predicate HeldAgainst(ttl: int, h: Tracker, fp: string, now: int) {
    fp != "" && fp in h.marks && now <= h.marks[fp] + ttl
  }

  lemma AskTracker(ttl: int, s: State, id: nat, ref: Ref, fp: string, now: int, f: Fetch)
    ensures Next(ttl, With(s, id, Request(ref, CallerSession(fp), Begun, []), None), Advance(id, In(now, f, false)))
         == With(s, id, Request(ref, CallerSession(fp),
                                if HeldAgainst(ttl, s.health, fp, now) then Returned(FastFailed) else Healthy, []),
                 None)
  {
    var r := Request(ref, CallerSession(fp), Begun, []);
    assert r.gate + [] == r.gate;
    AdvanceIs(ttl, s, id, r, None, In(now, f, false));
    NoTables(s, id, r, if HeldAgainst(ttl, s.health, fp, now) then Returned(FastFailed) else Healthy, [], None);
    hide Next, Tables, Tracked;
  }

  lemma CallerRuns(ttl: int, s: State, id: nat, ref: Ref, fp: string, now: int, later: int, rejected: bool, f: Fetch)
    requires id !in s.requests && ref.canonicalURL == CANONICAL_PREFIX + ref.publicID
    requires rejected ==> HeldAgainst(ttl, s.health, fp, now)
    ensures Run(ttl, s, CallerSteps(id, ref, fp, now, later, rejected, f))
         == CallerEnd(s, id, ref, fp, later, rejected, f)
  {
    hide Run, Leads, CallSteps, CallEnd;
    var inp, cred := In(now, f, false), CallerSession(fp);
    var begin, begun := [Begin(id, ref, cred)], Request(ref, cred, Begun, []);
    LeadsIs(ttl, s, CallerSteps(id, ref, fp, now, later, rejected, f));
    Once(ttl, s, Begin(id, ref, cred));
    BeginIs(ttl, s, id, ref, cred);
    if rejected {
      AskTracker(ttl, s, id, ref, fp, now, f);
      Extend(ttl, s, begin, With(s, id, begun, None), Advance(id, inp));
    } else {
      var s1 := s.(health := Forget(s.health, fp));
      Extend(ttl, s, begin, With(s, id, begun, None), HealthForgets(fp));
      AskTracker(ttl, s1, id, ref, fp, now, f);
      Extend(ttl, s, begin + [HealthForgets(fp)], With(s1, id, begun, None), Advance(id, inp));
      CallRuns(ttl, s1, id, ref, fp, later, f);
      Join(ttl, s, begin + [HealthForgets(fp)] + [Advance(id, inp)],
           With(s1, id, Request(ref, cred, Healthy, []), None), CallSteps(id, later, f),
           CallEnd(s1, id, ref, fp, later, f));
    }
  }

  // ---------------------------------------------------------------------------
  // Objects and protocol

  // A cache, a negative cache and a tracker that hold no more than the protocol's
  // do, and the same where they hold something; nobody is in flight.
  ghost predicate CoupledTo(ttl: int, view: map<string, Result>, missing: set<string>, marks: map<string, int>,
                            nextId: nat, s: State)
  {
    && (forall id :: id in s.requests || id in s.heap ==> id < nextId)
    && s.flights == map[]
    && ViewOk(view, s) && (forall k :: k in missing ==> k in s.negative) && MarksHeld(ttl, marks, s.health)
  }

  ghost predicate ViewOk(view: map<string, Result>, s: State) {
    forall k :: k in view ==> k in s.cache && s.cache[k] in s.heap && view[k] == s.heap[s.cache[k]]
  }

  ghost predicate MarksHeld(ttl: int, marks: map<string, int>, h: Tracker) {
    forall fp :: fp in marks ==> fp in h.marks && marks[fp] == h.marks[fp] + ttl
  }

  lemma StartsCoupled(ttl: int)
    ensures CoupledTo(ttl, map[], {}, map[], 0, START)
  {
  }

  // What a server call answers.
  function ServerOutcome(s: State, id: nat, ref: Ref, seen: Seen, f: Fetch): Outcome {
    match seen
    case Hit => Got(id)
    case KnownMissing => Failed(NOT_FOUND)
    case Unknown =>
      if f.refused.Some? then Failed(f.refused.value) else if f.error.Some? then Failed(f.error.value) else Got(id)
  }

  function ServerResult(s: State, id: nat, ref: Ref, seen: Seen, f: Fetch): Result
    requires seen == Hit ==> ref.publicID in s.cache && s.cache[ref.publicID] in s.heap
  {
    if seen == Hit then s.heap[s.cache[ref.publicID]].(cached := true) else Enriched(ref, SERVER, f)
  }

  lemma ServerAnswers(s: State, id: nat, ref: Ref, seen: Seen, f: Fetch)
    requires seen == Hit ==> ref.publicID in s.cache && s.cache[ref.publicID] in s.heap
    ensures var s', out := ServerEnd(s, id, ref, seen, f), ServerOutcome(s, id, ref, seen, f);
            && id in s'.requests && s'.requests[id].phase == Returned(out)
            && (out.Got? ==> id in s'.heap && s'.heap[id] == ServerResult(s, id, ref, seen, f))
  {
  }

  predicate FetchedProfile(f: Fetch) { f.refused.None? && f.error.None? }

  predicate FoundMissing(f: Fetch) { f.refused.None? && f.error.Some? && Is(f.error.value, ProfileNotFound) }

  // How a server call may move the two caches.
  ghost predicate Moves(ref: Ref, seen: Seen, f: Fetch, view: map<string, Result>, missing: set<string>,
                        view': map<string, Result>, missing': set<string>)
  {
    var key := ref.publicID;
    && (seen == KnownMissing ==> key !in view')
    && (forall k :: k in view' ==>
          if seen == Unknown && k == key then FetchedProfile(f) && view'[k] == Enriched(ref, SERVER, f)
          else k in view && view'[k] == view[k])
    && (forall k :: k in missing' ==>
          if seen == Unknown && k == key then FoundMissing(f) else k in missing)
  }

  lemma MovesFrom(ref: Ref, f: Fetch, view: map<string, Result>, missing: set<string>,
                  view1: map<string, Result>, missing1: set<string>, view2: map<string, Result>, missing2: set<string>)
    requires Moves(ref, Hit, f, view, missing, view1, missing1)
    requires Moves(ref, Unknown, f, view1, missing1, view2, missing2)
    ensures Moves(ref, Unknown, f, view, missing, view2, missing2)
  {
  }

  lemma ServerKeepsCoupled(ttl: int, s: State, id: nat, ref: Ref, seen: Seen, f: Fetch, marks: map<string, int>,
                           view: map<string, Result>, missing: set<string>,
                           view': map<string, Result>, missing': set<string>)
    requires seen == Hit ==> ref.publicID in s.cache && s.cache[ref.publicID] in s.heap
    requires CoupledTo(ttl, view, missing, marks, id, s) && Moves(ref, seen, f, view, missing, view', missing')
    ensures CoupledTo(ttl, view', missing', marks, id + 1, ServerEnd(s, id, ref, seen, f))
  {
    hide MarksHeld, ServerEnd;
    ServerLeaves(s, id, ref, seen, f);
  }

  // What putting a request into a state leaves alone.
  ghost predicate Around(s: State, s': State, id: nat) {
    && (forall k :: k in s.heap && k != id ==> k in s'.heap && s'.heap[k] == s.heap[k])
    && (forall k :: k in s'.heap && k != id ==> k in s.heap)
    && (forall k :: k in s'.requests && k != id ==> k in s.requests)
  }

  lemma WithLeaves(s: State, id: nat, r: Request, res: Option<Result>)
    ensures var s' := With(s, id, r, res);
            && Around(s, s', id) && id in s'.requests && s'.requests[id] == r
            && (res.Some? ==> id in s'.heap && s'.heap[id] == res.value)
            && s'.cache == s.cache && s'.negative == s.negative && s'.flights == s.flights && s'.health == s.health
  {
  }

  lemma RetrieveLeaves(s: State, id: nat, ref: Ref, f: Fetch)
    ensures var s', key := RetrieveEnd(s, id, ref, f), ref.publicID;
            && s'.flights == s.flights - {key} && s'.health == s.health
            && Around(s, s', id)
            && (forall k :: k in s.cache && k != key ==> k in s'.cache && s'.cache[k] == s.cache[k])
            && (forall k :: k in s.negative ==> k in s'.negative)
            && (FoundMissing(f) ==> key in s'.negative)
            && (FetchedProfile(f) ==>
                  key in s'.cache && s'.cache[key] == id && id in s'.heap && s'.heap[id] == Enriched(ref, SERVER, f))
  {
    hide Enriched, Is, With, Around;
    var key := ref.publicID;
    var landed := s.(flights := s.flights - {key});
    if f.refused.Some? {
      WithLeaves(landed, id, Request(ref, SERVER, Returned(Failed(f.refused.value)), []), None);
      AroundTables(s, landed, RetrieveEnd(s, id, ref, f), id);
    } else if f.error.Some? {
      var told := if Is(f.error.value, ProfileNotFound) then landed.(negative := s.negative[key := id]) else landed;
      WithLeaves(told, id, Request(ref, SERVER, Returned(Failed(f.error.value)), [Took, Gave(f.error)]), None);
      AroundTables(s, told, RetrieveEnd(s, id, ref, f), id);
    } else {
      var stored := landed.(cache := s.cache[key := id]);
      WithLeaves(stored, id, Request(ref, SERVER, Returned(Got(id)), [Took, Gave(None)]),
                 Some(Enriched(ref, SERVER, f)));
      AroundTables(s, stored, RetrieveEnd(s, id, ref, f), id);
    }
  }

  lemma AroundTables(s: State, t: State, s': State, id: nat)
    requires Around(t, s', id) && t.requests == s.requests && t.heap == s.heap
    ensures Around(s, s', id)
  {
  }

  // What a server call does to the tables.
  lemma ServerLeaves(s: State, id: nat, ref: Ref, seen: Seen, f: Fetch)
    requires seen == Hit ==> ref.publicID in s.cache && s.cache[ref.publicID] in s.heap
    requires s.flights == map[]
    ensures var s', key := ServerEnd(s, id, ref, seen, f), ref.publicID;
            && s'.flights == map[] && s'.health == s.health
            && Around(s, s', id)
            && (forall k :: k in s.cache && (k != key || seen == Hit) ==> k in s'.cache && s'.cache[k] == s.cache[k])
            && (forall k :: k in s.negative && (k != key || seen != Unknown) ==> k in s'.negative)
            && (seen == Unknown && FoundMissing(f) ==> key in s'.negative)
            && (seen == Unknown && FetchedProfile(f) ==>
                  key in s'.cache && s'.cache[key] == id && id in s'.heap && s'.heap[id] == Enriched(ref, SERVER, f))
  {
    hide Enriched, RetrieveEnd;
    if seen == Unknown {
      var key := ref.publicID;
      RetrieveLeaves(s.(cache := s.cache - {key}, negative := s.negative - {key}, flights := s.flights[key := id]),
                     id, ref, f);
    }
  }

  lemma ServerKeepsHistory(s: State, id: nat, ref: Ref, seen: Seen, f: Fetch)
    requires seen == Hit ==> ref.publicID in s.cache && s.cache[ref.publicID] in s.heap
    requires s.flights == map[]
    ensures ServerEnd(s, id, ref, seen, f).health == s.health
  {
    hide ServerEnd;
    ServerLeaves(s, id, ref, seen, f);
  }

  // What a caller call answers.
  function CallerOutcome(id: nat, rejected: bool, f: Fetch): Outcome {
    if rejected then FastFailed
    else if f.refused.Some? then Failed(f.refused.value)
    else if f.error.Some? then Failed(Blamed(f.error.value))
    else Got(id)
  }

  lemma CallerAnswers(s: State, id: nat, ref: Ref, fp: string, later: int, rejected: bool, f: Fetch)
    ensures var s', out := CallerEnd(s, id, ref, fp, later, rejected, f), CallerOutcome(id, rejected, f);
            && id in s'.requests && s'.requests[id].phase == Returned(out)
            && (out.Got? ==> id in s'.heap && s'.heap[id] == Enriched(ref, CallerSession(fp), f))
  {
    hide Tracked, Forget;
  }

  // How a caller call may move the tracker.
  ghost predicate MarksMove(ttl: int, fp: string, rejected: bool, op: MarkOp, marks: map<string, int>,
                            marks': map<string, int>)
  {
    forall k :: k in marks' ==>
      if !rejected && k == fp && fp != "" then op.MarkAt? && marks'[k] == op.now + ttl
      else k in marks && marks'[k] == marks[k]
  }

  lemma MarksMoveFrom(ttl: int, fp: string, op: MarkOp, marks: map<string, int>, asked: map<string, int>,
                      marks': map<string, int>)
    requires asked == marks - (if fp != "" then {fp} else {})
    requires MarksMove(ttl, fp, false, op, asked, marks')
    ensures MarksMove(ttl, fp, false, op, marks, marks')
  {
  }

  lemma CallerKeepsCoupled(ttl: int, s: State, id: nat, ref: Ref, fp: string, later: int, rejected: bool, f: Fetch,
                           view: map<string, Result>, missing: set<string>,
                           marks: map<string, int>, marks': map<string, int>)
    requires CoupledTo(ttl, view, missing, marks, id, s) && "" !in marks
    requires MarksMove(ttl, fp, rejected, Report(f, later), marks, marks')
    ensures CoupledTo(ttl, view, missing, marks', id + 1, CallerEnd(s, id, ref, fp, later, rejected, f))
  {
    var s' := CallerEnd(s, id, ref, fp, later, rejected, f);
    CallerLeavesCaches(s, id, ref, fp, later, rejected, f);
    hide CallerEnd;
  }

  lemma CallerLeavesCaches(s: State, id: nat, ref: Ref, fp: string, later: int, rejected: bool, f: Fetch)
    ensures var s' := CallerEnd(s, id, ref, fp, later, rejected, f);
            && s'.cache == s.cache && s'.negative == s.negative && s'.flights == s.flights
            && Around(s, s', id)
            && s'.health == if rejected then s.health
                            else Tracked(Forget(s.health, fp), CallerSession(fp), Report(f, later))
  {
    hide Tracked, Forget, Enriched, Blamed, Is, With, Around;
    var cred := CallerSession(fp);
    var told := s.(health := Tracked(Forget(s.health, fp), cred, Report(f, later)));
    if rejected {
      WithLeaves(s, id, Request(ref, cred, Returned(FastFailed), []), None);
    } else {
      WithLeaves(told, id, Request(ref, cred, Returned(CallerOutcome(id, rejected, f)),
                                   if f.refused.Some? then [] else [Took, Gave(f.error)]),
                 if FetchedProfile(f) then Some(Enriched(ref, cred, f)) else None);
      AroundTables(s, told, CallerEnd(s, id, ref, fp, later, rejected, f), id);
    }
    TrackedNothing(Forget(s.health, fp), CallerSession(fp));
  }

  lemma NoEmptyMark(s: State)
    requires Inv(s)
    ensures "" !in s.health.marks
  {
    assert "" in s.health.marks ==> MarkOk(s.health, "", s.health.marks[""]);
  }

  lemma NothingMoves(ttl: int, fp: string, op: MarkOp, marks: map<string, int>)
    ensures MarksMove(ttl, fp, true, op, marks, marks) && Events(fp, NoMark) == []
  {
  }

  // What the tracker hears.
  function Events(fp: string, op: MarkOp): seq<M.Event> {
    if op.NoMark? || fp == "" then []
    else match op
      case MarkAt(now) => [M.Marked(fp, now)]
      case _ => [M.Removed(fp)]
  }

  lemma CallerTells(s: State, id: nat, ref: Ref, fp: string, later: int, rejected: bool, f: Fetch)
    ensures CallerEnd(s, id, ref, fp, later, rejected, f).health.history
         == s.health.history + Events(fp, if rejected then NoMark else Report(f, later))
  {
    hide CallerEnd;
    CallerLeavesCaches(s, id, ref, fp, later, rejected, f);
  }

  // ---------------------------------------------------------------------------
  // Two retrievals of one profile within its TTL

  // While a request that has missed both caches has not got to the flight table
  // yet, another call for the profile comes and goes: the first still fetches it.
  lemma RefetchAfterCall(ttl: int, s: State, id: nat, other: nat, f: Fetch, inp: Input)
    requires id in s.requests && IsServer(s.requests[id]) && s.requests[id].phase.Missed? && RefOk(s.requests[id].ref)
    requires s.flights == map[] && other !in s.requests && FetchedProfile(f)
    ensures Refetches(ttl, Run(ttl, s, ServerSteps(other, s.requests[id].ref, Unknown, f)), id, inp)
  {
    hide Run, ServerSteps;
    var ref := s.requests[id].ref;
    ServerRuns(ttl, s, other, ref, Unknown, f);
    TakesOffIff(ttl, ServerEnd(s, other, ref, Unknown, f), id, inp);
  }

  lemma MissesBoth(ttl: int, id: nat, ref: Ref, f: Fetch) returns (steps: seq<Step>)
    requires RefOk(ref)
    ensures Run(ttl, START, steps) == With(START, id, Request(ref, SERVER, Missed, []), None)
  {
    hide Run, With, Next, Leads;
    var advance := Advance(id, In(0, f, false));
    steps := [Begin(id, ref, SERVER)];
    Once(ttl, START, Begin(id, ref, SERVER));
    BeginIs(ttl, START, id, ref, SERVER);
    MissIs(ttl, START, id, ref, f);
    Extend(ttl, START, steps, With(START, id, Request(ref, SERVER, Begun, []), None), advance);
    steps := steps + [advance];
    CheckIs(ttl, START, id, ref, f);
    Extend(ttl, START, steps, With(START, id, Request(ref, SERVER, CacheMissed, []), None), advance);
    steps := steps + [advance];
    LeadsIs(ttl, START, steps);
  }

  // For every reference, whatever the TTLs, there is a run in which a request
  // fetches a profile that is in the cache.
  lemma SecondRetrievalHappens(ttl: int, ref: Ref)
    requires RefOk(ref)
    ensures exists steps, id, inp :: Refetches(ttl, Run(ttl, START, steps), id, inp)
  {
    hide Run, ServerSteps, Refetches;
    var f := Fetch(None, None, false, 0);
    var steps := MissesBoth(ttl, 0, ref, f);
    var s := With(START, 0, Request(ref, SERVER, Missed, []), None);
    RefetchAfterCall(ttl, s, 0, 1, f, In(0, f, false));
    RunConcat(ttl, START, steps, ServerSteps(1, ref, Unknown, f));
    assert Refetches(ttl, Run(ttl, START, steps + ServerSteps(1, ref, Unknown, f)), 0, In(0, f, false));
  }
}
