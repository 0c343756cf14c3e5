// internal/audit/writer.go: a bounded queue, one consumer that batches, a lossy
// store, and a drain on close.
//
// WriterProtocol is the transition system of all interleavings of Record calls,
// the consumer loop and Close. Class Writer is the object itself, with its reused
// batch buffer; its every history is proved to be a run of that system.

module WriterProtocol {
  datatype Config = Config(bufferSize: nat, batchSize: nat)

  predicate ValidConfig(c: Config) { c.bufferSize >= 1 && c.batchSize >= 1 }

  // The part of the consumer's code it is in, or returns to from store.Insert.
  datatype Pc = Selecting | Draining | Finished

  datatype Batch<T> = Batch(records: seq<T>, ok: bool)

  datatype State<T> = State(
    queue: seq<T>, batch: seq<T>, pc: Pc,
    inserting: bool,                              // inside store.Insert
    inserts: seq<Batch<T>>,                       // every call of Insert
    accepted: seq<T>, offered: nat,               // what Record was given
    drainedAt: nat,                               // |accepted| when the drain found the queue empty
    dropped: nat, written: nat, writeErrors: nat, // the counters
    closing: bool, storeClosed: bool)

  datatype Step<T> =
    | Record(rec: T)
    | Take                    // the consumer receives from the queue
    | FlushTick
    | PurgeTick
    | SeeDone                 // the consumer notices Close
    | DrainEmpty              // the drain finds the queue empty
    | InsertReturns(ok: bool)
    | CallClose
    | CloseStore(expired: bool)

  // The consumer goroutine has returned.
  predicate Done<T>(s: State<T>) { s.pc == Finished && !s.inserting }

  function Start<T>(): State<T> {
    State([], [], Selecting, false, [], [], 0, 0, 0, 0, 0, false, false)
  }

  function Next<T>(c: Config, s: State<T>, st: Step<T>): State<T> {
    match st
    case Record(rec) =>
      if |s.queue| < c.bufferSize then
        s.(queue := s.queue + [rec], accepted := s.accepted + [rec], offered := s.offered + 1)
      else s.(dropped := s.dropped + 1, offered := s.offered + 1)
    case Take =>
      if s.inserting || s.pc == Finished || s.queue == [] then s
      else
        var batch := s.batch + [s.queue[0]];
        s.(queue := s.queue[1..], batch := batch, inserting := |batch| >= c.batchSize)
    case FlushTick =>
      if s.inserting || s.pc != Selecting then s else s.(inserting := s.batch != [])
    case PurgeTick => s
    case SeeDone =>
      if s.inserting || s.pc != Selecting || !s.closing then s else s.(pc := Draining)
    case DrainEmpty =>
      if s.inserting || s.pc != Draining || s.queue != [] then s
      else s.(pc := Finished, inserting := s.batch != [], drainedAt := |s.accepted|)
    case InsertReturns(ok) =>
      if !s.inserting then s
      else
        s.(inserts := s.inserts + [Batch(s.batch, ok)], batch := [], inserting := false,
           written := s.written + (if ok then |s.batch| else 0),
           writeErrors := s.writeErrors + (if ok then 0 else 1))
    case CallClose => s.(closing := true)
    case CloseStore(expired) =>
      if !s.closing || !(expired || Done(s)) then s else s.(storeClosed := true)
  }

  function Run<T>(c: Config, s: State<T>, steps: seq<Step<T>>): State<T> {
    if steps == [] then s
    else Next(c, Run(c, s, steps[..|steps| - 1]), steps[|steps| - 1])
  }

  lemma RunSnoc<T>(c: Config, s: State<T>, steps: seq<Step<T>>, st: Step<T>)
    ensures Run(c, s, steps + [st]) == Next(c, Run(c, s, steps), st)
  {
    assert (steps + [st])[..|steps|] == steps;
  }

  // ---------------------------------------------------------------------------

  function Concat<T>(bs: seq<Batch<T>>): seq<T> {
    if bs == [] then [] else Concat(bs[..|bs| - 1]) + bs[|bs| - 1].records
  }

  function Count<T>(bs: seq<Batch<T>>, ok: bool): nat {
    if bs == [] then 0
    else Count(bs[..|bs| - 1], ok) + (if bs[|bs| - 1].ok == ok then |bs[|bs| - 1].records| else 0)
  }

  function Failures<T>(bs: seq<Batch<T>>): nat {
    if bs == [] then 0 else Failures(bs[..|bs| - 1]) + (if bs[|bs| - 1].ok then 0 else 1)
  }

  // Records handed to an Insert that failed.
  function Lost<T>(s: State<T>): nat { Count(s.inserts, false) }

  ghost predicate Flow<T>(c: Config, s: State<T>) {
    && s.accepted == Concat(s.inserts) + s.batch + s.queue
    && s.offered == |s.accepted| + s.dropped
    && |s.queue| <= c.bufferSize
  }

  ghost predicate BatchOk<T>(c: Config, s: State<T>) {
    && (if s.inserting then 1 <= |s.batch| <= c.batchSize else |s.batch| < c.batchSize)
    && (s.pc == Finished && !s.inserting ==> s.batch == [])
    && (forall i :: 0 <= i < |s.inserts| ==> 1 <= |s.inserts[i].records| <= c.batchSize)
  }

  ghost predicate CountersOk<T>(s: State<T>) {
    s.written == Count(s.inserts, true) && s.writeErrors == Failures(s.inserts)
  }

  ghost predicate DrainOk<T>(s: State<T>) {
    s.pc == Finished ==> s.drainedAt <= |s.accepted| && s.queue == s.accepted[s.drainedAt..]
  }

  ghost predicate Inv<T>(c: Config, s: State<T>) {
    Flow(c, s) && BatchOk(c, s) && CountersOk(s) && DrainOk(s)
  }

  lemma ConcatSnoc<T>(bs: seq<Batch<T>>, b: Batch<T>)
    ensures Concat(bs + [b]) == Concat(bs) + b.records
    ensures Count(bs + [b], true) == Count(bs, true) + (if b.ok then |b.records| else 0)
    ensures Failures(bs + [b]) == Failures(bs) + (if b.ok then 0 else 1)
  {
    assert (bs + [b])[..|bs|] == bs;
  }

  lemma InsertGives<T>(c: Config, s: State<T>, ok: bool)
    requires s.inserting
    ensures Concat(Next(c, s, InsertReturns(ok)).inserts) == Concat(s.inserts) + s.batch
  {
    ConcatSnoc(s.inserts, Batch(s.batch, ok));
  }

  lemma FlowStep<T>(c: Config, s: State<T>, st: Step<T>)
    requires Flow(c, s)
    ensures Flow(c, Next(c, s, st))
  {
    hide Concat;
    var s' := Next(c, s, st);
    ConcatSnoc(s.inserts, Batch(s.batch, st.InsertReturns? && st.ok));
    match st
    case Record(rec) =>
      assert Concat(s.inserts) + s.batch + (s.queue + [rec]) == Concat(s.inserts) + s.batch + s.queue + [rec];
    case InsertReturns(ok) =>
      assert (Concat(s.inserts) + s.batch) + [] + s.queue == Concat(s.inserts) + s.batch + s.queue;
    case Take =>
      if s.queue != [] {
        assert s.queue == [s.queue[0]] + s.queue[1..];
        assert Concat(s.inserts) + (s.batch + [s.queue[0]]) + s.queue[1..] == Concat(s.inserts) + s.batch + s.queue;
      }
    case _ =>
  }

  lemma CountersStep<T>(c: Config, s: State<T>, st: Step<T>)
    requires CountersOk(s)
    ensures CountersOk(Next(c, s, st))
  {
    hide Count, Failures, Concat;
    ConcatSnoc(s.inserts, Batch(s.batch, st.InsertReturns? && st.ok));
  }

  lemma BatchStep<T>(c: Config, s: State<T>, st: Step<T>)
    requires ValidConfig(c) && BatchOk(c, s)
    ensures BatchOk(c, Next(c, s, st))
  {
  }

  lemma DrainStep<T>(c: Config, s: State<T>, st: Step<T>)
    requires DrainOk(s) && BatchOk(c, s) && ValidConfig(c)
    ensures DrainOk(Next(c, s, st))
  {
  }

  lemma InvStep<T>(c: Config, s: State<T>, st: Step<T>)
    requires ValidConfig(c) && Inv(c, s)
    ensures Inv(c, Next(c, s, st))
  {
    hide Next, Flow, CountersOk, BatchOk, DrainOk;
    FlowStep(c, s, st);
    CountersStep(c, s, st);
    BatchStep(c, s, st);
    DrainStep(c, s, st);
  }

  lemma {:induction false} Reachable<T>(c: Config, steps: seq<Step<T>>)
    requires ValidConfig(c)
    ensures Inv(c, Run(c, Start(), steps))
  {
    if steps != [] {
      Reachable(c, steps[..|steps| - 1]);
      InvStep(c, Run(c, Start(), steps[..|steps| - 1]), steps[|steps| - 1]);
    }
  }

  lemma {:induction false} LossBounds<T>(bs: seq<Batch<T>>, size: nat)
    requires forall i :: 0 <= i < |bs| ==> 1 <= |bs[i].records| <= size
    ensures Failures(bs) <= Count(bs, false) <= Failures(bs) * size
    ensures Count(bs, true) + Count(bs, false) == |Concat(bs)|
  {
    if bs != [] {
      LossBounds(bs[..|bs| - 1], size);
      assert (Failures(bs[..|bs| - 1]) + 1) * size == Failures(bs[..|bs| - 1]) * size + size;
    }
  }

  // Conservation and order, in every state of every interleaving: the accepted
  // records are, in order, the batches given to Insert, the current batch and the
  // queue; nothing is duplicated, reordered or forgotten, and every record is
  // accounted for by one counter.
  lemma {:induction false} Conservation<T>(c: Config, steps: seq<Step<T>>)
    requires ValidConfig(c)
    ensures
      var s := Run(c, Start<T>(), steps);
      && s.accepted == Concat(s.inserts) + s.batch + s.queue
      && s.offered == |s.accepted| + s.dropped
      && |s.accepted| == s.written + Lost(s) + |s.batch| + |s.queue|
      && s.writeErrors <= Lost(s) <= s.writeErrors * c.batchSize
      && |s.queue| <= c.bufferSize && |s.batch| <= c.batchSize
  {
    Reachable(c, steps);
    var s := Run(c, Start<T>(), steps);
    LossBounds(s.inserts, c.batchSize);
  }

  // When the consumer has finished, what was accepted before the drain ended has
  // been given to Insert, in order; everything accepted has been if and only if
  // no Record came after the drain.
  lemma {:induction false} FinishedIff<T>(c: Config, steps: seq<Step<T>>)
    requires ValidConfig(c) && Done(Run(c, Start<T>(), steps))
    ensures
      var s := Run(c, Start<T>(), steps);
      && s.drainedAt <= |s.accepted|
      && Concat(s.inserts) == s.accepted[..s.drainedAt]
      && (Concat(s.inserts) == s.accepted <==> s.drainedAt == |s.accepted|)
  {
    Reachable(c, steps);
    var s := Run(c, Start<T>(), steps);
    assert Concat(s.inserts) + s.batch == Concat(s.inserts);
  }

  lemma DoneMeansAll<T>(c: Config, s: State<T>)
    requires Inv(c, s) && Done(s) && s.queue == []
    ensures s.accepted == Concat(s.inserts)
  {
    assert Concat(s.inserts) + s.batch + s.queue == Concat(s.inserts);
  }

  predicate NoRecords<T>(steps: seq<Step<T>>) {
    forall i :: 0 <= i < |steps| ==> !steps[i].Record?
  }

  predicate NoExpiry<T>(steps: seq<Step<T>>) {
    forall i :: 0 <= i < |steps| && steps[i].CloseStore? ==> !steps[i].expired
  }

  lemma {:induction false} QuietClose<T>(c: Config, s: State<T>, steps: seq<Step<T>>)
    requires NoRecords(steps)
    requires s.pc != Finished
    ensures var s' := Run(c, s, steps);
            s'.accepted == s.accepted && (s'.pc == Finished ==> s'.drainedAt == |s.accepted|)
  {
    if steps != [] {
      QuietClose(c, s, steps[..|steps| - 1]);
    }
  }

  // The store closes only after the consumer has finished, unless the context
  // given to Close ran out.
  lemma {:induction false} StoreClosesLast<T>(c: Config, steps: seq<Step<T>>)
    requires NoExpiry(steps)
    ensures Run(c, Start<T>(), steps).storeClosed ==> Done(Run(c, Start<T>(), steps))
  {
    if steps != [] {
      StoreClosesLast(c, steps[..|steps| - 1]);
    }
  }

  lemma {:induction false} RunConcat<T>(c: Config, s: State<T>, a: seq<Step<T>>, b: seq<Step<T>>)
    ensures Run(c, s, a + b) == Run(c, Run(c, s, a), b)
  {
    if b == [] {
      assert a + b == a;
    } else {
      assert (a + b)[..|a + b| - 1] == a + b[..|b| - 1];
      RunConcat(c, s, a, b[..|b| - 1]);
    }
  }

  predicate Open<T>(s: State<T>) { !s.closing && !s.storeClosed && s.pc == Selecting }

  lemma OpenStep<T>(c: Config, s: State<T>, st: Step<T>)
    requires Open(s) && !st.CallClose?
    ensures Open(Next(c, s, st))
  {
  }

  lemma {:induction false} OpenBeforeClose<T>(c: Config, steps: seq<Step<T>>)
    requires forall i :: 0 <= i < |steps| ==> !steps[i].CallClose?
    ensures Open(Run(c, Start<T>(), steps))
  {
    if steps != [] {
      hide Next, Open;
      OpenBeforeClose(c, steps[..|steps| - 1]);
      OpenStep(c, Run(c, Start<T>(), steps[..|steps| - 1]), steps[|steps| - 1]);
    } else {
      assert Open(Start<T>());
    }
  }

  // A process that ends without calling Close, as when the server fails to stop in
  // time, leaves behind exactly the batch and the queue.
  lemma {:induction false} WithoutCloseTheRestIsLost<T>(c: Config, steps: seq<Step<T>>)
    requires ValidConfig(c) && forall i :: 0 <= i < |steps| ==> !steps[i].CallClose?
    ensures var s := Run(c, Start<T>(), steps);
            && !s.storeClosed && s.pc == Selecting
            && Concat(s.inserts) <= s.accepted && s.accepted[|Concat(s.inserts)|..] == s.batch + s.queue
  {
    OpenBeforeClose(c, steps);
    Reachable(c, steps);
    var s := Run(c, Start<T>(), steps);
    assert Concat(s.inserts) + s.batch + s.queue == Concat(s.inserts) + (s.batch + s.queue);
  }

  // Graceful shutdown: the server has stopped before Close is called, so no
  // Record follows; if Close's context does not run out, then by the time the
  // store closes every record ever accepted has been given to Insert.
  lemma {:induction false} GracefulShutdown<T>(c: Config, before: seq<Step<T>>, after: seq<Step<T>>)
    requires ValidConfig(c)
    requires forall i :: 0 <= i < |before| ==> !before[i].CallClose?
    requires NoRecords(after) && NoExpiry(before + [CallClose] + after)
    ensures var s := Run(c, Start<T>(), before + [CallClose] + after);
            s.storeClosed ==> Concat(s.inserts) == s.accepted == Run(c, Start<T>(), before).accepted
  {
    var all := before + [CallClose] + after;
    OpenBeforeClose(c, before);
    Reachable(c, before);
    RunSnoc(c, Start<T>(), before, CallClose);
    RunConcat(c, Start<T>(), before + [CallClose], after);
    QuietClose(c, Run(c, Start<T>(), before + [CallClose]), after);
    StoreClosesLast(c, all);
    if Run(c, Start<T>(), all).storeClosed {
      FinishedIff(c, all);
    }
  }
}

// The consumer's loop, turn by turn.
module WriterTurns {
  import P = WriterProtocol

  // What happens between two turns of the consumer's loop, or what its select
  // picks next.
  datatype Turn<T> = Arrives(rec: T) | FromQueue | FromFlushTicker | FromPurgeTicker

  function Arrivals<T>(turns: seq<Turn<T>>): nat {
    if turns == [] then 0 else Arrivals(turns[..|turns| - 1]) + (if turns[|turns| - 1].Arrives? then 1 else 0)
  }

  // Where the records are: queued, in the batch, or given to Insert.
  datatype View<T> = View(queue: seq<T>, batch: seq<T>, given: seq<T>, dropped: nat)

  // What a turn does to them.
  function Moved<T>(c: P.Config, v: View<T>, turn: Turn<T>): View<T> {
    match turn
    case Arrives(rec) =>
      if |v.queue| < c.bufferSize then v.(queue := v.queue + [rec]) else v.(dropped := v.dropped + 1)
    case FromQueue =>
      if v.queue == [] then v
      else
        var taken := v.(queue := v.queue[1..], batch := v.batch + [v.queue[0]]);
        if |taken.batch| >= c.batchSize then Flushed(taken) else taken
    case FromFlushTicker => Flushed(v)
    case FromPurgeTicker => v
  }

  function Flushed<T>(v: View<T>): View<T> { v.(batch := [], given := v.given + v.batch) }

  function After<T>(c: P.Config, v: View<T>, turns: seq<Turn<T>>): View<T> {
    if turns == [] then v else Moved(c, After(c, v, turns[..|turns| - 1]), turns[|turns| - 1])
  }

  // Everything that was accepted, in order.
  function AllOf<T>(v: View<T>): seq<T> { v.given + v.batch + v.queue }

  // A turn takes the oldest record from a queue that is not empty, accepts an
  // arrival if and only if there is room, and leaves the batch empty or short.
  lemma TurnsAchieve<T>(c: P.Config, v: View<T>, turn: Turn<T>)
    requires P.ValidConfig(c) && |v.batch| < c.batchSize
    ensures var v' := Moved(c, v, turn);
            && |v'.batch| < c.batchSize
            && (turn.FromQueue? && v.queue != [] ==>
                  v'.queue == v.queue[1..] && |v'.given| + |v'.batch| == |v.given| + |v.batch| + 1)
            && (turn.FromFlushTicker? ==> v'.batch == [] && v'.queue == v.queue)
            && (turn.Arrives? ==> AllOf(v') == AllOf(v) + (if |v.queue| < c.bufferSize then [turn.rec] else []))
            && (turn.Arrives? ==> v'.dropped == v.dropped + (if |v.queue| < c.bufferSize then 0 else 1))
            && (!turn.Arrives? ==> AllOf(v') == AllOf(v) && v'.dropped == v.dropped)
  {
    if turn.FromQueue? && v.queue != [] {
      assert v.queue == [v.queue[0]] + v.queue[1..];
      assert v.given + (v.batch + [v.queue[0]]) + v.queue[1..] == AllOf(v);
      assert v.given + (v.batch + [v.queue[0]]) + [] + v.queue[1..] == AllOf(v);
    } else if turn.Arrives? {
      assert v.given + v.batch + (v.queue + [turn.rec]) == AllOf(v) + [turn.rec];
    }
  }

  function Repeated<T>(turn: Turn<T>, k: nat): seq<Turn<T>> { if k == 0 then [] else Repeated(turn, k - 1) + [turn] }

  lemma AfterMore<T>(c: P.Config, v: View<T>, turns: seq<Turn<T>>, turn: Turn<T>)
    ensures After(c, v, turns + [turn]) == Moved(c, After(c, v, turns), turn)
  {
    assert (turns + [turn])[..|turns|] == turns;
  }

  lemma TurnsThatWait<T>(c: P.Config, v: View<T>)
    ensures v.queue == [] ==> Moved(c, v, FromQueue) == v
    ensures Moved(c, v, FromFlushTicker) == Flushed(v) && Moved(c, v, FromPurgeTicker) == v
  {
  }

  lemma OneMoreTaken<T>(c: P.Config, queue: seq<T>, v: View<T>, k: nat)
    requires P.ValidConfig(c) && |v.batch| < c.batchSize && k >= 1
    requires v.queue == (if k - 1 <= |queue| then queue[k - 1..] else [])
    ensures var v' := Moved(c, v, FromQueue);
            && v'.queue == (if k <= |queue| then queue[k..] else [])
            && AllOf(v') == AllOf(v) && |v'.batch| < c.batchSize && v'.dropped == v.dropped
  {
    TurnsAchieve(c, v, FromQueue);
    TurnsThatWait(c, v);
    hide Moved, AllOf;
    if k <= |queue| {
      assert queue[k - 1..][1..] == queue[k..];
    }
  }

  // k turns at the queue take its k oldest records.
  lemma {:induction false} QueueDrains<T>(c: P.Config, v: View<T>, k: nat)
    requires P.ValidConfig(c) && |v.batch| < c.batchSize
    ensures var v' := After(c, v, Repeated(FromQueue, k));
            && v'.queue == (if k <= |v.queue| then v.queue[k..] else []) && AllOf(v') == AllOf(v)
            && |v'.batch| < c.batchSize && v'.dropped == v.dropped
  {
    if k == 0 {
      assert v.queue[0..] == v.queue;
    } else {
      QueueDrains(c, v, k - 1);
      AfterMore(c, v, Repeated(FromQueue, k - 1), FromQueue);
      OneMoreTaken(c, v.queue, After(c, v, Repeated(FromQueue, k - 1)), k);
      hide Moved, AllOf, After;
    }
  }

  // Nothing stays behind: after as many turns at the queue as there are records in
  // it, and one of the flush ticker, everything accepted has been given to Insert.
  lemma {:induction false} EverythingGetsWritten<T>(c: P.Config, v: View<T>, k: nat)
    requires P.ValidConfig(c) && |v.batch| < c.batchSize && k >= |v.queue|
    ensures After(c, v, Repeated(FromQueue, k) + [FromFlushTicker]) == View([], [], AllOf(v), v.dropped)
  {
    var v' := After(c, v, Repeated(FromQueue, k));
    QueueDrains(c, v, k);
    AfterMore(c, v, Repeated(FromQueue, k), FromFlushTicker);
    assert v'.given + v'.batch + v'.queue == v'.given + v'.batch;
  }

}

module AuditWriter {
  import opened WriterTurns
  import P = WriterProtocol

  // Steps of the consumer goroutine alone.
  ghost predicate ConsumerOnly<T>(steps: seq<P.Step<T>>) {
    forall i :: 0 <= i < |steps| ==>
      steps[i].Take? || steps[i].SeeDone? || steps[i].DrainEmpty? || steps[i].InsertReturns?
  }

  // What the store answers to its n-th Insert.
  type StoreOracle = nat -> bool

  class Writer<T(0)> {
    const cfg: P.Config
    const store: StoreOracle
    var ch: seq<T>                // the buffered channel
    const batch: array<T>         // the reused buffer behind the batch slice
    var n: nat                    // the length of that slice
    var insertCalls: nat
    var dropped: nat
    var written: nat
    var writeErrors: nat

    ghost var trace: seq<P.Step<T>>
    ghost var state: P.State<T>   // where the trace leads

    ghost predicate Valid()
      reads this, batch
    {
      && P.ValidConfig(cfg)
      && batch.Length == cfg.batchSize && n <= batch.Length
      && state == P.Run(cfg, P.Start(), trace)
      && P.Inv(cfg, state)
      && state.queue == ch && state.batch == batch[..n]
      && state.dropped == dropped && state.written == written && state.writeErrors == writeErrors
      && |state.inserts| == insertCalls
    }

    ghost function Now(): View<T>
      requires Valid()
      reads this, batch
    {
      View(ch, batch[..n], P.Concat(state.inserts), dropped)
    }

    constructor (bufferSize: int, batchSize: int, store: StoreOracle)
      ensures Valid() && trace == [] && fresh(batch)
      ensures cfg == P.Config(if bufferSize < 1 then 1 else bufferSize, if batchSize < 1 then 1 else batchSize)
    {
      var size := if batchSize < 1 then 1 else batchSize;
      cfg := P.Config(if bufferSize < 1 then 1 else bufferSize, size);
      this.store := store;
      batch := new T[size];
      ch, n := [], 0;
      insertCalls, dropped, written, writeErrors := 0, 0, 0, 0;
      trace, state := [], P.Start();
      new;
      P.Reachable<T>(cfg, []);
    }

    ghost method Log(st: P.Step<T>)
      requires P.ValidConfig(cfg) && state == P.Run(cfg, P.Start(), trace) && P.Inv(cfg, state)
      modifies this`trace, this`state
      ensures trace == old(trace) + [st] && state == P.Next(cfg, old(state), st)
      ensures state == P.Run(cfg, P.Start(), trace) && P.Inv(cfg, state)
    {
      P.RunSnoc(cfg, P.Start<T>(), trace, st);
      P.InvStep(cfg, state, st);
      state := P.Next(cfg, state, st);
      trace := trace + [st];
    }

    method Record(rec: T)
      requires Valid()
      modifies this
      ensures Valid() && trace == old(trace) + [P.Record(rec)]
      ensures state == P.Next(cfg, old(state), P.Record(rec))
      ensures if |old(ch)| < cfg.bufferSize then ch == old(ch) + [rec] && dropped == old(dropped)
              else ch == old(ch) && dropped == old(dropped) + 1
      ensures Now() == Moved(cfg, old(Now()), Arrives(rec))
    {
      if |ch| < cfg.bufferSize {
        ch := ch + [rec];
      } else {
        dropped := dropped + 1;
      }
      Log(P.Record(rec));
    }

    // One received record, appended to the batch, and the flush that follows when
    // the batch is full. The consumer is in its loop or draining.
    method Receive()
      requires Valid() && ch != []
      requires !state.inserting && state.pc != P.Finished
      modifies this, batch
      ensures Valid() && !state.inserting && state.pc == old(state.pc) && state.closing == old(state.closing)
      ensures ch == old(ch)[1..]
      ensures state.accepted == old(state.accepted) && state.offered == old(state.offered)
      ensures Now() == Moved(cfg, old(Now()), FromQueue)
      ensures trace == old(trace) + [P.Take] +
                (if old(n) + 1 >= cfg.batchSize then [P.InsertReturns(store(old(insertCalls)))] else [])
    {
      var rec := ch[0];
      ch := ch[1..];
      batch[n] := rec;
      n := n + 1;
      Log(P.Take);
      if n >= cfg.batchSize {
        Flush();
      }
    }

    // The ticker case of the loop.
    method Tick()
      requires Valid() && !state.inserting && state.pc == P.Selecting
      modifies this, batch
      ensures Valid() && !state.inserting && state.pc == P.Selecting && n == 0 && ch == old(ch)
      ensures state.accepted == old(state.accepted) && state.offered == old(state.offered)
      ensures state.closing == old(state.closing) && Now() == Flushed(old(Now()))
      ensures trace == old(trace) + [P.FlushTick] +
                (if old(n) > 0 then [P.InsertReturns(store(old(insertCalls)))] else [])
    {
      Log(P.FlushTick);
      if n > 0 {
        Flush();
      }
    }

    // The loop before Close is called, with Record calls between its turns: every
    // turn moves the records as it should, and what was accepted stays in order in
    // the inserts, the batch and the queue.
    method Loop(turns: seq<Turn<T>>)
      requires Valid() && !state.inserting && state.pc == P.Selecting
      modifies this, batch
      ensures Valid() && !state.inserting && state.pc == P.Selecting && state.closing == old(state.closing)
      ensures Now() == After(cfg, old(Now()), turns)
      ensures state.offered == old(state.offered) + Arrivals(turns)
      ensures |state.accepted| + dropped == |old(state.accepted)| + old(dropped) + Arrivals(turns)
      ensures old(state.accepted) <= state.accepted
      ensures state.accepted == P.Concat(state.inserts) + batch[..n] + ch && n < cfg.batchSize
    {
      hide P.Run, P.Concat, Moved, Flushed;
      for i := 0 to |turns|
        invariant Valid() && !state.inserting && state.pc == P.Selecting && state.closing == old(state.closing)
        invariant state.offered == old(state.offered) + Arrivals(turns[..i])
        invariant old(state.accepted) <= state.accepted
        invariant Now() == After(cfg, old(Now()), turns[..i])
      {
        assert turns[..i + 1][..i] == turns[..i];
        match turns[i] {
          case Arrives(rec) => Record(rec);
          case FromQueue =>
            if ch != [] {
              Receive();
            } else {
              TurnsThatWait(cfg, Now());
            }
          case FromFlushTicker =>
            TurnsThatWait(cfg, Now());
            Tick();
          case FromPurgeTicker =>
            TurnsThatWait(cfg, Now());
        }
      }
      assert turns[..|turns|] == turns;
    }

    // Hands the batch to the store and resets the slice without freeing the buffer.
    method Flush()
      requires Valid() && state.inserting
      modifies this
      ensures Valid() && n == 0 && ch == old(ch)
      ensures !state.inserting && state.pc == old(state.pc) && state.accepted == old(state.accepted)
      ensures state.closing == old(state.closing) && state.offered == old(state.offered)
      ensures insertCalls == old(insertCalls) + 1 && Now() == Flushed(old(Now()))
      ensures state == P.Next(cfg, old(state), P.InsertReturns(store(old(insertCalls))))
      ensures trace == old(trace) + [P.InsertReturns(store(old(insertCalls)))]
    {
      hide P.Run, P.Concat, P.Inv;
      var ok := store(insertCalls);
      insertCalls := insertCalls + 1;
      if ok {
        written := written + n;
      } else {
        writeErrors := writeErrors + 1;
      }
      P.InsertGives(cfg, state, ok);
      n := 0;
      Log(P.InsertReturns(ok));
    }

    // The done case of the loop, with nobody calling Record any more: everything
    // queued goes through the batch, then the rest of the batch is flushed.
    method DrainAndFinish()
      requires Valid() && !state.inserting && state.pc == P.Selecting && state.closing
      modifies this, batch
      ensures Valid() && P.Done(state) && state.closing && ch == [] && n == 0
      ensures state.accepted == old(state.accepted) == P.Concat(state.inserts)
      ensures old(trace) <= trace && ConsumerOnly(trace[|old(trace)|..])
    {
      hide P.Run, P.Inv, P.Concat;
      Log(P.SeeDone);
      while ch != []
        invariant Valid() && !state.inserting && state.pc == P.Draining && state.closing
        invariant state.accepted == old(state.accepted)
        invariant old(trace) <= trace && ConsumerOnly(trace[|old(trace)|..])
        decreases |ch|
      {
        Receive();
      }
      Log(P.DrainEmpty);
      if n > 0 {
        Flush();
      }
      P.DoneMeansAll(cfg, state);
    }

    // Close with nobody calling Record any more. Within its context everything
    // ever accepted has been given to the store, in order, before the store
    // closes; when the context runs out first, the store closes at once.
    method Close(expired: bool)
      requires Valid() && !state.inserting && state.pc == P.Selecting
      modifies this, batch
      ensures Valid() && state.storeClosed
      ensures state.accepted == old(state.accepted)
      ensures expired ==> trace == old(trace) + [P.CallClose] + [P.CloseStore(true)]
      ensures !expired ==> P.Done(state) && P.Concat(state.inserts) == state.accepted
      ensures !expired ==> exists drain ::
                ConsumerOnly(drain) && trace == old(trace) + [P.CallClose] + drain + [P.CloseStore(false)]
    {
      hide P.Run, P.Inv, P.Concat;
      Log(P.CallClose);
      ghost var called := trace;
      if !expired {
        DrainAndFinish();
      }
      ghost var drain := trace[|called|..];
      assert trace == called + drain;
      Log(P.CloseStore(expired));
    }
  }
}
