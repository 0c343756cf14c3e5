// internal/service/profile.go: concurrent, bounded, failure-isolated enrichment,
// as a transition system over the interleaved steps of one goroutine per section.

module Enrichment {
  import opened Domain
  import opened SectionJoin

  datatype Status = Ok | Empty | Unavailable

  // What the outside world does to one section's goroutine.
  datatype Fate<R> =
    | NoSlot                        // the context ended while waiting for a slot
    | NoReservation                 // the gate refused
    | FetchFails
    | Answers(resp: Response<R>)

  datatype Phase =
    | Waiting
    | HasSlot
    | HasReservation
    | Fetched                       // reservation returned, response in hand
    | Judged(status: Status)        // status known, slot still held
    | Finished(status: Status)      // slot returned, outcome sent

  // How often a goroutine has taken and returned a slot and a reservation.
  datatype Tally = Tally(slotsTaken: nat, slotsFreed: nat, gatesTaken: nat, gatesFreed: nat)

  datatype Task = Task(phase: Phase, tally: Tally)

  // slots counts every holder of the service-wide semaphore, `others` of them in
  // other requests.
  datatype State<E> = State(tasks: map<Section, Task>, fields: map<Section, seq<E>>,
                            slots: int, others: nat, reservations: int)

  datatype Step = Advance(section: Section) | OtherTakes | OtherFrees

  datatype World<!R, !E> = World(fate: Section -> Fate<R>, urnOf: R -> Option<string>,
                                 decode: Section -> R -> Option<E>, capacity: nat)

  function EntriesOf<R, E>(w: World<R, E>, s: Section): seq<E> {
    var f := w.fate(s);
    if f.Answers? then Entries(f.resp, w.urnOf, w.decode(s)) else []
  }

  // The status a section must end with, from its own fate alone.
  function StatusOf<R, E>(w: World<R, E>, s: Section): Status {
    var f := w.fate(s);
    if !f.Answers? || f.resp.Malformed? then Unavailable
    else if EntriesOf(w, s) == [] then Empty
    else Ok
  }

  function Start<E>(sections: set<Section>, fields: map<Section, seq<E>>, others: nat): State<E> {
    State(map s | s in sections :: Task(Waiting, Tally(0, 0, 0, 0)), fields, others, others, 0)
  }

  function Put<E>(st: State<E>, s: Section, phase: Phase, tally: Tally): State<E> {
    st.(tasks := st.tasks[s := Task(phase, tally)])
  }

  function Next<R, E>(w: World<R, E>, st: State<E>, step: Step): State<E> {
    match step
    case OtherTakes => if st.slots < w.capacity then st.(slots := st.slots + 1, others := st.others + 1) else st
    case OtherFrees => if st.others > 0 then st.(slots := st.slots - 1, others := st.others - 1) else st
    case Advance(s) =>
      if s !in st.tasks then st
      else
        var t, f := st.tasks[s].tally, w.fate(s);
        match st.tasks[s].phase
        case Waiting =>
          if f.NoSlot? then Put(st, s, Finished(Unavailable), t)
          else if st.slots < w.capacity then
            Put(st, s, HasSlot, t.(slotsTaken := t.slotsTaken + 1)).(slots := st.slots + 1)
          else st
        case HasSlot =>
          if f.NoReservation? then Put(st, s, Judged(Unavailable), t)
          else Put(st, s, HasReservation, t.(gatesTaken := t.gatesTaken + 1)).(reservations := st.reservations + 1)
        case HasReservation =>
          Put(st, s, Fetched, t.(gatesFreed := t.gatesFreed + 1))
            .(reservations := st.reservations - 1)
        case Fetched =>
          if !f.Answers? then Put(st, s, Judged(Unavailable), t)
          else
            var entries := EntriesOf(w, s);
            Put(st, s, Judged(if f.resp.Malformed? then Unavailable else if entries == [] then Empty else Ok), t)
              .(fields := Applied(st.fields, s, entries))
        case Judged(status) =>
          Put(st, s, Finished(status), t.(slotsFreed := t.slotsFreed + 1))
            .(slots := st.slots - 1)
        case Finished(_) => st
  }

  function Run<R, E>(w: World<R, E>, st: State<E>, steps: seq<Step>): State<E> {
    if steps == [] then st
    else Next(w, Run(w, st, steps[..|steps| - 1]), steps[|steps| - 1])
  }

  // ---------------------------------------------------------------------------

  predicate HoldsSlot(p: Phase) { p.HasSlot? || p.HasReservation? || p.Fetched? || p.Judged? }

  predicate Applying(p: Phase) { p.Judged? || p.Finished? }

  function SlotHolders(tasks: map<Section, Task>): set<Section> {
    set s | s in tasks && HoldsSlot(tasks[s].phase)
  }

  function GateHolders(tasks: map<Section, Task>): set<Section> {
    set s | s in tasks && tasks[s].phase.HasReservation?
  }

  // Every holder of a slot or of a reservation is counted, and no more.
  ghost predicate CountsOk<E>(st: State<E>, capacity: nat) {
    && st.slots == st.others + |SlotHolders(st.tasks)| && st.slots <= capacity
    && st.reservations == |GateHolders(st.tasks)|
  }

  predicate TallyOk(t: Task, slotted: bool, gated: bool) {
    && t.tally.slotsTaken == (if t.phase.Waiting? || !slotted then 0 else 1)
    && t.tally.slotsFreed == (if t.phase.Finished? then t.tally.slotsTaken else 0)
    && t.tally.gatesTaken
       == (if t.phase.HasReservation? || t.phase.Fetched? || (Applying(t.phase) && gated) then 1 else 0)
    && t.tally.gatesFreed == (if t.phase.HasReservation? then 0 else t.tally.gatesTaken)
  }

  predicate Gated<R>(f: Fate<R>) { f.FetchFails? || f.Answers? }

  predicate TaskOk<R, E>(w: World<R, E>, s: Section, t: Task) {
    && TallyOk(t, !w.fate(s).NoSlot?, Gated(w.fate(s)))
    && FateOk(w, s, t.phase)
  }

  // A goroutine is where its fate lets it be, with the status its fate gives it.
  predicate FateOk<R, E>(w: World<R, E>, s: Section, p: Phase) {
    && (HoldsSlot(p) ==> !w.fate(s).NoSlot?)
    && (p.HasReservation? || p.Fetched? ==> Gated(w.fate(s)))
    && (p.Judged? || p.Finished? ==> p.status == StatusOf(w, s))
  }

  ghost predicate TasksOk<R, E>(w: World<R, E>, st: State<E>) {
    forall s :: s in st.tasks ==> TaskOk(w, s, st.tasks[s])
  }

  // The profile is the starting one, with the fields of the judged sections
  // filled from their own responses.
  ghost predicate FieldOk<R, E>(w: World<R, E>, start: map<Section, seq<E>>, st: State<E>, s: Section) {
    if s in st.tasks && Applying(st.tasks[s].phase) && w.fate(s).Answers?
    then (s in st.fields <==> EntriesOf(w, s) != []) && (s in st.fields ==> st.fields[s] == EntriesOf(w, s))
    else (s in st.fields <==> s in start) && (s in start ==> st.fields[s] == start[s])
  }

  ghost predicate FieldsOk<R, E>(w: World<R, E>, start: map<Section, seq<E>>, st: State<E>) {
    forall s :: FieldOk(w, start, st, s)
  }

  ghost predicate Inv<R, E>(w: World<R, E>, start: map<Section, seq<E>>, st: State<E>) {
    CountsOk(st, w.capacity) && TasksOk(w, st) && FieldsOk(w, start, st)
  }

  lemma SizeAfter(a: set<Section>, s: Section, keep: bool)
    ensures |if keep then a + {s} else a - {s}| == |a| - (if s in a then 1 else 0) + (if keep then 1 else 0)
  {
  }

  lemma SlotHoldersAfterPut(tasks: map<Section, Task>, s: Section, t: Task)
    requires s in tasks
    ensures |SlotHolders(tasks[s := t])| == |SlotHolders(tasks)|
              - (if HoldsSlot(tasks[s].phase) then 1 else 0) + (if HoldsSlot(t.phase) then 1 else 0)
  {
    var slots := SlotHolders(tasks);
    assert SlotHolders(tasks[s := t]) == if HoldsSlot(t.phase) then slots + {s} else slots - {s};
    SizeAfter(slots, s, HoldsSlot(t.phase));
  }

  lemma GateHoldersAfterPut(tasks: map<Section, Task>, s: Section, t: Task)
    requires s in tasks
    ensures |GateHolders(tasks[s := t])| == |GateHolders(tasks)|
              - (if tasks[s].phase.HasReservation? then 1 else 0) + (if t.phase.HasReservation? then 1 else 0)
  {
    var gates := GateHolders(tasks);
    assert GateHolders(tasks[s := t]) == if t.phase.HasReservation? then gates + {s} else gates - {s};
    SizeAfter(gates, s, t.phase.HasReservation?);
  }

  lemma CountsStep<R, E>(w: World<R, E>, st: State<E>, step: Step)
    requires CountsOk(st, w.capacity)
    ensures CountsOk(Next(w, st, step), w.capacity)
  {
    hide SlotHolders, GateHolders, EntriesOf, Applied;
    if step.Advance? && step.section in st.tasks {
      var s := step.section;
      var st' := Next(w, st, step);
      assert st'.tasks == st.tasks || st'.tasks == st.tasks[s := st'.tasks[s]];
      SlotHoldersAfterPut(st.tasks, s, st'.tasks[s]);
      GateHoldersAfterPut(st.tasks, s, st'.tasks[s]);
    }
  }

  lemma TaskStep<R, E>(w: World<R, E>, st: State<E>, step: Step, s: Section)
    requires s in st.tasks && TaskOk(w, s, st.tasks[s])
    ensures s in Next(w, st, step).tasks && TaskOk(w, s, Next(w, st, step).tasks[s])
  {
    hide Next, TallyOk, FateOk;
    StepFrame(w, st, step, s);
    if step == Advance(s) {
      FateStep(w, st, s);
      TallyStep(w, st, s);
    }
  }

  lemma FateStep<R, E>(w: World<R, E>, st: State<E>, s: Section)
    requires s in st.tasks && FateOk(w, s, st.tasks[s].phase)
    ensures s in Next(w, st, Advance(s)).tasks && FateOk(w, s, Next(w, st, Advance(s)).tasks[s].phase)
  {
    hide EntriesOf, Applied;
  }

  lemma TallyStep<R, E>(w: World<R, E>, st: State<E>, s: Section)
    requires s in st.tasks && TaskOk(w, s, st.tasks[s])
    ensures s in Next(w, st, Advance(s)).tasks
    ensures TallyOk(Next(w, st, Advance(s)).tasks[s], !w.fate(s).NoSlot?, Gated(w.fate(s)))
  {
    hide EntriesOf, Applied, StatusOf;
  }

  lemma TasksStep<R, E>(w: World<R, E>, st: State<E>, step: Step)
    requires TasksOk(w, st)
    ensures TasksOk(w, Next(w, st, step)) && Next(w, st, step).tasks.Keys == st.tasks.Keys
  {
    hide TaskOk, EntriesOf;
    forall s | s in st.tasks ensures s in Next(w, st, step).tasks && TaskOk(w, s, Next(w, st, step).tasks[s]) {
      TaskStep(w, st, step, s);
    }
    assert Next(w, st, step).tasks.Keys == st.tasks.Keys;
  }

  // A step changes the field of its own section at most, when its response is
  // applied, and the goroutine of its own section.
  lemma StepFrame<R, E>(w: World<R, E>, st: State<E>, step: Step, s: Section)
    ensures var st' := Next(w, st, step);
            && (s in st'.tasks <==> s in st.tasks)
            && (!(step.Advance? && step.section == s) && s in st.tasks ==> st'.tasks[s] == st.tasks[s])
            && st'.fields == if step.Advance? && step.section in st.tasks && st.tasks[step.section].phase.Fetched?
                                && w.fate(step.section).Answers?
                             then Applied(st.fields, step.section, EntriesOf(w, step.section)) else st.fields
  {
    hide EntriesOf, Applied;
  }

  lemma OwnPhase<R, E>(w: World<R, E>, st: State<E>, s: Section)
    requires s in st.tasks && w.fate(s).Answers?
    ensures s in Next(w, st, Advance(s)).tasks
    ensures Applying(Next(w, st, Advance(s)).tasks[s].phase) <==>
              Applying(st.tasks[s].phase) || st.tasks[s].phase.Fetched?
  {
    hide EntriesOf, Applied;
  }

  lemma FieldStep<R, E>(w: World<R, E>, start: map<Section, seq<E>>, st: State<E>, step: Step, s: Section)
    requires FieldOk(w, start, st, s)
    ensures FieldOk(w, start, Next(w, st, step), s)
  {
    hide EntriesOf, Next;
    StepFrame(w, st, step, s);
    if step.Advance? && step.section == s && s in st.tasks && w.fate(s).Answers? {
      OwnPhase(w, st, s);
    }
  }

  lemma FieldsStep<R, E>(w: World<R, E>, start: map<Section, seq<E>>, st: State<E>, step: Step)
    requires FieldsOk(w, start, st)
    ensures FieldsOk(w, start, Next(w, st, step))
  {
    forall s ensures FieldOk(w, start, Next(w, st, step), s) {
      hide FieldOk, Next;
      FieldStep(w, start, st, step, s);
    }
  }

  lemma StartOk<R, E>(w: World<R, E>, sections: set<Section>, start: map<Section, seq<E>>, others: nat)
    requires others <= w.capacity
    ensures Inv(w, start, Start(sections, start, others))
    ensures Start(sections, start, others).tasks.Keys == sections
  {
    assert SlotHolders(Start(sections, start, others).tasks) == {};
    assert GateHolders(Start(sections, start, others).tasks) == {};
  }

  lemma {:induction false} Reachable<R, E>(w: World<R, E>, sections: set<Section>, start: map<Section, seq<E>>,
                                           others: nat, steps: seq<Step>)
    requires others <= w.capacity
    ensures Inv(w, start, Run(w, Start(sections, start, others), steps))
    ensures Run(w, Start(sections, start, others), steps).tasks.Keys == sections
  {
    hide CountsOk, TasksOk, FieldsOk, Next, Start;
    StartOk(w, sections, start, others);
    if steps != [] {
      var init, step := steps[..|steps| - 1], steps[|steps| - 1];
      Reachable(w, sections, start, others, init);
      var st := Run(w, Start(sections, start, others), init);
      CountsStep(w, st, step);
      TasksStep(w, st, step);
      FieldsStep(w, start, st, step);
    }
  }

  // In every interleaving the upstream fetches of all requests together stay
  // within the semaphore, and a fetch holds a slot while it holds a reservation.
  lemma BoundedFetches<R, E>(w: World<R, E>, sections: set<Section>, start: map<Section, seq<E>>,
                             others: nat, steps: seq<Step>)
    requires others <= w.capacity
    ensures
      var st := Run(w, Start(sections, start, others), steps);
      && GateHolders(st.tasks) <= SlotHolders(st.tasks)
      && st.others + |SlotHolders(st.tasks)| <= w.capacity
      && st.reservations == |GateHolders(st.tasks)| <= w.capacity - st.others
  {
    Reachable(w, sections, start, others, steps);
    var st := Run(w, Start(sections, start, others), steps);
    SubsetSize(GateHolders(st.tasks), SlotHolders(st.tasks));
  }

  ghost predicate Complete<E>(st: State<E>) {
    forall s :: s in st.tasks ==> st.tasks[s].phase.Finished?
  }

  function StatusMap<R, E>(w: World<R, E>, sections: set<Section>): map<Section, Status> {
    map s | s in sections :: StatusOf(w, s)
  }

  // The statuses a complete run sends back.
  function Outcomes<E>(st: State<E>): map<Section, Status> {
    map s | s in st.tasks && st.tasks[s].phase.Finished? :: st.tasks[s].phase.status
  }

  function FinalFields<R, E>(w: World<R, E>, sections: set<Section>): map<Section, seq<E>> {
    map s | s in sections && EntriesOf(w, s) != [] :: EntriesOf(w, s)
  }

  lemma FinalField<R, E>(w: World<R, E>, st: State<E>, s: Section)
    requires FieldOk(w, map[], st, s)
    requires s in st.tasks ==> TaskOk(w, s, st.tasks[s]) && st.tasks[s].phase.Finished?
    ensures s in st.fields <==> s in st.tasks && EntriesOf(w, s) != []
    ensures s in st.fields ==> st.fields[s] == EntriesOf(w, s)
    ensures s in st.tasks ==> st.tasks[s].phase.status == StatusOf(w, s)
    ensures s in st.tasks ==> (StatusOf(w, s) == Ok <==> s in st.fields)
  {
  }

  // The join of what came back for a section, if it was fetched and decoded.
  function JoinOf<R, E>(w: World<R, E>, s: Section): Option<seq<E>> {
    match w.fate(s)
    case Answers(Response(elements, included)) => Some(Join(elements, included, w.urnOf, w.decode(s)))
    case _ => None
  }

  ghost predicate JoinIs<R, E>(w: World<R, E>, s: Section) {
    var joined := JoinOf(w, s);
    && StatusOf(w, s) == (if joined.None? then Unavailable else if joined.value == [] then Empty else Ok)
    && EntriesOf(w, s) == (if joined.None? then [] else joined.value)
  }

  // In that status map a section that could not be fetched or decoded is
  // unavailable, one that joins to nothing is empty, and any other is ok; the field
  // holds the join.
  lemma StatusIs<R, E>(w: World<R, E>, sections: set<Section>, s: Section)
    requires s in sections
    ensures JoinIs(w, s)
    ensures StatusMap(w, sections)[s] == Unavailable <==> JoinOf(w, s).None?
    ensures StatusMap(w, sections)[s] == Empty <==> JoinOf(w, s).Some? && |JoinOf(w, s).value| == 0
    ensures s in FinalFields(w, sections) <==> JoinOf(w, s).Some? && |JoinOf(w, s).value| > 0
    ensures s in FinalFields(w, sections) ==> FinalFields(w, sections)[s] == JoinOf(w, s).value
  {
  }

  // Confluence: whatever the order in which the goroutines run and finish, and
  // whatever other requests do to the semaphore meanwhile, a profile without
  // section fields ends with the same fields and the same status map. The map has
  // exactly the configured sections, and says ok exactly for the fields present.
  lemma Confluence<R, E>(w: World<R, E>, sections: set<Section>, others: nat, steps: seq<Step>)
    requires others <= w.capacity
    requires Complete(Run(w, Start(sections, map[], others), steps))
    ensures
      var st := Run(w, Start(sections, map[], others), steps);
      && st.fields == FinalFields(w, sections)
      && Outcomes(st) == StatusMap(w, sections)
      && Outcomes(st).Keys == sections
      && forall s :: s in sections ==> (Outcomes(st)[s] == Ok <==> s in st.fields)
  {
    hide Run, FieldOk, TaskOk, EntriesOf, StatusOf;
    Reachable(w, sections, map[], others, steps);
    var st := Run(w, Start(sections, map[], others), steps);
    forall s
      ensures s in st.fields <==> s in st.tasks && EntriesOf(w, s) != []
      ensures s in st.fields ==> st.fields[s] == EntriesOf(w, s)
      ensures s in st.tasks ==> st.tasks[s].phase.status == StatusOf(w, s)
      ensures s in st.tasks ==> (StatusOf(w, s) == Ok <==> s in st.fields)
    {
      assert FieldsOk(w, map[], st);
      assert FieldOk(w, map[], st, s);
      FinalField(w, st, s);
    }
  }

  // Every slot and every reservation taken is returned, exactly once, on every
  // path; at the end the semaphore is held by other requests only.
  lemma EverythingReturned<R, E>(w: World<R, E>, sections: set<Section>, start: map<Section, seq<E>>,
                                 others: nat, steps: seq<Step>)
    requires others <= w.capacity
    requires Complete(Run(w, Start(sections, start, others), steps))
    ensures
      var st := Run(w, Start(sections, start, others), steps);
      && st.slots == st.others && st.reservations == 0
      && forall s :: s in st.tasks ==>
           var t := st.tasks[s].tally;
           && t.slotsFreed == t.slotsTaken == (if w.fate(s).NoSlot? then 0 else 1)
           && t.gatesFreed == t.gatesTaken == (if Gated(w.fate(s)) then 1 else 0)
  {
    Reachable(w, sections, start, others, steps);
    var st := Run(w, Start(sections, start, others), steps);
    assert SlotHolders(st.tasks) == {} && GateHolders(st.tasks) == {};
  }
}
