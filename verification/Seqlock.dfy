/** The status snapshot of host/libheadtracker/src/stabilizer.cpp: one writer publishes a
    record field by field between two counter increments, any number of readers copy it
    field by field between two counter loads.

    Every shared access is one step, steps of all threads interleave in any order, and
    fields are written and copied in any order. The counter is a mathematical number. */
module Seqlock {

  type Word = int

  // The scalar fields of StabilizerStatus.
  const FIELDS: nat := 18

  type Record = seq<Word>

  datatype Writer = Resting | Writing(value: Record, todo: set<nat>)

  datatype Reader = Outside | Copying(first: nat, copy: map<nat, Word>)

  /** What one call of status returned, and how many snapshots had been published then. */
  datatype Result = Result(reader: nat, value: Record, published: nat)

  datatype State = State(counter: nat, snap: Record, writer: Writer, readers: map<nat, Reader>,
                         published: seq<Record>, results: seq<Result>)

  datatype Event =
    | Begin(value: Record)
    | WriteField(i: nat)
    | End
    | LoadFirst(r: nat)
    | CopyField(r: nat, i: nat)
    | LoadSecond(r: nat)

  predicate Field(i: nat) {
    i < FIELDS
  }

  function Indices(): (s: set<nat>) {
    set i: nat | i < FIELDS && Field(i)
  }

  function Start(initial: Record): (st: State) {
    State(0, initial, Resting, map[], [initial], [])
  }

  function Whole(copy: map<nat, Word>): (value: Record)
    requires copy.Keys == Indices()
    ensures |value| == FIELDS
  {
    seq(FIELDS, i requires 0 <= i < FIELDS => copy[i])
  }

  function ReaderOf(st: State, r: nat): (reader: Reader) {
    if r in st.readers then st.readers[r] else Outside
  }

  /** One shared access by one thread; an event that is not enabled changes nothing. */
  function Step(st: State, e: Event): (next: State) {
    match e
    case Begin(value) =>
      if st.writer == Resting && |value| == FIELDS then
        st.(counter := st.counter + 1, writer := Writing(value, Indices()))
      else st
    case WriteField(i) =>
      if st.writer.Writing? && i in st.writer.todo && i < |st.snap| && i < |st.writer.value| then
        st.(snap := st.snap[i := st.writer.value[i]],
            writer := Writing(st.writer.value, st.writer.todo - {i}))
      else st
    case End =>
      if st.writer.Writing? && st.writer.todo == {} then
        st.(counter := st.counter + 1, writer := Resting,
            published := st.published + [st.writer.value])
      else st
    case LoadFirst(r) =>
      if ReaderOf(st, r) == Outside && st.counter % 2 == 0 then
        st.(readers := st.readers[r := Copying(st.counter, map[])])
      else st
    case CopyField(r, i) =>
      var reader := ReaderOf(st, r);
      if reader.Copying? && i !in reader.copy && i < FIELDS && i < |st.snap| then
        st.(readers := st.readers[r := Copying(reader.first, reader.copy[i := st.snap[i]])])
      else st
    case LoadSecond(r) =>
      var reader := ReaderOf(st, r);
      if reader.Copying? && reader.copy.Keys == Indices() then
        var out := st.(readers := st.readers[r := Outside]);
        if st.counter == reader.first then
          out.(results := st.results + [Result(r, Whole(reader.copy), |st.published|)])
        else out
      else st
  }

  function Run(initial: Record, events: seq<Event>): (st: State)
    decreases |events|
  {
    if events == [] then Start(initial)
    else Step(Run(initial, events[..|events| - 1]), events[|events| - 1])
  }

  // ---- the invariant ------------------------------------------------------------------

  ghost predicate WriterOk(st: State) {
    && |st.published| >= 1 && |st.snap| == FIELDS
    && (forall k :: 0 <= k < |st.published| ==> |st.published[k]| == FIELDS)
    && var last := st.published[|st.published| - 1];
       match st.writer
       case Resting => st.counter == 2 * (|st.published| - 1) && st.snap == last
       case Writing(value, todo) =>
         && st.counter == 2 * (|st.published| - 1) + 1 && |value| == FIELDS
         && forall i: nat :: i < FIELDS ==> st.snap[i] == if i in todo then last[i] else value[i]
  }

  /** What a reader has copied so far is right, as long as the counter has not moved. */
  ghost predicate ReaderOk(st: State, reader: Reader) {
    reader.Copying? ==>
      && reader.first % 2 == 0 && reader.first <= st.counter
      && (reader.first == st.counter ==>
            forall i :: i in reader.copy ==>
              i < FIELDS && i < |st.snap| && reader.copy[i] == st.snap[i])
  }

  ghost predicate ResultOk(st: State, res: Result) {
    1 <= res.published <= |st.published| && res.value == st.published[res.published - 1]
  }

  ghost predicate Invariant(st: State) {
    && WriterOk(st)
    && (forall r :: r in st.readers ==> ReaderOk(st, st.readers[r]))
    && (forall j :: 0 <= j < |st.results| ==> ResultOk(st, st.results[j]))
    && (forall j, k :: 0 <= j < k < |st.results| ==>
          st.results[j].published <= st.results[k].published)
  }

  lemma WriterStep(st: State, e: Event)
    requires Invariant(st)
    ensures WriterOk(Step(st, e))
  {
  }

  lemma ReaderStep(st: State, e: Event, r: nat)
    requires Invariant(st) && r in Step(st, e).readers
    ensures ReaderOk(Step(st, e), Step(st, e).readers[r])
  {
    if r in st.readers {
      assert ReaderOk(st, st.readers[r]);
    }
  }

  /** A call that returns, returns the snapshot current at its second load; the counter
      not having moved, it was current ever since the first. */
  lemma ReturnIsCurrent(st: State, r: nat)
    requires Invariant(st) && Step(st, LoadSecond(r)).results != st.results
    ensures st.writer == Resting && ReaderOf(st, r).first == st.counter
    ensures var res := Result(r, st.published[|st.published| - 1], |st.published|);
      Step(st, LoadSecond(r)).results == st.results + [res]
  {
    assert r in st.readers && ReaderOk(st, st.readers[r]);
    var value := Whole(ReaderOf(st, r).copy);
    assert forall i: nat :: Field(i) ==> i in Indices();
    assert value == st.published[|st.published| - 1];
  }

  lemma StepInvariant(st: State, e: Event)
    requires Invariant(st)
    ensures Invariant(Step(st, e))
    ensures st.published <= Step(st, e).published && st.results <= Step(st, e).results
  {
    var next := Step(st, e);
    WriterStep(st, e);
    forall r | r in next.readers ensures ReaderOk(next, next.readers[r]) {
      ReaderStep(st, e, r);
    }
    if e.LoadSecond? && next.results != st.results {
      ReturnIsCurrent(st, e.r);
    }
  }

  lemma {:induction false} Always(initial: Record, events: seq<Event>)
    requires |initial| == FIELDS
    ensures Invariant(Run(initial, events))
    decreases |events|
  {
    hide Step;
    if events == [] {
    } else {
      Always(initial, events[..|events| - 1]);
      StepInvariant(Run(initial, events[..|events| - 1]), events[|events| - 1]);
    }
  }

  /** In every run, every call of status that returned gave one wholly published snapshot
      (or the initial one): never fields of two. */
  lemma NoTornReads(initial: Record, events: seq<Event>, j: nat)
    requires |initial| == FIELDS && j < |Run(initial, events).results|
    ensures Run(initial, events).results[j].value in Run(initial, events).published
    ensures ResultOk(Run(initial, events), Run(initial, events).results[j])
  {
    hide Run;
    Always(initial, events);
    assert ResultOk(Run(initial, events), Run(initial, events).results[j]);
  }

  /** Results follow the publish order: a later call, by any reader, never returns an
      earlier snapshot. */
  lemma NeverBack(initial: Record, events: seq<Event>, j: nat, k: nat)
    requires |initial| == FIELDS && j < k < |Run(initial, events).results|
    ensures Run(initial, events).results[j].published <= Run(initial, events).results[k].published
  {
    hide Run;
    Always(initial, events);
  }

  /** The snapshot count a result carries is the one in force when it was returned: a call
      that starts after a publish completed returns that snapshot or a later one. */
  lemma {:induction false} ReturnsAreFresh(initial: Record, before: seq<Event>, after: seq<Event>, j: nat)
    requires |initial| == FIELDS && |Run(initial, before).results| <= j
    requires j < |Run(initial, before + after).results|
    ensures Run(initial, before + after).results[j].published >= |Run(initial, before).published|
    decreases |after|
  {
    hide Step, Invariant;
    assert after == [] ==> before + after == before;
    if after != [] {
      var all, start := before + after, after[..|after| - 1];
      assert all[..|all| - 1] == before + start && all[|all| - 1] == after[|after| - 1];
      var mid, e := Run(initial, before + start), after[|after| - 1];
      Always(initial, before + start);
      StepInvariant(mid, e);
      if j < |mid.results| {
        ReturnsAreFresh(initial, before, start, j);
        assert Step(mid, e).results[j] == mid.results[j];
      } else {
        PublishedGrows(initial, before, start);
        NewResult(mid, e, j);
      }
    }
  }

  lemma NewResult(st: State, e: Event, j: nat)
    requires Invariant(st) && |st.results| <= j < |Step(st, e).results|
    ensures Step(st, e).results[j].published == |st.published|
  {
  }

  lemma {:induction false} PublishedGrows(initial: Record, before: seq<Event>, after: seq<Event>)
    requires |initial| == FIELDS
    ensures Run(initial, before).published <= Run(initial, before + after).published
    decreases |after|
  {
    hide Step, Invariant;
    if after == [] {
      assert before + after == before;
    } else {
      var all, start := before + after, after[..|after| - 1];
      assert all[..|all| - 1] == before + start;
      PublishedGrows(initial, before, start);
      Always(initial, before + start);
      StepInvariant(Run(initial, before + start), all[|all| - 1]);
    }
  }
}
