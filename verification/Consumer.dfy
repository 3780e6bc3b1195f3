/** The consumer of cmd/realtime/main.go: poll, process every fetched record, then commit their offsets. Commits
    may fail or lose their reply, and the process may crash at any point and restart from the committed offsets. */
module Consumer {
  import opened Base
  import opened Events
  import opened Kafka

  /** One Broadcast call, with the record it was made for. */
  datatype Broadcast = Broadcast(event: Envelope, payload: Payload, source: Place)

  /** `committed` is durable, `position`, `fetched` and `done` are lost in a crash; the rest is history: every
      Broadcast call in order, the latest call for each record, and the records Decode rejected. */
  datatype State = State(
    committed: map<nat, nat>, position: map<nat, nat>, fetched: seq<Place>, done: seq<Place>,
    broadcasts: seq<Broadcast>, heard: map<Place, nat>, rejected: set<Place>)

  datatype Step =
    | Poll(batch: seq<Place>)
    | Process
    | Commit(applied: bool)
    | Crash

  /** A group without a committed offset starts at the beginning. */
  function Offset(m: map<nat, nat>, partition: nat): nat {
    if partition in m then m[partition] else 0
  }

  /** The fetch position after a batch. */
  function Advance(position: map<nat, nat>, batch: seq<Place>): map<nat, nat> {
    if batch == [] then position
    else
      var last := batch[|batch| - 1];
      Advance(position, batch[..|batch| - 1])[last.partition := last.offset + 1]
  }

  /** Per partition, a fetch returns consecutive records from the position. */
  ghost predicate ValidFetch(log: map<nat, seq<Record>>, position: map<nat, nat>, batch: seq<Place>) {
    batch == [] ||
    var front, last := batch[..|batch| - 1], batch[|batch| - 1];
    && ValidFetch(log, position, front)
    && Holds(log, last)
    && last.offset == Offset(Advance(position, front), last.partition)
  }

  /** CommitRecords: per partition, one past the highest processed offset. */
  function CommitAll(committed: map<nat, nat>, done: seq<Place>): map<nat, nat> {
    if done == [] then committed
    else
      var last := done[|done| - 1];
      var m := CommitAll(committed, done[..|done| - 1]);
      m[last.partition := Max(Offset(m, last.partition), last.offset + 1)]
  }

  ghost predicate Enabled(log: map<nat, seq<Record>>, st: State, s: Step) {
    match s
    case Poll(batch) => st.fetched == [] && st.done == [] && ValidFetch(log, st.position, batch)
    case Process => st.fetched != [] && Holds(log, st.fetched[0])
    case Commit(applied) => st.fetched == [] && st.done != []
    case Crash => true
  }

  /** processRecord: broadcast what decodes, skip what does not. */
  function Processed(st: State, place: Place, payload: Payload): State
    requires st.fetched != []
  {
    var st1 := st.(fetched := st.fetched[1..], done := st.done + [place]);
    match Decode(payload)
    case Err(_) => st1.(rejected := st.rejected + {place})
    case Ok(event) =>
      st1.(broadcasts := st.broadcasts + [Broadcast(event, payload, place)],
           heard := st.heard[place := |st.broadcasts|])
  }

  function Next(log: map<nat, seq<Record>>, st: State, s: Step): State
    requires Enabled(log, st, s)
  {
    match s
    case Poll(batch) => st.(position := Advance(st.position, batch), fetched := batch)
    case Process => Processed(st, st.fetched[0], At(log, st.fetched[0]).payload)
    case Commit(applied) =>
      st.(committed := if applied then CommitAll(st.committed, st.done) else st.committed, done := [])
    case Crash => st.(position := st.committed, fetched := [], done := [])
  }

  ghost predicate Initial(st: State) {
    st == State(map[], map[], [], [], [], map[], {})
  }

  /** The record was broadcast, or rejected by Decode, at least once. */
  ghost predicate Handled(st: State, place: Place) {
    place in st.heard || place in st.rejected
  }

  ghost predicate BroadcastOk(log: map<nat, seq<Record>>, b: Broadcast) {
    Holds(log, b.source) && At(log, b.source).payload == b.payload && Decode(b.payload) == Ok(b.event)
  }

  /** What is between the committed offset and the position: fetched and not yet handled, or handled and not
      committed. */
  ghost predicate Window(st: State, place: Place) {
    Offset(st.committed, place.partition) <= place.offset < Offset(st.position, place.partition)
  }

  ghost predicate ProgressInv(st: State) {
    && (forall t :: Offset(st.committed, t) <= Offset(st.position, t))
    && (forall place: Place :: place.offset < Offset(st.position, place.partition) ==>
        Handled(st, place) || place in st.fetched)
    && (forall place: Place :: place.offset < Offset(st.committed, place.partition) ==> Handled(st, place))
    && (forall i :: 0 <= i < |st.fetched| ==> Window(st, st.fetched[i]))
    && (forall i :: 0 <= i < |st.done| ==> Window(st, st.done[i]))
  }

  ghost predicate HistoryInv(log: map<nat, seq<Record>>, st: State) {
    && (forall i :: 0 <= i < |st.fetched| ==> Holds(log, st.fetched[i]))
    && (forall j :: 0 <= j < |st.broadcasts| ==> BroadcastOk(log, st.broadcasts[j]))
    && (forall place: Place :: place in st.heard ==>
        st.heard[place] < |st.broadcasts| && st.broadcasts[st.heard[place]].source == place)
    && (forall place: Place :: place in st.rejected ==> Holds(log, place) && Decode(At(log, place).payload).Err?)
  }

  ghost predicate Inv(log: map<nat, seq<Record>>, st: State) {
    ProgressInv(st) && HistoryInv(log, st)
  }

  lemma {:induction false} InitialInv(log: map<nat, seq<Record>>, st: State)
    requires Initial(st)
    ensures Inv(log, st)
  {
  }

  lemma {:induction false} LogInv(log: map<nat, seq<Record>>, later: map<nat, seq<Record>>, st: State)
    requires Inv(log, st) && LogGrows(log, later)
    ensures Inv(later, st)
  {
    forall j | 0 <= j < |st.broadcasts|
      ensures BroadcastOk(later, st.broadcasts[j])
    {
      assert BroadcastOk(log, st.broadcasts[j]);
    }
  }

  lemma {:induction false} AdvanceCovers(log: map<nat, seq<Record>>, position: map<nat, nat>, batch: seq<Place>)
    requires ValidFetch(log, position, batch)
    ensures forall t :: Offset(position, t) <= Offset(Advance(position, batch), t)
    ensures forall i :: 0 <= i < |batch| ==>
              && Holds(log, batch[i])
              && Offset(position, batch[i].partition) <= batch[i].offset
              && batch[i].offset < Offset(Advance(position, batch), batch[i].partition)
    ensures forall place: Place :: place.offset < Offset(Advance(position, batch), place.partition) ==>
              place.offset < Offset(position, place.partition) || place in batch
  {
    if batch != [] {
      var front, last := batch[..|batch| - 1], batch[|batch| - 1];
      AdvanceCovers(log, position, front);
      assert batch == front + [last];
      var before, after := Advance(position, front), Advance(position, batch);
      forall place: Place | place.offset < Offset(after, place.partition)
        ensures place.offset < Offset(position, place.partition) || place in batch
      {
        if place.partition == last.partition && place.offset == last.offset {
          assert place == last;
        } else {
          assert place.offset < Offset(before, place.partition);
        }
      }
    }
  }

  lemma {:induction false} CommitCovers(committed: map<nat, nat>, position: map<nat, nat>, done: seq<Place>)
    requires forall t :: Offset(committed, t) <= Offset(position, t)
    requires forall i :: 0 <= i < |done| ==> done[i].offset < Offset(position, done[i].partition)
    ensures forall t :: Offset(committed, t) <= Offset(CommitAll(committed, done), t) <= Offset(position, t)
    ensures forall i :: 0 <= i < |done| ==> done[i].offset < Offset(CommitAll(committed, done), done[i].partition)
  {
    if done != [] {
      var front := done[..|done| - 1];
      CommitCovers(committed, position, front);
      assert forall i :: 0 <= i < |front| ==> front[i] == done[i];
    }
  }

  lemma {:induction false} StepInv(log: map<nat, seq<Record>>, st: State, s: Step)
    requires Inv(log, st) && Enabled(log, st, s)
    ensures Inv(log, Next(log, st, s))
  {
    match s
    case Poll(batch) => AdvanceCovers(log, st.position, batch);
    case Process => ProcessInv(log, st);
    case Commit(applied) => CommitCovers(st.committed, st.position, st.done);
    case Crash =>
  }

  lemma {:induction false} ProcessInv(log: map<nat, seq<Record>>, st: State)
    requires Inv(log, st) && Enabled(log, st, Process)
    ensures Inv(log, Next(log, st, Process))
  {
    ProcessProgress(log, st);
    ProcessHistory(log, st);
  }

  lemma {:induction false} ProcessProgress(log: map<nat, seq<Record>>, st: State)
    requires ProgressInv(st) && Enabled(log, st, Process)
    ensures ProgressInv(Next(log, st, Process))
  {
    var st' := Next(log, st, Process);
    var first := st.fetched[0];
    assert Window(st, first);
    forall place: Place | Handled(st, place) || place in st.fetched
      ensures Handled(st', place) || place in st'.fetched
      ensures Handled(st, place) ==> Handled(st', place)
    {
      if place in st.fetched && place != first {
        var i :| 0 <= i < |st.fetched| && st.fetched[i] == place;
        assert st'.fetched[i - 1] == place;
      }
    }
    assert forall place :: Window(st, place) ==> Window(st', place);
  }

  lemma {:induction false} ProcessHistory(log: map<nat, seq<Record>>, st: State)
    requires HistoryInv(log, st) && Enabled(log, st, Process)
    ensures HistoryInv(log, Next(log, st, Process))
  {
  }

  /** Offset safety: every record below a committed offset was broadcast or rejected at least once. */
  lemma {:induction false} CommittedIsHandled(log: map<nat, seq<Record>>, st: State, place: Place)
    requires Inv(log, st) && place.offset < Offset(st.committed, place.partition)
    ensures Holds(log, place)
    ensures Decode(At(log, place).payload).Ok? ==>
              place in st.heard && st.heard[place] < |st.broadcasts|
              && st.broadcasts[st.heard[place]] ==
                  Broadcast(Decode(At(log, place).payload).value, At(log, place).payload, place)
    ensures Decode(At(log, place).payload).Err? ==> place in st.rejected
  {
    assert Handled(st, place);
    if place in st.heard { assert BroadcastOk(log, st.broadcasts[st.heard[place]]); }
  }

  /** Re-processing touches only offsets at or above the committed one, and committed offsets never go back. */
  lemma {:induction false} ReprocessingIsBounded(log: map<nat, seq<Record>>, st: State, s: Step)
    requires Inv(log, st) && Enabled(log, st, s)
    ensures s.Process? ==> st.fetched[0].offset >= Offset(st.committed, st.fetched[0].partition)
    ensures forall t :: Offset(st.committed, t) <= Offset(Next(log, st, s).committed, t)
    ensures st.broadcasts <= Next(log, st, s).broadcasts
  {
    if s.Process? { assert Window(st, st.fetched[0]); }
    if s.Commit? { CommitCovers(st.committed, st.position, st.done); }
  }

  /** A crash forgets everything but the committed offsets, from which the next incarnation starts. A commit that takes
      no effect leaves them where they were. */
  lemma {:induction false} CrashRewinds(log: map<nat, seq<Record>>, st: State)
    ensures Enabled(log, st, Crash)
    ensures var st' := Next(log, st, Crash);
            && st'.position == st'.committed == st.committed && st'.fetched == [] && st'.done == []
            && st'.broadcasts == st.broadcasts
    ensures Enabled(log, st, Commit(false)) ==> Next(log, st, Commit(false)) == st.(done := [])
  {
  }

  // ---------- the loop ----------

  /** The Broadcast call processRecord makes for a record, if any. */
  function Call(payload: Payload, place: Place): seq<Broadcast> {
    match Decode(payload)
    case Ok(event) => [Broadcast(event, payload, place)]
    case Err(_) => []
  }

  /** The Broadcast calls for the first n records of a batch. */
  function Calls(log: map<nat, seq<Record>>, batch: seq<Place>, n: nat): seq<Broadcast>
    requires n <= |batch|
  {
    if n == 0 then []
    else if !Holds(log, batch[n - 1]) then Calls(log, batch, n - 1)
    else Calls(log, batch, n - 1) + Call(At(log, batch[n - 1]).payload, batch[n - 1])
  }

  class Loop {
    var committed: map<nat, nat>
    var position: map<nat, nat>
    var fetched: seq<Place>
    var done: seq<Place>
    var broadcasts: seq<Broadcast>  // what hub.Broadcast has been called with
    ghost var heard: map<Place, nat>
    ghost var rejected: set<Place>

    ghost function V(): State
      reads this
    {
      State(committed, position, fetched, done, broadcasts, heard, rejected)
    }

    constructor ()
      ensures Initial(V())
    {
      committed, position, fetched, done, broadcasts := map[], map[], [], [], [];
      heard, rejected := map[], {};
    }

    /** Decode the next record and broadcast it; a record that does not decode is skipped. */
    method ProcessRecord(log: map<nat, seq<Record>>)
      requires Inv(log, V()) && fetched != []
      modifies this
      ensures Inv(log, V())
      ensures var place := old(fetched)[0];
              && Holds(log, place) && V() == Next(log, old(V()), Process)
              && fetched == old(fetched)[1..] && done == old(done) + [place]
              && broadcasts == old(broadcasts) + Call(At(log, place).payload, place)
              && (match Decode(At(log, place).payload)
                  case Ok(event) => broadcasts == old(broadcasts) + [Broadcast(event, At(log, place).payload, place)]
                  case Err(_) => broadcasts == old(broadcasts))
      ensures position == old(position) && committed == old(committed)
    {
      InFetched(log, V());
      StepInv(log, V(), Process);
      hide Inv, Advance, ValidFetch, CommitAll, Calls;
      var place := fetched[0];
      var payload := At(log, place).payload;
      fetched, done := fetched[1..], done + [place];
      match Decode(payload) {
        case Err(_) =>
          rejected := rejected + {place};
        case Ok(event) =>
          heard := heard[place := |broadcasts|];
          broadcasts := broadcasts + [Broadcast(event, payload, place)];
      }
    }

    /** EachRecord over one fetch. */
    method ProcessAll(log: map<nat, seq<Record>>, batch: seq<Place>)
      requires Inv(log, V()) && fetched == batch && done == []
      modifies this
      ensures Inv(log, V()) && fetched == [] && done == batch
      ensures broadcasts == old(broadcasts) + Calls(log, batch, |batch|)
      ensures position == old(position) && committed == old(committed)
    {
      hide Inv;
      var i := 0;
      while i < |batch|
        invariant 0 <= i <= |batch| && Inv(log, V())
        invariant fetched == batch[i..] && done == batch[..i]
        invariant broadcasts == old(broadcasts) + Calls(log, batch, i)
        invariant position == old(position) && committed == old(committed)
      {
        ProcessRecord(log);
        i := i + 1;
      }
      assert batch[..|batch|] == batch;
    }

    /** One round of consume: the fetched records are processed in order, each exactly once in this round, and only
        then are their offsets committed, if the commit takes effect. */
    method ConsumeOnce(log: map<nat, seq<Record>>, batch: seq<Place>, applied: bool)
      requires Inv(log, V()) && fetched == [] && done == [] && ValidFetch(log, position, batch)
      modifies this
      ensures Inv(log, V()) && fetched == [] && done == []
      ensures broadcasts == old(broadcasts) + Calls(log, batch, |batch|)
      ensures position == Advance(old(position), batch)
      ensures committed == if applied then CommitAll(old(committed), batch) else old(committed)
    {
      hide Inv;
      StepInv(log, V(), Poll(batch));
      position, fetched := Advance(position, batch), batch;
      ProcessAll(log, batch);
      if |batch| > 0 {
        StepInv(log, V(), Commit(applied));
        if applied { committed := CommitAll(committed, done); }
        done := [];
      }
    }
  }

  lemma {:induction false} InFetched(log: map<nat, seq<Record>>, st: State)
    requires Inv(log, st) && st.fetched != []
    ensures Holds(log, st.fetched[0])
  {
  }
}
