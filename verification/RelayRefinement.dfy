/** What the Relay class computes for a whole batch is a run of the relay protocol, with the workers interleaved in one
    particular way. So whatever the protocol keeps, the class keeps. */
module RelayRefinement {
  import opened Base
  import opened Events
  import opened Kafka
  import opened Outbox
  import opened RelayProtocol

  /** A protocol step and the database time at which it happens. */
  datatype Move = Move(now: int, step: Step)

  /** The state after some moves, if each of them is enabled when its turn comes and time does not run backwards. */
  ghost function After(p: Params, st: State, from: int, moves: seq<Move>): Option<State> {
    if moves == [] then Some(st)
    else
      var front, last := moves[..|moves| - 1], moves[|moves| - 1];
      match After(p, st, from, front)
      case None => None
      case Some(mid) =>
        if Clock(from, front) <= last.now && Enabled(p, mid, last.now, last.step)
        then Some(Next(p, mid, last.now, last.step)) else None
  }

  /** Only workers move: nothing is inserted. */
  ghost predicate WorkersOnly(moves: seq<Move>) {
    forall k :: 0 <= k < |moves| ==> !moves[k].step.Insert?
  }

  function Clock(from: int, moves: seq<Move>): int {
    if moves == [] then from else moves[|moves| - 1].now
  }

  /** The invariant at the end of the moves. */
  lemma {:induction false} AfterInv(p: Params, st: State, from: int, moves: seq<Move>)
    requires Inv(p, st, from) && After(p, st, from, moves).Some?
    ensures Inv(p, After(p, st, from, moves).value, Clock(from, moves))
  {
    hide Inv, Enabled, Next;
    if moves != [] {
      var front, last := moves[..|moves| - 1], moves[|moves| - 1];
      AfterInv(p, st, from, front);
      var mid := After(p, st, from, front).value;
      TickInv(p, mid, Clock(from, front), last.now);
      StepInv(p, mid, last.now, last.step);
    }
  }

  lemma {:induction false} AfterSnoc(p: Params, st: State, from: int, moves: seq<Move>, mid: State, m: Move)
    requires After(p, st, from, moves) == Some(mid) && Clock(from, moves) <= m.now && Enabled(p, mid, m.now, m.step)
    ensures After(p, st, from, moves + [m]) == Some(Next(p, mid, m.now, m.step)) && Clock(from, moves + [m]) == m.now
  {
    hide Enabled, Next;
    assert (moves + [m])[..|moves|] == moves;
  }

  /** The log after one publishOne call. */
  function LogAfter(p: Params, log: map<nat, seq<Record>>, item: Item, a: Attempt): map<nat, seq<Record>> {
    if Decode(item.payload).Ok? && a.appended
    then Stored(log, PartitionOf(p, item.payload), Record(item.sequence, item.payload)) else log
  }

  /** The worker's configuration: the shared settings under its own name. */
  function ConfigOf(p: Params, w: string): Config {
    p.config.(workerId := w)
  }

  /** How far a worker has come: what is left of its batch, the table, and the log. */
  ghost predicate Reached(st: State, w: string, batch: seq<Item>, rows: map<nat, Row>, log: map<nat, seq<Record>>) {
    w in st.workers && st.workers[w] == Worker(batch, Ready) && st.rows == rows && st.log == log
  }

  /** publishOne on the head of the batch, as protocol steps. */
  lemma {:induction false} PublishIsMoves(
    p: Params, st: State, from: int, moves: seq<Move>, mid: State, w: string, a: Attempt)
    returns (more: seq<Move>, st': State)
    requires After(p, st, from, moves) == Some(mid) && Clock(from, moves) <= a.now && Honest(a)
    requires Busy(mid, w) && mid.workers[w].stage.Ready? && mid.workers[w].batch[0].sequence in mid.rows
    ensures After(p, st, from, more) == Some(st') && Clock(from, more) == a.now
    ensures WorkersOnly(moves) ==> WorkersOnly(more)
    ensures var item := mid.workers[w].batch[0];
            var row := AfterPublish(ConfigOf(p, w), item, mid.rows[item.sequence], a);
            Reached(st', w, mid.workers[w].batch[1..], mid.rows[item.sequence := row], LogAfter(p, mid.log, item, a))
  {
    var item := mid.workers[w].batch[0];
    if Decode(item.payload).Err? {
      more, st' := FailIsMoves(p, st, from, moves, mid, w, a);
    } else {
      var sent: State;
      more, sent := SendIsMoves(p, st, from, moves, mid, w, a);
      if a.acked {
        more, st' := MarkIsMoves(p, st, from, more, sent, w, a);
      } else {
        more, st' := FailIsMoves(p, st, from, more, sent, w, a);
      }
    }
  }

  /** Handing the message to the producer, which may append it. */
  lemma {:induction false} SendIsMoves(
    p: Params, st: State, from: int, moves: seq<Move>, mid: State, w: string, a: Attempt)
    returns (more: seq<Move>, st': State)
    requires After(p, st, from, moves) == Some(mid) && Clock(from, moves) <= a.now
    requires Busy(mid, w) && mid.workers[w].stage.Ready? && Decode(mid.workers[w].batch[0].payload).Ok?
    ensures After(p, st, from, more) == Some(st') && Clock(from, more) == a.now
    ensures WorkersOnly(moves) ==> WorkersOnly(more)
    ensures w in st'.workers && st'.workers[w] == mid.workers[w].(stage := Sending) && st'.rows == mid.rows
    ensures st'.log == LogAfter(p, mid.log, mid.workers[w].batch[0], a)
    ensures a.appended ==> mid.workers[w].batch[0].sequence in st'.placed
  {
    var q := mid.workers[w].batch[0].sequence;
    AfterSnoc(p, st, from, moves, mid, Move(a.now, Send(w)));
    more, st' := moves + [Move(a.now, Send(w))], Next(p, mid, a.now, Send(w));
    if a.appended {
      AfterSnoc(p, st, from, more, st', Move(a.now, Append(q)));
      more, st' := more + [Move(a.now, Append(q))], Next(p, st', a.now, Append(q));
    }
  }

  lemma {:induction false} MarkIsMoves(
    p: Params, st: State, from: int, moves: seq<Move>, mid: State, w: string, a: Attempt)
    returns (more: seq<Move>, st': State)
    requires After(p, st, from, moves) == Some(mid) && Clock(from, moves) <= a.now
    requires Busy(mid, w) && mid.workers[w].stage.Sending? && mid.workers[w].batch[0].sequence in mid.placed
    requires mid.workers[w].batch[0].sequence in mid.rows
    ensures After(p, st, from, more) == Some(st') && Clock(from, more) == a.now
    ensures WorkersOnly(moves) ==> WorkersOnly(more)
    ensures var q := mid.workers[w].batch[0].sequence;
            var row := if a.applied then MarkPublished(mid.rows[q], w, a.now) else mid.rows[q];
            Reached(st', w, mid.workers[w].batch[1..], mid.rows[q := row], mid.log)
  {
    AfterSnoc(p, st, from, moves, mid, Move(a.now, Ack(w)));
    more, st' := moves + [Move(a.now, Ack(w))], Next(p, mid, a.now, Ack(w));
    AfterSnoc(p, st, from, more, st', Move(a.now, Mark(w, a.now, a.applied)));
    more, st' := more + [Move(a.now, Mark(w, a.now, a.applied))], Next(p, st', a.now, Mark(w, a.now, a.applied));
    var q := mid.workers[w].batch[0].sequence;
    assert !a.applied ==> st'.rows == mid.rows[q := mid.rows[q]];
  }

  lemma {:induction false} FailIsMoves(
    p: Params, st: State, from: int, moves: seq<Move>, mid: State, w: string, a: Attempt)
    returns (more: seq<Move>, st': State)
    requires After(p, st, from, moves) == Some(mid) && Clock(from, moves) <= a.now
    requires Busy(mid, w) && mid.workers[w].batch[0].sequence in mid.rows
    requires mid.workers[w].stage.Sending?
        || (mid.workers[w].stage.Ready? && Decode(mid.workers[w].batch[0].payload).Err?)
    ensures After(p, st, from, more) == Some(st') && Clock(from, more) == a.now
    ensures WorkersOnly(moves) ==> WorkersOnly(more)
    ensures var item := mid.workers[w].batch[0];
            var row := if !a.applied then mid.rows[item.sequence]
                       else FailedRow(p, mid.rows[item.sequence], w, item, a.now, a.now);
            Reached(st', w, mid.workers[w].batch[1..], mid.rows[item.sequence := row], mid.log)
  {
    AfterSnoc(p, st, from, moves, mid, Move(a.now, Refuse(w, a.now)));
    more, st' := moves + [Move(a.now, Refuse(w, a.now))], Next(p, mid, a.now, Refuse(w, a.now));
    AfterSnoc(p, st, from, more, st', Move(a.now, Fail(w, a.now, a.applied)));
    more, st' := more + [Move(a.now, Fail(w, a.now, a.applied))], Next(p, st', a.now, Fail(w, a.now, a.applied));
    var q := mid.workers[w].batch[0].sequence;
    assert !a.applied ==> st'.rows == mid.rows[q := mid.rows[q]];
  }

  /** The log after the first n publishOne calls of a batch. */
  function LogsAfter(p: Params, log: map<nat, seq<Record>>, batch: seq<Item>, attempts: seq<Attempt>, n: nat)
    : map<nat, seq<Record>>
    requires n <= |batch| <= |attempts|
  {
    if n == 0 then log else LogAfter(p, LogsAfter(p, log, batch, attempts, n - 1), batch[n - 1], attempts[n - 1])
  }

  function Payloads(records: seq<Record>): seq<Payload> {
    if records == [] then [] else Payloads(records[..|records| - 1]) + [records[|records| - 1].payload]
  }

  /** The messages of one partition, in order. */
  function InPartition(p: Params, messages: seq<Payload>, partition: nat): seq<Payload> {
    if messages == [] then []
    else
      var last := messages[|messages| - 1];
      InPartition(p, messages[..|messages| - 1], partition) + if PartitionOf(p, last) == partition then [last] else []
  }

  /** What the class says it produced is what the protocol appended: each message once, in its project's partition, in
      the order of the batch. */
  lemma {:induction false} ProducedIsLogged(
    p: Params, log: map<nat, seq<Record>>, batch: seq<Item>, attempts: seq<Attempt>, n: nat, partition: nat)
    requires n <= |batch| <= |attempts|
    ensures Payloads(LogOf(LogsAfter(p, log, batch, attempts, n), partition))
         == Payloads(LogOf(log, partition)) + InPartition(p, SentBy(batch, attempts, n), partition)
  {
    hide Payloads, LogOf, LogAfter, Sent;
    if n == 0 {
      assert InPartition(p, [], partition) == [];
    } else {
      ProducedIsLogged(p, log, batch, attempts, n - 1, partition);
      hide InPartition;
      OneMoreIsLogged(p, LogsAfter(p, log, batch, attempts, n - 1), SentBy(batch, attempts, n - 1), batch[n - 1],
                      attempts[n - 1], partition);
    }
  }

  lemma {:induction false} OneMoreIsLogged(
    p: Params, log: map<nat, seq<Record>>, sent: seq<Payload>, item: Item, a: Attempt, partition: nat)
    ensures InPartition(p, sent + Sent(item, a), partition)
         == InPartition(p, sent, partition) + InPartition(p, Sent(item, a), partition)
    ensures Payloads(LogOf(LogAfter(p, log, item, a), partition))
         == Payloads(LogOf(log, partition)) + InPartition(p, Sent(item, a), partition)
  {
    assert |Sent(item, a)| <= 1;
    hide InPartition, Payloads, LogOf, LogAfter, Sent;
    OneIsLogged(p, log, item, a, partition);
    InPartitionJoin(p, sent, Sent(item, a), partition);
  }

  lemma {:induction false} OneIsLogged(
    p: Params, log: map<nat, seq<Record>>, item: Item, a: Attempt, partition: nat)
    ensures Payloads(LogOf(LogAfter(p, log, item, a), partition))
         == Payloads(LogOf(log, partition)) + InPartition(p, Sent(item, a), partition)
  {
    hide PartitionOf, Decode;
    if Decode(item.payload).Ok? && a.appended {
      var records, record := LogOf(log, partition), Record(item.sequence, item.payload);
      assert (records + [record])[..|records|] == records;
      assert [item.payload][..0] == [];
    }
  }

  /** At most one more message. */
  lemma {:induction false} InPartitionJoin(p: Params, sent: seq<Payload>, more: seq<Payload>, partition: nat)
    requires |more| <= 1
    ensures InPartition(p, sent + more, partition) == InPartition(p, sent, partition) + InPartition(p, more, partition)
  {
    hide PartitionOf;
    if more == [] {
      assert sent + more == sent;
    } else {
      assert (sent + more)[..|sent|] == sent && more[..0] == [];
    }
  }

  /** The attempts take place one after the other. */
  ghost predicate InOrder(from: int, attempts: seq<Attempt>) {
    && (forall i :: 0 <= i < |attempts| ==> from <= attempts[i].now)
    && (forall i, j :: 0 <= i < j < |attempts| ==> attempts[i].now <= attempts[j].now)
  }

  /** The first n publishOne calls after a claim. */
  lemma {:induction false} CallsAreMoves(
    p: Params, st: State, now: int, claim: Move, claimed: State, w: string, batch: seq<Item>,
    attempts: seq<Attempt>, n: nat)
    returns (moves: seq<Move>, st': State)
    requires After(p, st, now, [claim]) == Some(claimed) && claim.now == now
    requires w in claimed.workers && claimed.workers[w] == Worker(batch, Ready) && Known(batch, claimed.rows)
    requires n <= |batch| <= |attempts| && AllHonest(attempts) && InOrder(now, attempts)
    ensures After(p, st, now, moves) == Some(st') && (!claim.step.Insert? ==> WorkersOnly(moves))
    ensures Clock(now, moves) == if n == 0 then now else attempts[n - 1].now
    ensures Reached(st', w, batch[n..], PublishRows(ConfigOf(p, w), claimed.rows, batch, attempts, n),
               LogsAfter(p, claimed.log, batch, attempts, n))
  {
    if n == 0 {
      moves, st' := [claim], claimed;
    } else {
      moves, st' := CallsAreMoves(p, st, now, claim, claimed, w, batch, attempts, n - 1);
      assert batch[n - 1..][0] == batch[n - 1] && batch[n - 1..][1..] == batch[n..];
      hide After, Enabled, Next, AfterPublish;
      moves, st' := PublishIsMoves(p, st, now, moves, st', w, attempts[n - 1]);
    }
  }

  /** A whole runBatch of an idle worker: the table and the log it leaves are those of a run of the protocol. */
  lemma {:induction false} RunBatchIsAProtocolRun(
    p: Params, st: State, now: int, w: string, locked: set<nat>, batch: seq<Item>, attempts: seq<Attempt>)
    returns (moves: seq<Move>, st': State)
    requires w in st.workers && st.workers[w].batch == []
    requires Selected(st.rows, now, locked, p.config.batchSize, batch)
    requires |batch| <= |attempts| && AllHonest(attempts) && InOrder(now, attempts)
    ensures After(p, st, now, moves) == Some(st') && w in st'.workers && st'.workers[w].batch == []
    ensures WorkersOnly(moves) && Clock(now, moves) == if batch == [] then now else attempts[|batch| - 1].now
    ensures var leased := ClaimAll(st.rows, Sequences(batch), w, now + LeaseLength(p.config));
            && st'.rows == PublishRows(ConfigOf(p, w), leased, batch, attempts, |batch|)
            && st'.log == LogsAfter(p, st.log, batch, attempts, |batch|)
  {
    var claim := Move(now, Claim(w, now, locked, batch, true));
    AfterSnoc(p, st, now, [], st, claim);
    assert [] + [claim] == [claim];
    var claimed := Next(p, st, now, claim.step);
    SelectedFits(st.rows, now, locked, p.config.batchSize, batch);
    hide After;
    moves, st' := CallsAreMoves(p, st, now, claim, claimed, w, batch, attempts, |batch|);
  }
}
