/** Any number of relay workers over one outbox table and the Kafka log, as protocol steps. A worker is sequential
    and may crash at any point, lose any reply, outlive its lease, or have a message appended late, twice, or
    despite an error. Only single SQL statements are atomic. */
module RelayProtocol {
  import opened Base
  import opened Events
  import opened Kafka
  import opened Outbox

  /** `skew` bounds how far a worker's clock may be from the database clock; 0 is a single clock. */
  datatype Params = Params(config: Config, skew: nat, partition: int -> nat)

  /** Where publishOne stands with the head of the batch. Failing holds the database time at which the worker read
      its clock, and what that clock showed. */
  datatype Stage = Ready | Sending | Acked | Failing(read: int, stamp: int)

  datatype Worker = Worker(batch: seq<Item>, stage: Stage)

  /** Besides the table, the workers' memory and the log: which messages were ever handed to the producer, the first
      place a row's message was appended at, and when the first recorded failure of a row was observed. */
  datatype State = State(
    rows: map<nat, Row>, workers: map<string, Worker>, sent: map<nat, Payload>,
    log: map<nat, seq<Record>>, placed: map<nat, Place>, firstFailure: map<nat, int>)

  datatype Step =
    | Insert(sequence: nat, payload: Payload, began: int)
    | Claim(worker: string, at: int, locked: set<nat>, batch: seq<Item>, replied: bool)
    | Send(worker: string)
    | Append(sequence: nat)
    | Ack(worker: string)
    | Refuse(worker: string, stamp: int)
    | Mark(worker: string, at: int, applied: bool)
    | Fail(worker: string, at: int, applied: bool)
    | Crash(worker: string)

  /** The partition of a message: its key is the project id. */
  function PartitionOf(p: Params, payload: Payload): nat {
    match Decode(payload)
    case Ok(event) => p.partition(event.projectId)
    case Err(_) => 0
  }

  ghost predicate Busy(st: State, w: string) {
    w in st.workers && st.workers[w].batch != []
  }

  ghost predicate Enabled(p: Params, st: State, now: int, s: Step) {
    match s
    case Insert(q, payload, began) => q !in st.rows && began <= now
    case Claim(w, at, locked, batch, replied) =>
      && w in st.workers && st.workers[w].batch == []
      && at <= now && Selected(st.rows, at, locked, p.config.batchSize, batch)
    case Send(w) => Busy(st, w) && st.workers[w].stage.Ready? && Decode(st.workers[w].batch[0].payload).Ok?
    case Append(q) => q in st.sent
    case Ack(w) => Busy(st, w) && st.workers[w].stage.Sending? && st.workers[w].batch[0].sequence in st.placed
    case Refuse(w, stamp) =>
      && Busy(st, w)
      && (st.workers[w].stage.Sending? || (st.workers[w].stage.Ready? && Decode(st.workers[w].batch[0].payload).Err?))
      && now - p.skew <= stamp <= now + p.skew
    case Mark(w, at, applied) => Busy(st, w) && st.workers[w].stage.Acked? && at <= now
    case Fail(w, at, applied) => Busy(st, w) && st.workers[w].stage.Failing? && st.workers[w].stage.read <= at <= now
    case Crash(w) => w in st.workers
  }

  function NextDelay(p: Params, item: Item): int {
    RetryDelay(item.attempts + 1, p.config.maxBackoff)
  }

  /** The row after the worker's failure update for the head of its batch. */
  function FailedRow(p: Params, r: Row, w: string, item: Item, stamp: int, at: int): Row {
    RecordFailure(r, w, stamp + NextDelay(p, item), item.attempts + 1 >= p.config.maxAttempts, at)
  }

  ghost function Next(p: Params, st: State, now: int, s: Step): State
    requires Enabled(p, st, now, s)
  {
    match s
    case Insert(q, payload, began) => st.(rows := st.rows[q := Inserted(payload, began)])
    case Claim(w, at, locked, batch, replied) =>
      st.(rows := ClaimAll(st.rows, Sequences(batch), w, at + LeaseLength(p.config)),
          workers := st.workers[w := Worker(if replied then batch else [], Ready)])
    case Send(w) =>
      var k := st.workers[w];
      st.(workers := st.workers[w := k.(stage := Sending)], sent := st.sent[k.batch[0].sequence := k.batch[0].payload])
    case Append(q) =>
      var partition := PartitionOf(p, st.sent[q]);
      st.(log := Stored(st.log, partition, Record(q, st.sent[q])),
          placed := if q in st.placed then st.placed else st.placed[q := Place(partition, |LogOf(st.log, partition)|)])
    case Ack(w) => st.(workers := st.workers[w := st.workers[w].(stage := Acked)])
    case Refuse(w, stamp) => st.(workers := st.workers[w := st.workers[w].(stage := Failing(now, stamp))])
    case Mark(w, at, applied) =>
      var k := st.workers[w];
      var q := k.batch[0].sequence;
      st.(rows := if applied && q in st.rows then st.rows[q := MarkPublished(st.rows[q], w, at)] else st.rows,
          workers := st.workers[w := Worker(k.batch[1..], Ready)])
    case Fail(w, at, applied) =>
      var k := st.workers[w];
      var q := k.batch[0].sequence;
      var effective := applied && q in st.rows;
      st.(rows := if effective then st.rows[q := FailedRow(p, st.rows[q], w, k.batch[0], k.stage.stamp, at)]
                  else st.rows,
          workers := st.workers[w := Worker(k.batch[1..], Ready)],
          firstFailure := if effective && HeldBy(st.rows[q], w) && q !in st.firstFailure
                          then st.firstFailure[q := k.stage.read] else st.firstFailure)
    case Crash(w) => st.(workers := st.workers[w := Worker([], Ready)])
  }

  /** Any number of idle workers over an empty table. */
  ghost predicate Initial(st: State) {
    && st.rows == map[] && st.sent == map[] && st.log == map[] && st.placed == map[] && st.firstFailure == map[]
    && (forall w :: w in st.workers ==> st.workers[w] == Worker([], Ready))
  }

  // ---------- the invariant ----------

  /** The back-off accumulated by n recorded failures, less the clock error of each. */
  function DelaySum(p: Params, n: nat): int {
    if n == 0 then 0 else DelaySum(p, n - 1) + RetryDelay(n, p.config.maxBackoff) - p.skew
  }

  ghost predicate RowOk(p: Params, now: int, q: nat, r: Row, placed: map<nat, Place>, first: map<nat, int>) {
    && r.attempts <= p.config.maxAttempts
    && (r.dead.Some? <==> r.attempts == p.config.maxAttempts)
    && !(r.published.Some? && r.dead.Some?)
    && (Settled(r) ==> r.lease.None?)
    && (r.lease.Some? ==> r.nextAttempt <= now && r.lease.value.until <= now + LeaseLength(p.config))
    && r.nextAttempt <= now + p.config.maxBackoff + p.skew
    && (r.published.Some? ==> q in placed)
    && (r.attempts > 0 <==> q in first)
    && (q in first ==> r.nextAttempt >= first[q] + DelaySum(p, r.attempts))
    && (q in first && r.dead.Some? ==> r.dead.value >= first[q] + DelaySum(p, r.attempts - 1))
  }

  /** A claimed item names a row with its payload; while the row is still leased to the worker, the item has its
      true attempt count. */
  ghost predicate ItemOk(rows: map<nat, Row>, w: string, item: Item) {
    && item.sequence in rows && item.payload == rows[item.sequence].payload
    && (HeldBy(rows[item.sequence], w) ==> item.attempts == rows[item.sequence].attempts)
  }

  ghost predicate StageOk(p: Params, now: int, rows: map<nat, Row>, placed: map<nat, Place>, w: string, k: Worker) {
    && (!k.stage.Ready? ==> k.batch != [] && k.batch[0].sequence in rows)
    && (k.stage.Acked? ==> k.batch[0].sequence in placed)
    && (k.stage.Failing? ==>
          && k.stage.read <= now && k.stage.read - p.skew <= k.stage.stamp <= k.stage.read + p.skew
          && (HeldBy(rows[k.batch[0].sequence], w) ==> rows[k.batch[0].sequence].nextAttempt <= k.stage.read))
  }

  ghost predicate WorkerOk(p: Params, now: int, rows: map<nat, Row>, placed: map<nat, Place>, w: string, k: Worker) {
    && Distinct(k.batch)
    && (forall i :: 0 <= i < |k.batch| ==> ItemOk(rows, w, k.batch[i]))
    && StageOk(p, now, rows, placed, w, k)
  }

  ghost predicate RecordOk(p: Params, rows: map<nat, Row>, partition: nat, r: Record) {
    && r.sequence in rows && r.payload == rows[r.sequence].payload
    && Decode(r.payload).Ok? && partition == PartitionOf(p, r.payload)
  }

  ghost predicate SentInv(rows: map<nat, Row>, sent: map<nat, Payload>) {
    forall q :: q in sent ==> q in rows && sent[q] == rows[q].payload && Decode(sent[q]).Ok?
  }

  ghost predicate RecordsInv(p: Params, rows: map<nat, Row>, log: map<nat, seq<Record>>) {
    forall t, o :: t in log && 0 <= o < |log[t]| ==> RecordOk(p, rows, t, log[t][o])
  }

  ghost predicate PlacedInv(log: map<nat, seq<Record>>, placed: map<nat, Place>) {
    forall q :: q in placed ==> Holds(log, placed[q]) && At(log, placed[q]).sequence == q
  }

  ghost predicate LogInv(p: Params, st: State) {
    SentInv(st.rows, st.sent) && RecordsInv(p, st.rows, st.log) && PlacedInv(st.log, st.placed)
  }

  ghost predicate RowsInv(p: Params, st: State, now: int) {
    forall q :: q in st.rows ==> RowOk(p, now, q, st.rows[q], st.placed, st.firstFailure)
  }

  ghost predicate WorkersInv(p: Params, st: State, now: int) {
    forall w :: w in st.workers ==> WorkerOk(p, now, st.rows, st.placed, w, st.workers[w])
  }

  ghost predicate Inv(p: Params, st: State, now: int) {
    && Usable(p.config)
    && (forall q :: q in st.firstFailure ==> q in st.rows)
    && RowsInv(p, st, now) && WorkersInv(p, st, now) && LogInv(p, st)
  }

  lemma {:induction false} InitialInv(p: Params, st: State, now: int)
    requires Usable(p.config) && Initial(st)
    ensures Inv(p, st, now)
  {
  }

  /** Time passing keeps the invariant. */
  lemma {:induction false} TickInv(p: Params, st: State, now: int, later: int)
    requires Inv(p, st, now) && now <= later
    ensures Inv(p, st, later)
  {
    forall q | q in st.rows
      ensures RowOk(p, later, q, st.rows[q], st.placed, st.firstFailure)
    {
      assert RowOk(p, now, q, st.rows[q], st.placed, st.firstFailure);
    }
    forall w | w in st.workers
      ensures WorkerOk(p, later, st.rows, st.placed, w, st.workers[w])
    {
      assert WorkerOk(p, now, st.rows, st.placed, w, st.workers[w]);
    }
  }

  lemma {:induction false} StepInv(p: Params, st: State, now: int, s: Step)
    requires Inv(p, st, now) && Enabled(p, st, now, s)
    ensures Inv(p, Next(p, st, now, s), now)
  {
    StepRows(p, st, now, s);
    StepWorkers(p, st, now, s);
    StepLog(p, st, now, s);
  }

  /** What one step may do to one row: the cases below are all of them. */
  lemma {:induction false} RowStep(p: Params, st: State, now: int, s: Step, q: nat)
    requires Inv(p, st, now) && Enabled(p, st, now, s) && q in st.rows
    ensures q in Next(p, st, now, s).rows
    ensures var r, r' := st.rows[q], Next(p, st, now, s).rows[q];
            || r' == r
            || (s.Claim? && q in Sequences(s.batch) && Eligible(r, s.at)
                && r' == Claimed(r, s.worker, s.at + LeaseLength(p.config)))
            || (s.Mark? && s.applied && HeldBy(r, s.worker) && st.workers[s.worker].batch[0].sequence == q
                && r' == MarkPublished(r, s.worker, s.at))
            || (s.Fail? && s.applied && HeldBy(r, s.worker) && st.workers[s.worker].batch[0].sequence == q
                && r' == FailedRow(p, r, s.worker, st.workers[s.worker].batch[0],
                                   st.workers[s.worker].stage.stamp, s.at))
  {
  }

  lemma {:induction false} StepRows(p: Params, st: State, now: int, s: Step)
    requires Inv(p, st, now) && Enabled(p, st, now, s)
    ensures RowsInv(p, Next(p, st, now, s), now)
    ensures forall q :: q in Next(p, st, now, s).firstFailure ==> q in Next(p, st, now, s).rows
  {
    hide WorkersInv, LogInv, DelaySum;
    var st' := Next(p, st, now, s);
    forall q | q in st'.rows
      ensures RowOk(p, now, q, st'.rows[q], st'.placed, st'.firstFailure)
    {
      if q in st.rows {
        RowStep(p, st, now, s, q);
        assert RowOk(p, now, q, st.rows[q], st.placed, st.firstFailure);
        if s.Fail? && st'.rows[q] != st.rows[q] {
          FailRow(p, st, now, s, q);
        } else if s.Mark? && st'.rows[q] != st.rows[q] {
          AckedIsPlaced(p, st, now, s.worker);
        }
      } else {
        DelaySumZero(p);
      }
    }
  }

  lemma {:induction false} AckedIsPlaced(p: Params, st: State, now: int, w: string)
    requires WorkersInv(p, st, now) && w in st.workers && st.workers[w].stage.Acked?
    ensures Busy(st, w) && st.workers[w].batch[0].sequence in st.placed
  {
    assert WorkerOk(p, now, st.rows, st.placed, w, st.workers[w]);
  }

  lemma {:induction false} DelaySumZero(p: Params)
    ensures DelaySum(p, 0) == 0
  {
  }

  /** A recorded failure: the worker still named in the lease counts correctly, so the row dies exactly at the
      last attempt, and the back-off bound grows by this attempt's delay. */
  lemma {:induction false} FailRow(p: Params, st: State, now: int, s: Step, q: nat)
    requires Inv(p, st, now) && Enabled(p, st, now, s) && s.Fail? && q in st.rows
    requires s.applied && HeldBy(st.rows[q], s.worker) && st.workers[s.worker].batch[0].sequence == q
    ensures RowOk(p, now, q, Next(p, st, now, s).rows[q], st.placed, Next(p, st, now, s).firstFailure)
  {
    hide LogInv;
    var k := st.workers[s.worker];
    var r := st.rows[q];
    assert WorkerOk(p, now, st.rows, st.placed, s.worker, k);
    assert ItemOk(st.rows, s.worker, k.batch[0]);
    assert RowOk(p, now, q, r, st.placed, st.firstFailure);
    RetryDelayShape(r.attempts + 1, p.config.maxBackoff);
    assert DelaySum(p, r.attempts + 1) == DelaySum(p, r.attempts) + NextDelay(p, k.batch[0]) - p.skew;
    DelaySumZero(p);
  }

  lemma {:induction false} StepWorkers(p: Params, st: State, now: int, s: Step)
    requires Inv(p, st, now) && Enabled(p, st, now, s)
    ensures WorkersInv(p, Next(p, st, now, s), now)
  {
    var st' := Next(p, st, now, s);
    forall w | w in st'.workers
      ensures WorkerOk(p, now, st'.rows, st'.placed, w, st'.workers[w])
    {
      if s.Claim? && s.worker == w {
        ClaimedItems(p, st, now, s);
      } else {
        ItemsKept(p, st, now, s, w);
        StageKept(p, st, now, s, w);
      }
    }
  }

  lemma {:induction false} ItemsKept(p: Params, st: State, now: int, s: Step, w: string)
    requires Inv(p, st, now) && Enabled(p, st, now, s) && w in Next(p, st, now, s).workers
    requires !(s.Claim? && s.worker == w)
    ensures var k' := Next(p, st, now, s).workers[w];
            Distinct(k'.batch) && forall i :: 0 <= i < |k'.batch| ==> ItemOk(Next(p, st, now, s).rows, w, k'.batch[i])
  {
    hide RowsInv, LogInv, StageOk;
    var k := st.workers[w];
    assert WorkerOk(p, now, st.rows, st.placed, w, k);
    forall i | 0 <= i < |k.batch|
      ensures ItemOk(Next(p, st, now, s).rows, w, k.batch[i])
    {
      assert ItemOk(st.rows, w, k.batch[i]);
      OtherRow(p, st, now, s, w, i);
    }
  }

  /** A fresh batch carries the payloads and counts of the rows it leased. */
  lemma {:induction false} ClaimedItems(p: Params, st: State, now: int, s: Step)
    requires Inv(p, st, now) && Enabled(p, st, now, s) && s.Claim?
    ensures Distinct(s.batch)
    ensures forall i :: 0 <= i < |s.batch| ==> ItemOk(Next(p, st, now, s).rows, s.worker, s.batch[i])
  {
  }

  /** A row a worker still has in its batch and still leases is not changed by anyone else's step; a row it no
      longer leases can be leased to it again only by its own claim, which waits for an empty batch. */
  lemma {:induction false} OtherRow(p: Params, st: State, now: int, s: Step, w: string, i: nat)
    requires Inv(p, st, now) && Enabled(p, st, now, s) && w in st.workers && i < |st.workers[w].batch|
    ensures var q := st.workers[w].batch[i].sequence;
            && q in st.rows && q in Next(p, st, now, s).rows
            && Next(p, st, now, s).rows[q].payload == st.rows[q].payload
            && (HeldBy(Next(p, st, now, s).rows[q], w) ==> HeldBy(st.rows[q], w))
            && (HeldBy(Next(p, st, now, s).rows[q], w) ==> Next(p, st, now, s).rows[q] == st.rows[q])
  {
    assert WorkerOk(p, now, st.rows, st.placed, w, st.workers[w]);
    assert ItemOk(st.rows, w, st.workers[w].batch[i]);
    RowStep(p, st, now, s, st.workers[w].batch[i].sequence);
  }

  lemma {:induction false} StageKept(p: Params, st: State, now: int, s: Step, w: string)
    requires Inv(p, st, now) && Enabled(p, st, now, s) && w in Next(p, st, now, s).workers
    requires !(s.Claim? && s.worker == w)
    ensures StageOk(p, now, Next(p, st, now, s).rows, Next(p, st, now, s).placed, w, Next(p, st, now, s).workers[w])
  {
    hide LogInv, DelaySum;
    var k, k' := st.workers[w], Next(p, st, now, s).workers[w];
    assert WorkerOk(p, now, st.rows, st.placed, w, k);
    if !k'.stage.Ready? {
      OtherRow(p, st, now, s, w, 0);
      if k'.stage.Failing? {
        var q := k.batch[0].sequence;
        assert RowOk(p, now, q, st.rows[q], st.placed, st.firstFailure);
      }
    }
  }

  lemma {:induction false} StepLog(p: Params, st: State, now: int, s: Step)
    requires Inv(p, st, now) && Enabled(p, st, now, s)
    ensures LogInv(p, Next(p, st, now, s))
  {
    forall q | q in st.rows
      ensures q in Next(p, st, now, s).rows && Next(p, st, now, s).rows[q].payload == st.rows[q].payload
    {
      RowStep(p, st, now, s, q);
    }
    SentKept(p, st, now, s);
    RecordsKept(p, st, now, s);
    PlacedKept(p, st, now, s);
  }

  lemma {:induction false} SentKept(p: Params, st: State, now: int, s: Step)
    requires WorkersInv(p, st, now) && SentInv(st.rows, st.sent) && Enabled(p, st, now, s)
    requires forall q :: q in st.rows ==>
        q in Next(p, st, now, s).rows && Next(p, st, now, s).rows[q].payload == st.rows[q].payload
    ensures SentInv(Next(p, st, now, s).rows, Next(p, st, now, s).sent)
  {
    if s.Send? {
      var k := st.workers[s.worker];
      assert WorkerOk(p, now, st.rows, st.placed, s.worker, k);
      assert ItemOk(st.rows, s.worker, k.batch[0]);
    }
  }

  lemma {:induction false} PlacedKept(p: Params, st: State, now: int, s: Step)
    requires PlacedInv(st.log, st.placed) && Enabled(p, st, now, s)
    ensures PlacedInv(Next(p, st, now, s).log, Next(p, st, now, s).placed)
  {
  }

  lemma {:induction false} RecordsKept(p: Params, st: State, now: int, s: Step)
    requires SentInv(st.rows, st.sent) && RecordsInv(p, st.rows, st.log) && Enabled(p, st, now, s)
    requires forall q :: q in st.rows ==>
        q in Next(p, st, now, s).rows && Next(p, st, now, s).rows[q].payload == st.rows[q].payload
    ensures RecordsInv(p, Next(p, st, now, s).rows, Next(p, st, now, s).log)
  {
    var st' := Next(p, st, now, s);
    forall t, o | t in st'.log && 0 <= o < |st'.log[t]|
      ensures RecordOk(p, st'.rows, t, st'.log[t][o])
    {
      if t in st.log && o < |st.log[t]| { assert RecordOk(p, st.rows, t, st.log[t][o]); }
    }
  }

  // ---------- what the invariant and the steps say ----------

  /** The row at the head of a worker's batch. */
  function Head(st: State, w: string): nat {
    if w in st.workers && st.workers[w].batch != [] then st.workers[w].batch[0].sequence else 0
  }

  /** The step is a worker's effective update of the row at the head of its batch. */
  ghost predicate RecordsOutcome(st: State, s: Step) {
    && (s.Mark? || s.Fail?) && s.applied
    && Busy(st, s.worker) && Head(st, s.worker) in st.rows && HeldBy(st.rows[Head(st, s.worker)], s.worker)
  }

  /** Fencing: while a lease has not expired, no step changes the row except an outcome recorded by the worker
      that holds it; in particular no step gives the row to another worker. */
  lemma {:induction false} LeaseFencing(p: Params, st: State, now: int, s: Step, q: nat, w: string)
    requires Inv(p, st, now) && Enabled(p, st, now, s)
    requires q in st.rows && HeldBy(st.rows[q], w) && now <= st.rows[q].lease.value.until
    ensures q in Next(p, st, now, s).rows
    ensures Next(p, st, now, s).rows[q] == st.rows[q] || (RecordsOutcome(st, s) && s.worker == w && Head(st, w) == q)
  {
    RowStep(p, st, now, s, q);
  }

  /** A claim grants what it selects: the lease is the worker's until its end, the row is otherwise unchanged, and the
      worker has the batch if the reply arrived. */
  lemma {:induction false} ClaimGrants(p: Params, st: State, now: int, s: Step, q: nat)
    requires Inv(p, st, now) && Enabled(p, st, now, s) && s.Claim? && q in Sequences(s.batch)
    ensures var st' := Next(p, st, now, s);
            && q in st.rows && q in st'.rows
            && st'.rows[q] == st.rows[q].(lease := Some(Lease(s.worker, s.at + LeaseLength(p.config))))
            && (forall t :: Eligible(st'.rows[q], t) <==>
                  st.rows[q].nextAttempt <= t && s.at + LeaseLength(p.config) < t)
            && st'.workers[s.worker] == Worker(if s.replied then s.batch else [], Ready)
  {
  }

  /** A worker whose row was taken over, settled or released changes nothing by recording an outcome. */
  lemma {:induction false} StaleOutcomeIsIgnored(p: Params, st: State, now: int, s: Step)
    requires Inv(p, st, now) && Enabled(p, st, now, s) && (s.Mark? || s.Fail?) && !RecordsOutcome(st, s)
    ensures Next(p, st, now, s).rows == st.rows && Next(p, st, now, s).firstFailure == st.firstFailure
  {
    IdleOutcome(p, st, now, s);
  }

  /** Published and dead rows never change again. */
  lemma {:induction false} SettledIsFinal(p: Params, st: State, now: int, s: Step, q: nat)
    requires Inv(p, st, now) && Enabled(p, st, now, s) && q in st.rows && Settled(st.rows[q])
    ensures q in Next(p, st, now, s).rows && Next(p, st, now, s).rows[q] == st.rows[q]
  {
    RowStep(p, st, now, s, q);
    assert RowOk(p, now, q, st.rows[q], st.placed, st.firstFailure);
  }

  /** Every record in the log is the message of its row, decodes, and lies in its project's partition. */
  lemma {:induction false} RecordIsRow(p: Params, st: State, place: Place)
    requires LogInv(p, st) && Holds(st.log, place)
    ensures RecordOk(p, st.rows, place.partition, At(st.log, place))
  {
  }

  lemma {:induction false} PlacedIsRow(p: Params, st: State, q: nat)
    requires LogInv(p, st) && q in st.placed
    ensures Holds(st.log, st.placed[q]) && At(st.log, st.placed[q]).sequence == q
    ensures q in st.rows && At(st.log, st.placed[q]) == Record(q, st.rows[q].payload)
    ensures Decode(st.rows[q].payload).Ok?
  {
    RecordIsRow(p, st, st.placed[q]);
  }

  /** A row dies no earlier than its first recorded failure plus the back-off of every attempt but the last. */
  lemma {:induction false} DeathIsLate(p: Params, st: State, now: int, q: nat)
    requires Inv(p, st, now) && q in st.rows && st.rows[q].dead.Some?
    ensures st.rows[q].attempts == p.config.maxAttempts && q in st.firstFailure
    ensures st.rows[q].dead.value >= st.firstFailure[q] + DelaySum(p, p.config.maxAttempts - 1)
  {
    assert RowOk(p, now, q, st.rows[q], st.placed, st.firstFailure);
  }

  /** With the defaults New fills in for an unset back-off and an unset number of attempts, and with one clock, the
      bound is 843 seconds. */
  lemma {:induction false} DefaultBackoff(p: Params, given: Config)
    requires New(given) == Ok(p.config) && given.maxBackoff <= 0 && given.maxAttempts < 1 && p.skew == 0
    ensures DelaySum(p, p.config.maxAttempts - 1) == 843_000_000_000
  {
    FirstDelays(p);
    CappedDelays(p, 19);
  }

  lemma {:induction false} FirstDelays(p: Params)
    requires p.skew == 0 && p.config.maxBackoff == 60 * SECOND
    ensures DelaySum(p, 6) == 63 * SECOND
  {
    assert DelaySum(p, 1) == SECOND;
    assert DelaySum(p, 2) == 3 * SECOND;
    assert DelaySum(p, 3) == 7 * SECOND;
    assert Pow2(3) == 8 && Pow2(4) == 16 && Pow2(5) == 32;
    assert DelaySum(p, 4) == 15 * SECOND;
    assert DelaySum(p, 5) == 31 * SECOND;
  }

  lemma {:induction false} CappedDelays(p: Params, n: nat)
    requires p.skew == 0 && p.config.maxBackoff == 60 * SECOND && n >= 6
    ensures DelaySum(p, n) == (63 + 60 * (n - 6)) * SECOND
  {
    if n == 6 {
      FirstDelays(p);
    } else {
      CappedDelays(p, n - 1);
      AtLeast64(if n - 1 < 10 then n - 1 else 10);
    }
  }

  lemma {:induction false} AtLeast64(n: nat)
    requires n >= 6
    ensures Pow2(n) >= 64
  {
    if n == 6 {
      assert Pow2(3) == 8;
      assert Pow2(5) == 32;
    } else {
      AtLeast64(n - 1);
    }
  }

  /** No pending row is stuck: whatever crashed, was lost or committed late, once the longer of the lease and the
      largest back-off has passed the row satisfies the claim predicate again. */
  lemma {:induction false} NoRowIsStuck(p: Params, st: State, now: int, q: nat, later: int)
    requires Inv(p, st, now) && q in st.rows && !Settled(st.rows[q])
    requires later > now + Max(LeaseLength(p.config), p.config.maxBackoff + p.skew)
    ensures Eligible(st.rows[q], later)
  {
    assert RowOk(p, now, q, st.rows[q], st.placed, st.firstFailure);
  }

  // ---------- recorded outcomes are finite ----------

  /** The attempts a row still has. */
  function Remaining(p: Params, r: Row): nat {
    if Settled(r) || r.attempts >= p.config.maxAttempts then 0 else p.config.maxAttempts - r.attempts
  }

  /** The attempts left over all rows below a sequence. */
  function Work(p: Params, rows: map<nat, Row>, top: nat): nat {
    if top == 0 then 0
    else Work(p, rows, top - 1) + if top - 1 in rows then Remaining(p, rows[top - 1]) else 0
  }

  lemma {:induction false} WorkSame(p: Params, a: map<nat, Row>, b: map<nat, Row>, top: nat)
    requires a.Keys == b.Keys
    requires forall q :: q in a && q < top ==> Remaining(p, a[q]) == Remaining(p, b[q])
    ensures Work(p, a, top) == Work(p, b, top)
  {
    if top > 0 { WorkSame(p, a, b, top - 1); }
  }

  lemma {:induction false} WorkUpdate(p: Params, rows: map<nat, Row>, q: nat, r: Row, top: nat)
    requires q in rows && q < top
    ensures Work(p, rows[q := r], top) == Work(p, rows, top) - Remaining(p, rows[q]) + Remaining(p, r)
  {
    if top - 1 == q {
      WorkSame(p, rows, rows[q := r], q);
    } else {
      WorkUpdate(p, rows, q, r, top - 1);
    }
  }

  /** No work is left exactly when every row is published or dead. */
  lemma {:induction false} NoWorkIff(p: Params, st: State, now: int, top: nat)
    requires Inv(p, st, now) && forall q :: q in st.rows ==> q < top
    ensures Work(p, st.rows, top) == 0 <==> Open(st.rows) == {}
  {
    WorkZero(p, st.rows, top);
    forall q | q in st.rows
      ensures Remaining(p, st.rows[q]) == 0 <==> Settled(st.rows[q])
    {
      assert RowOk(p, now, q, st.rows[q], st.placed, st.firstFailure);
    }
    hide Inv, Work;
    assert Open(st.rows) == {} <==> forall q :: q in st.rows ==> Settled(st.rows[q]) by {
      assert forall q :: q in Open(st.rows) <==> q in st.rows && !Settled(st.rows[q]);
    }
  }

  lemma {:induction false} WorkZero(p: Params, rows: map<nat, Row>, top: nat)
    ensures Work(p, rows, top) == 0 <==> forall q :: q in rows && q < top ==> Remaining(p, rows[q]) == 0
  {
    if top > 0 { WorkZero(p, rows, top - 1); }
  }

  /** Every recorded outcome strictly decreases the work left, and no other step but a new row's commit changes it. */
  lemma {:induction false} OutcomesUseUpWork(p: Params, st: State, now: int, s: Step, top: nat)
    requires Inv(p, st, now) && Enabled(p, st, now, s) && !s.Insert?
    requires forall q :: q in st.rows ==> q < top
    ensures if RecordsOutcome(st, s) then Work(p, Next(p, st, now, s).rows, top) < Work(p, st.rows, top)
            else Work(p, Next(p, st, now, s).rows, top) == Work(p, st.rows, top)
  {
    if RecordsOutcome(st, s) {
      OutcomeUsesWork(p, st, now, s, top);
    } else if s.Mark? || s.Fail? {
      IdleOutcome(p, st, now, s);
    } else {
      WorkSame(p, st.rows, Next(p, st, now, s).rows, top);
    }
  }

  lemma {:induction false} IdleOutcome(p: Params, st: State, now: int, s: Step)
    requires WorkersInv(p, st, now) && Enabled(p, st, now, s) && (s.Mark? || s.Fail?) && !RecordsOutcome(st, s)
    ensures Next(p, st, now, s).rows == st.rows && Next(p, st, now, s).firstFailure == st.firstFailure
  {
    assert WorkerOk(p, now, st.rows, st.placed, s.worker, st.workers[s.worker]);
  }

  lemma {:induction false} OutcomeUsesWork(p: Params, st: State, now: int, s: Step, top: nat)
    requires Inv(p, st, now) && Enabled(p, st, now, s) && RecordsOutcome(st, s)
    requires forall q :: q in st.rows ==> q < top
    ensures Work(p, Next(p, st, now, s).rows, top) < Work(p, st.rows, top)
  {
    var q := Head(st, s.worker);
    assert RowOk(p, now, q, st.rows[q], st.placed, st.firstFailure);
    WorkUpdate(p, st.rows, q, Next(p, st, now, s).rows[q], top);
  }
}
