/** The outbox table and the relay of internal/outbox/relay.go: the claim scan, the conditional updates
    that follow a publish, the retry delay and one batch. Times and durations are in nanoseconds. */
module Outbox {
  import opened Base
  import opened Events

  const SECOND := 1_000_000_000

  datatype Lease = Lease(worker: string, until: int)

  /** One row of outbox_events. claimed_by and claim_until are always written together. */
  datatype Row = Row(
    payload: Payload, published: Option<int>, dead: Option<int>, attempts: nat, nextAttempt: int, lease: Option<Lease>)

  datatype Item = Item(sequence: nat, payload: Payload, attempts: nat)

  // ---------- configuration ----------

  datatype Config = Config(workerId: string, batchSize: int, claimFor: int, maxBackoff: int, maxAttempts: int)

  datatype ConfigError = MissingWorkerId

  /** The defaulting done by New. */
  function New(config: Config): Result<Config, ConfigError> {
    if config.workerId == "" then Err(MissingWorkerId)
    else Ok(config.(
      batchSize := if config.batchSize < 1 then 100 else config.batchSize,
      claimFor := if config.claimFor <= 0 then 30 * SECOND else config.claimFor,
      maxBackoff := if config.maxBackoff <= 0 then 60 * SECOND else config.maxBackoff,
      maxAttempts := if config.maxAttempts < 1 then 20 else config.maxAttempts))
  }

  /** New accepts every configuration that names the worker, keeps what is set, and fills in what is unset: batches of
      100, leases of 30 seconds, delays up to a minute, 20 attempts. */
  lemma {:induction false} NewDefaults(config: Config)
    ensures New(config).Ok? <==> config.workerId != ""
    ensures New(config).Ok? ==> Usable(New(config).value) && New(New(config).value) == New(config)
    ensures Usable(config) ==> New(config) == Ok(config)
    ensures New(config).Ok? ==>
              && New(config).value.workerId == config.workerId
              && (config.batchSize >= 1 ==> New(config).value.batchSize == config.batchSize)
              && (config.claimFor > 0 ==> New(config).value.claimFor == config.claimFor)
              && (config.maxBackoff > 0 ==> New(config).value.maxBackoff == config.maxBackoff)
              && (config.maxAttempts >= 1 ==> New(config).value.maxAttempts == config.maxAttempts)
    ensures New(Config("worker", 0, 0, 0, 0)) == Ok(Config("worker", 100, 30_000_000_000, 60_000_000_000, 20))
    ensures New(Config("worker", -1, -1, -1, -1)) == New(Config("worker", 0, 0, 0, 0))
  {
  }

  predicate Usable(config: Config) {
    && config.workerId != "" && config.batchSize >= 1
    && config.claimFor > 0 && config.maxBackoff > 0 && config.maxAttempts >= 1
  }

  /** The lease the claim statement writes: whole seconds, rounded down. */
  function LeaseLength(config: Config): int {
    config.claimFor / SECOND * SECOND
  }

  /** The lease is a number of whole seconds, less than a second short of what was asked for. */
  lemma {:induction false} LeaseLengthShape(config: Config)
    requires config.claimFor > 0
    ensures LeaseLength(config) % 1_000_000_000 == 0
    ensures 0 <= config.claimFor - LeaseLength(config) < 1_000_000_000
  {
  }

  // ---------- retry delay ----------

  function Pow2(n: nat): int {
    if n == 0 then 1 else 2 * Pow2(n - 1)
  }

  function RetryDelay(attempt: int, maximum: int): int {
    var a := if attempt < 1 then 1 else attempt;
    var exponent := if a - 1 < 10 then a - 1 else 10;
    var delay := Pow2(exponent) * SECOND;
    if delay > maximum then maximum else delay
  }

  /** The delay starts at one second, doubles with each attempt up to 1024 seconds, never exceeds the maximum
      and never shrinks. */
  lemma {:induction false} RetryDelayShape(attempt: int, maximum: int)
    requires maximum > 0
    ensures 0 < RetryDelay(attempt, maximum) <= maximum
    ensures attempt <= 1 ==> RetryDelay(attempt, maximum) == if 1_000_000_000 > maximum then maximum else 1_000_000_000
    ensures 1 <= attempt <= 10 ==>
              RetryDelay(attempt + 1, maximum)
                == if 2 * RetryDelay(attempt, maximum) > maximum then maximum else 2 * RetryDelay(attempt, maximum)
    ensures attempt >= 11 ==> RetryDelay(attempt, maximum) == RetryDelay(11, maximum)
    ensures RetryDelay(attempt, maximum) <= RetryDelay(attempt + 1, maximum)
  {
    var a := if attempt < 1 then 1 else attempt;
    Pow2Positive(if a - 1 < 10 then a - 1 else 10);
  }

  lemma {:induction false} Pow2Positive(n: nat)
    ensures Pow2(n) >= 1
  {
    if n > 0 { Pow2Positive(n - 1); }
  }

  // ---------- the statements ----------

  predicate Settled(r: Row) {
    r.published.Some? || r.dead.Some?
  }

  predicate Eligible(r: Row, now: int) {
    !Settled(r) && r.nextAttempt <= now && (r.lease.Some? ==> r.lease.value.until < now)
  }

  predicate HeldBy(r: Row, worker: string) {
    r.lease.Some? && r.lease.value.worker == worker
  }

  function Inserted(payload: Payload, began: int): Row {
    Row(payload, None, None, 0, began, None)
  }

  function Claimed(r: Row, worker: string, until: int): Row {
    r.(lease := Some(Lease(worker, until)))
  }

  /** UPDATE ... SET published_at = now() ... WHERE claimed_by = worker AND published_at IS NULL */
  function MarkPublished(r: Row, worker: string, now: int): Row {
    if HeldBy(r, worker) && r.published.None? then r.(published := Some(now), lease := None) else r
  }

  /** UPDATE ... SET attempt_count = attempt_count + 1 ... WHERE claimed_by = worker AND published_at IS NULL */
  function RecordFailure(r: Row, worker: string, next: int, dead: bool, now: int): Row {
    if HeldBy(r, worker) && r.published.None?
    then r.(attempts := r.attempts + 1, nextAttempt := next, lease := None, dead := if dead then Some(now) else r.dead)
    else r
  }

  /** The WHERE clause of both updates. */
  predicate Owned(rows: map<nat, Row>, sequence: nat, worker: string) {
    sequence in rows && HeldBy(rows[sequence], worker) && rows[sequence].published.None?
  }

  /** A recorded outcome is recorded once: it ends the lease, so until the next claim a second outcome, of this or
      any other worker, changes nothing. */
  lemma {:induction false} OutcomeOnce(r: Row, worker: string, w: string, next: int, dead: bool, now: int, later: int)
    requires HeldBy(r, worker) && r.published.None?
    ensures forall done :: done in {MarkPublished(r, worker, now), RecordFailure(r, worker, next, dead, now)} ==>
              done != r && MarkPublished(done, w, later) == done && RecordFailure(done, w, next, dead, later) == done
  {
    assert RecordFailure(r, worker, next, dead, now).lease.None?;
    assert MarkPublished(r, worker, now).lease.None?;
  }

  /** A row of a committed transaction waits for its first attempt from the start of the transaction on. */
  lemma {:induction false} NewRowIsEligible(payload: Payload, began: int, t: int)
    ensures Eligible(Inserted(payload, began), t) <==> began <= t
    ensures Inserted(payload, began).attempts == 0 && Inserted(payload, began).payload == payload
  {
  }

  /** A claim gives the row to the worker, and to nobody else until the lease has passed. */
  lemma {:induction false} ClaimHolds(r: Row, worker: string, until: int, w: string, t: int)
    requires !Settled(r)
    ensures HeldBy(Claimed(r, worker, until), w) <==> w == worker
    ensures Eligible(Claimed(r, worker, until), t) <==> r.nextAttempt <= t && until < t
    ensures Claimed(r, worker, until).(lease := r.lease) == r
  {
  }

  function ItemOf(s: nat, r: Row): Item {
    Item(s, r.payload, r.attempts)
  }

  function Candidates(rows: map<nat, Row>, now: int, locked: set<nat>): set<nat> {
    set s | s in rows && s !in locked && Eligible(rows[s], now)
  }

  /** The rows the claim statement selects: as many of the smallest unlocked eligible sequences as fit. */
  ghost predicate IsBatch(rows: map<nat, Row>, now: int, locked: set<nat>, limit: int, batch: set<nat>) {
    && batch <= Candidates(rows, now, locked)
    && |batch| <= limit
    && (|batch| < limit ==> batch == Candidates(rows, now, locked))
    && (forall s, c :: s in batch && c in Candidates(rows, now, locked) && c !in batch ==> s < c)
  }

  function ClaimAll(rows: map<nat, Row>, batch: set<nat>, worker: string, until: int): map<nat, Row> {
    map s | s in rows :: if s in batch then Claimed(rows[s], worker, until) else rows[s]
  }

  /** The selection is determined: there is only one such batch. */
  lemma {:induction false} BatchUnique(
    rows: map<nat, Row>, now: int, locked: set<nat>, limit: int, a: set<nat>, b: set<nat>)
    requires IsBatch(rows, now, locked, limit, a) && IsBatch(rows, now, locked, limit, b)
    ensures a == b
  {
    BatchIncluded(rows, now, locked, limit, a, b);
    BatchIncluded(rows, now, locked, limit, b, a);
  }

  lemma {:induction false} BatchIncluded(
    rows: map<nat, Row>, now: int, locked: set<nat>, limit: int, a: set<nat>, b: set<nat>)
    requires IsBatch(rows, now, locked, limit, a) && IsBatch(rows, now, locked, limit, b)
    ensures a <= b
  {
    forall x | x in a
      ensures x in b
    {
      if x !in b {
        assert b <= a;
        Smaller(b, a);
      }
    }
  }

  lemma {:induction false} Smaller(a: set<nat>, b: set<nat>)
    requires a < b
    ensures |a| < |b|
  {
    var x :| x in b && x !in a;
    assert a <= b - {x};
    SubsetSize(a, b - {x});
  }

  lemma {:induction false} SubsetSize<T>(a: set<T>, b: set<T>)
    requires a <= b
    ensures |a| <= |b|
    decreases a
  {
    if a != {} {
      var x :| x in a;
      SubsetSize(a - {x}, b - {x});
    }
  }

  function Sequences(items: seq<Item>): set<nat> {
    set i | 0 <= i < |items| :: items[i].sequence
  }

  ghost predicate Distinct(items: seq<Item>) {
    forall i, j :: 0 <= i < j < |items| ==> items[i].sequence != items[j].sequence
  }

  ghost predicate ItemsOf(items: seq<Item>, rows: map<nat, Row>) {
    forall k :: 0 <= k < |items| ==>
      items[k].sequence in rows && items[k] == ItemOf(items[k].sequence, rows[items[k].sequence])
  }

  /** The claim statement's result: the selected rows, each once, as they were before the lease was written. */
  ghost predicate Selected(rows: map<nat, Row>, now: int, locked: set<nat>, limit: int, batch: seq<Item>) {
    Distinct(batch) && IsBatch(rows, now, locked, limit, Sequences(batch)) && ItemsOf(batch, rows)
  }

  /** May the claim statement take this row? Column by column. */
  predicate Claimable(r: Row, now: int) {
    && r.published.None? && r.dead.None? && r.nextAttempt <= now
    && (r.lease.None? || r.lease.value.until < now)
  }

  /** What is selected and what is not: only claimable rows nobody else holds locked, at most `limit` of them, each with
      its payload and attempts; and whatever claimable row is left out comes after all of them, the batch being full. */
  lemma {:induction false} SelectedMeans(rows: map<nat, Row>, now: int, locked: set<nat>, limit: int, batch: seq<Item>)
    requires Selected(rows, now, locked, limit, batch)
    ensures |batch| <= limit && Distinct(batch)
    ensures forall k :: 0 <= k < |batch| ==>
              var s := batch[k].sequence;
              && s in rows && s !in locked && Claimable(rows[s], now)
              && batch[k].payload == rows[s].payload && batch[k].attempts == rows[s].attempts
    ensures forall s :: s in rows && s !in locked && Claimable(rows[s], now) && s !in Sequences(batch) ==>
              |batch| == limit && forall k :: 0 <= k < |batch| ==> batch[k].sequence < s
  {
    BatchFits(batch);
    forall k | 0 <= k < |batch|
      ensures batch[k].sequence in Sequences(batch) && batch[k].sequence in Candidates(rows, now, locked)
    {
    }
    forall s | s in rows && s !in locked && Claimable(rows[s], now)
      ensures s in Candidates(rows, now, locked)
    {
    }
  }

  /** A partial scan: every candidate below s is in the batch, in ascending order, and nothing else. */
  ghost predicate Scanned(rows: map<nat, Row>, now: int, locked: set<nat>, s: nat, batch: seq<Item>) {
    && (forall i, j :: 0 <= i < j < |batch| ==> batch[i].sequence < batch[j].sequence < s)
    && (forall i :: 0 <= i < |batch| ==> batch[i].sequence < s && batch[i].sequence in Candidates(rows, now, locked))
    && (forall c :: c in Candidates(rows, now, locked) && c < s ==> c in Sequences(batch))
    && ItemsOf(batch, rows)
  }

  lemma {:induction false} ScanTakes(rows: map<nat, Row>, now: int, locked: set<nat>, s: nat, batch: seq<Item>)
    requires Scanned(rows, now, locked, s, batch) && s in Candidates(rows, now, locked)
    ensures Scanned(rows, now, locked, s + 1, batch + [ItemOf(s, rows[s])])
  {
    SequencesSnoc(batch, ItemOf(s, rows[s]));
  }

  lemma {:induction false} ScanEnds(
    rows: map<nat, Row>, now: int, locked: set<nat>, s: nat, limit: int, batch: seq<Item>)
    requires Scanned(rows, now, locked, s, batch) && |batch| <= limit
    requires |batch| == limit || forall c :: c in rows ==> c < s
    ensures Selected(rows, now, locked, limit, batch)
  {
    BatchFits(batch);
    assert forall c :: c in Sequences(batch) ==> c < s;
  }

  /** The table, as one database connection changes it statement by statement. */
  class OutboxTable {
    var rows: map<nat, Row>
    var top: nat  // above every sequence

    ghost predicate Valid()
      reads this
    {
      forall s :: s in rows ==> s < top
    }

    constructor ()
      ensures Valid() && rows == map[]
    {
      rows := map[];
      top := 0;
    }

    method Insert(sequence: nat, payload: Payload, began: int)
      requires Valid() && sequence !in rows
      modifies this
      ensures Valid() && rows == old(rows)[sequence := Row(payload, None, None, 0, began, None)]
    {
      rows := rows[sequence := Inserted(payload, began)];
      if top <= sequence { top := sequence + 1; }
    }

    /** ORDER BY sequence LIMIT limit FOR UPDATE SKIP LOCKED: scan the sequences upwards until the batch is full.
        `locked` are the rows other transactions hold at that moment. */
    method Scan(now: int, limit: int, locked: set<nat>) returns (batch: seq<Item>)
      requires Valid() && limit >= 1
      ensures Selected(rows, now, locked, limit, batch)
      ensures forall k :: 0 <= k < |batch| ==>
                && batch[k].sequence in rows && batch[k].sequence !in locked
                && Claimable(rows[batch[k].sequence], now)
    {
      batch := [];
      var s := 0;
      while s < top && |batch| < limit
        invariant 0 <= s <= top && |batch| <= limit
        invariant Scanned(rows, now, locked, s, batch)
      {
        if s in rows && s !in locked && Eligible(rows[s], now) {
          ScanTakes(rows, now, locked, s, batch);
          batch := batch + [ItemOf(s, rows[s])];
        }
        s := s + 1;
      }
      ScanEnds(rows, now, locked, s, limit, batch);
      SelectedMeans(rows, now, locked, limit, batch);
    }

    /** The scan, then the lease update on exactly the scanned rows: the worker holds them, and no worker can claim one
        before the lease has passed. */
    method Claim(worker: string, now: int, limit: int, length: int, locked: set<nat>) returns (batch: seq<Item>)
      requires Valid() && limit >= 1
      modifies this
      ensures Valid()
      ensures Selected(old(rows), now, locked, limit, batch)
      ensures rows == ClaimAll(old(rows), Sequences(batch), worker, now + length)
      ensures rows.Keys == old(rows).Keys
      ensures forall s :: s in rows && s !in Sequences(batch) ==> rows[s] == old(rows)[s]
      ensures forall s :: s in Sequences(batch) ==>
                && s in rows && rows[s].lease == Some(Lease(worker, now + length))
                && rows[s].(lease := old(rows)[s].lease) == old(rows)[s]
                && (forall w :: HeldBy(rows[s], w) <==> w == worker)
                && (forall t :: Eligible(rows[s], t) <==> rows[s].nextAttempt <= t && now + length < t)
    {
      batch := Scan(now, limit, locked);
      rows := ClaimAll(rows, Sequences(batch), worker, now + length);
    }

    /** Effective only while the row is leased to the worker and unpublished, as the affected-row count reports.
        The row is then published, in nobody's lease, and never claimable again. */
    method Mark(sequence: nat, worker: string, now: int) returns (affected: bool)
      requires Valid()
      modifies this
      ensures Valid() && affected == Owned(old(rows), sequence, worker)
      ensures rows.Keys == old(rows).Keys
      ensures forall s :: s in rows && (s == sequence ==> !affected) ==> rows[s] == old(rows)[s]
      ensures affected ==>
                var was, r := old(rows)[sequence], rows[sequence];
                && r.published == Some(now) && r.lease.None? && (forall t :: !Eligible(r, t))
                && r.payload == was.payload && r.attempts == was.attempts && r.nextAttempt == was.nextAttempt
                && r.dead == was.dead
    {
      affected := false;
      if sequence in rows {
        var r := rows[sequence];
        if r.lease.Some? && r.lease.value.worker == worker && r.published.None? {
          rows := rows[sequence := r.(published := Some(now), lease := None)];
          affected := true;
        }
      }
    }

    /** Effective under the same guard. One more attempt is counted, the lease ends, and any worker may claim the row
        from the next attempt time on, unless it is dead now. */
    method Fail(sequence: nat, worker: string, next: int, dead: bool, now: int)
      requires Valid()
      modifies this
      ensures Valid() && rows.Keys == old(rows).Keys
      ensures forall s :: s in rows && (s == sequence ==> !Owned(old(rows), s, worker)) ==> rows[s] == old(rows)[s]
      ensures Owned(old(rows), sequence, worker) ==>
                var was, r := old(rows)[sequence], rows[sequence];
                && r.attempts == was.attempts + 1 && r.nextAttempt == next && r.lease.None?
                && (forall t :: Eligible(r, t) <==> !dead && was.dead.None? && next <= t)
                && r.dead == (if dead then Some(now) else was.dead) && r.published.None? && r.payload == was.payload
    {
      if sequence in rows {
        var r := rows[sequence];
        if r.lease.Some? && r.lease.value.worker == worker && r.published.None? {
          r := r.(attempts := r.attempts + 1, nextAttempt := next, lease := None);
          if dead { r := r.(dead := Some(now)); }
          rows := rows[sequence := r];
        }
      }
    }

    /** SELECT count(*) ... WHERE published_at IS NULL AND dead_at IS NULL */
    method Pending() returns (count: nat)
      requires Valid()
      ensures count == |Open(rows)| && Open(rows) == set s | s in rows && rows[s].published.None? && rows[s].dead.None?
    {
      count := 0;
      var s := 0;
      ghost var seen: set<nat> := {};
      while s < top
        invariant 0 <= s <= top && count == |seen|
        invariant forall c :: c in seen <==> c < s && c in Open(rows)
      {
        if s in rows && !Settled(rows[s]) {
          count := count + 1;
          seen := seen + {s};
        }
        s := s + 1;
      }
      assert seen == Open(rows);
    }
  }

  lemma {:induction false} SequencesSnoc(batch: seq<Item>, item: Item)
    ensures Sequences(batch + [item]) == Sequences(batch) + {item.sequence}
  {
    var more := batch + [item];
    forall s | s in Sequences(batch) + {item.sequence}
      ensures s in Sequences(more)
    {
      if s == item.sequence {
        assert more[|batch|].sequence == s;
      } else {
        var i :| 0 <= i < |batch| && batch[i].sequence == s;
        assert more[i].sequence == s;
      }
    }
  }

  ghost function Open(rows: map<nat, Row>): set<nat> {
    set s | s in rows && !Settled(rows[s])
  }

  ghost function Published(rows: map<nat, Row>): set<nat> {
    set s | s in rows && rows[s].published.Some?
  }

  ghost function Dead(rows: map<nat, Row>): set<nat> {
    set s | s in rows && rows[s].dead.Some?
  }

  /** Every row is in exactly one of the three states. */
  lemma {:induction false} StatesPartition(rows: map<nat, Row>)
    requires forall s :: s in rows ==> !(rows[s].published.Some? && rows[s].dead.Some?)
    ensures rows.Keys == Open(rows) + Published(rows) + Dead(rows)
    ensures Open(rows) !! Published(rows) && Open(rows) !! Dead(rows) && Published(rows) !! Dead(rows)
  {
  }

  lemma {:induction false} PartsAddUp(all: set<nat>, a: set<nat>, b: set<nat>, c: set<nat>)
    requires all == a + b + c && a !! b && a !! c && b !! c
    ensures |all| == |a| + |b| + |c|
  {
    assert |a + b| == |a| + |b|;
    assert (a + b) !! c;
    assert |all| == |a + b| + |c|;
  }

  /** The backlog is what is left of the table after the published and the dead rows, given no row is both. */
  lemma {:induction false} PendingIsTheRest(rows: map<nat, Row>)
    requires forall s :: s in rows ==> !(rows[s].published.Some? && rows[s].dead.Some?)
    ensures |Open(rows)| == |rows| - |Published(rows)| - |Dead(rows)|
  {
    StatesPartition(rows);
    hide Open, Published, Dead;
    PartsAddUp(rows.Keys, Open(rows), Published(rows), Dead(rows));
    assert |rows| == |rows.Keys|;
  }

  // ---------- one worker's batch ----------

  /** What the environment does to one publishOne call: whether Kafka appends the record and the client reports
      success, whether the following UPDATE takes effect and its reply arrives, and when it all happens. */
  datatype Attempt = Attempt(appended: bool, acked: bool, applied: bool, replied: bool, now: int)

  /** A successful acknowledgement implies the record was appended, a reply to the update that it took effect. */
  predicate Honest(a: Attempt) {
    (a.acked ==> a.appended) && (a.replied ==> a.applied)
  }

  datatype Cause = DecodeFailed | PublishFailed

  /** publishOne's errors; NotRecorded joins the cause with the failed update. */
  datatype PublishError = Failed(cause: Cause) | NotRecorded(cause: Cause) | MarkFailed | ClaimLost

  /** What one publishOne call adds to Kafka: the message once, if it decodes and was appended. */
  function Sent(item: Item, a: Attempt): seq<Payload> {
    if Decode(item.payload).Ok? && a.appended then [item.payload] else []
  }

  /** The row after publishOne, whatever happened to it in between. */
  function AfterPublish(config: Config, item: Item, r: Row, a: Attempt): Row {
    if !a.applied then r
    else if Decode(item.payload).Ok? && a.acked then MarkPublished(r, config.workerId, a.now)
    else
      RecordFailure(r, config.workerId, a.now + RetryDelay(item.attempts + 1, config.maxBackoff),
                    item.attempts + 1 >= config.maxAttempts, a.now)
  }

  /** One attempt at a row. Without the lease, or if the update does not take effect, the row stays. Else the lease
      ends: a message that decodes and is acknowledged is published, and counts as no attempt; any other way counts as
      one, waits for its delay, and is dead at the last. */
  lemma {:induction false} AttemptOutcome(config: Config, item: Item, r: Row, a: Attempt)
    ensures var after := AfterPublish(config, item, r, a);
            if !(a.applied && HeldBy(r, config.workerId) && r.published.None?) then after == r
            else if Decode(item.payload).Ok? && a.acked then
              after.published == Some(a.now) && after == r.(published := after.published, lease := None)
            else
              && after.attempts == r.attempts + 1
              && after.nextAttempt == a.now + RetryDelay(item.attempts + 1, config.maxBackoff)
              && (after.dead == if item.attempts + 1 < config.maxAttempts then r.dead else Some(a.now))
              && after.lease == None
              && after == r.(attempts := after.attempts, nextAttempt := after.nextAttempt, dead := after.dead,
                             lease := after.lease)
  {
  }

  /** Whether claim's transaction took effect and its reply arrived, and whether the backlog query succeeded. */
  datatype Replies = Replies(claimed: bool, claimReply: bool, counted: bool)

  class Relay {
    const config: Config
    const table: OutboxTable
    var backlog: nat
    var produced: seq<Payload>  // what Kafka has from this worker, in order

    constructor (config: Config, table: OutboxTable)
      requires Usable(config)
      ensures this.config == config && this.table == table && backlog == 0 && produced == []
    {
      this.config := config;
      this.table := table;
      backlog := 0;
      produced := [];
    }

    /** No error means that this call produced the message and that the row, still leased to this worker, was marked
        published. An update that affected no row is reported as a lost claim. */
    method PublishOne(item: Item, a: Attempt) returns (r: Result<(), PublishError>)
      requires table.Valid() && item.sequence in table.rows && Honest(a)
      modifies this`produced, table
      ensures table.Valid() && produced == old(produced) + Sent(item, a)
      ensures produced
           == if Decode(item.payload).Ok? && a.appended then old(produced) + [item.payload] else old(produced)
      ensures table.rows
           == old(table.rows)[item.sequence := AfterPublish(config, item, old(table.rows)[item.sequence], a)]
      ensures var owned := Owned(old(table.rows), item.sequence, config.workerId);
              var sent := Decode(item.payload).Ok? && a.acked;
              && (r.Ok? <==> sent && a.replied && owned)
              && (r == Err(ClaimLost) <==> sent && a.replied && !owned)
              && (r == Err(MarkFailed) <==> sent && !a.replied)
              && (!sent ==> r.Err? && r.error in {Failed(Why(item)), NotRecorded(Why(item))})
              && (r.Err? && r.error.NotRecorded? ==> !a.replied)
      ensures r.Ok? ==> table.rows[item.sequence].published == Some(a.now) && item.payload in produced
      ensures r == Err(ClaimLost) ==> table.rows == old(table.rows)
    {
      match Decode(item.payload)
      case Err(_) =>
        var error := FailItem(item, DecodeFailed, a);
        r := Err(error);
      case Ok(event) =>
        if a.appended { produced := produced + [item.payload]; }
        if !a.acked {
          var error := FailItem(item, PublishFailed, a);
          return Err(error);
        }
        var affected := false;
        if a.applied {
          affected := table.Mark(item.sequence, config.workerId, a.now);
          assert table.rows[item.sequence] == MarkPublished(old(table.rows)[item.sequence], config.workerId, a.now);
        }
        assert table.rows == old(table.rows)[item.sequence := table.rows[item.sequence]];
        r := if !a.replied then Err(MarkFailed) else if !affected then Err(ClaimLost) else Ok(());
    }

    method FailItem(item: Item, cause: Cause, a: Attempt) returns (error: PublishError)
      requires table.Valid() && item.sequence in table.rows
      modifies table
      ensures table.Valid() && error == if a.replied then Failed(cause) else NotRecorded(cause)
      ensures table.rows == old(table.rows)[item.sequence :=
                if !a.applied then old(table.rows)[item.sequence]
                else RecordFailure(old(table.rows)[item.sequence], config.workerId,
                                   a.now + RetryDelay(item.attempts + 1, config.maxBackoff),
                                   item.attempts + 1 >= config.maxAttempts, a.now)]
    {
      if a.applied {
        var attempt := item.attempts + 1;
        table.Fail(item.sequence, config.workerId, a.now + RetryDelay(attempt, config.maxBackoff),
                   attempt >= config.maxAttempts, a.now);
        assert table.rows[item.sequence]
            == RecordFailure(old(table.rows)[item.sequence], config.workerId,
                             a.now + RetryDelay(attempt, config.maxBackoff), attempt >= config.maxAttempts, a.now);
      }
      assert table.rows == old(table.rows)[item.sequence := table.rows[item.sequence]];
      return if a.replied then Failed(cause) else NotRecorded(cause);
    }

    /** The loop of runBatch: an item's error is logged and the next item follows. */
    method PublishAll(batch: seq<Item>, attempts: seq<Attempt>)
      requires table.Valid() && |batch| <= |attempts|
      requires Known(batch, table.rows) && AllHonest(attempts)
      modifies this`produced, table
      ensures table.Valid()
      ensures table.rows == PublishRows(config, old(table.rows), batch, attempts, |batch|)
      ensures produced == old(produced) + SentBy(batch, attempts, |batch|)
    {
      var i := 0;
      while i < |batch|
        invariant 0 <= i <= |batch| && table.Valid()
        invariant table.rows == PublishRows(config, old(table.rows), batch, attempts, i)
        invariant table.rows.Keys == old(table.rows).Keys
        invariant produced == old(produced) + SentBy(batch, attempts, i)
      {
        var result := PublishOne(batch[i], attempts[i]);
        i := i + 1;
      }
    }

    method ClaimBatch(now: int, locked: set<nat>) returns (batch: seq<Item>)
      requires Usable(config) && table.Valid()
      modifies table
      ensures table.Valid() && Selected(old(table.rows), now, locked, config.batchSize, batch)
      ensures |batch| <= config.batchSize && Known(batch, table.rows)
      ensures table.rows == ClaimAll(old(table.rows), Sequences(batch), config.workerId, now + LeaseLength(config))
    {
      batch := table.Claim(config.workerId, now, config.batchSize, LeaseLength(config), locked);
      SelectedFits(old(table.rows), now, locked, config.batchSize, batch);
    }

    /** Pending stores the count when its query succeeds. */
    method UpdateBacklog(counted: bool)
      requires table.Valid()
      modifies this`backlog
      ensures backlog == if counted then |Open(table.rows)| else old(backlog)
    {
      if counted { backlog := table.Pending(); }
    }

    /** One runBatch without other workers: claim, publish each claimed item, count the backlog. A claim that fails
        ends it; if only the claim's reply is lost, its rows stay leased and nothing is produced. Errors of single
        items are not the batch's. */
    method RunBatch(now: int, locked: set<nat>, attempts: seq<Attempt>, replies: Replies)
      returns (ok: bool, ghost batch: seq<Item>)
      requires Usable(config) && table.Valid() && |attempts| >= config.batchSize && AllHonest(attempts)
      modifies this`produced, this`backlog, table
      ensures table.Valid() && ok == (replies.claimed && replies.claimReply && replies.counted)
      ensures backlog == if ok then |Open(table.rows)| else old(backlog)
      ensures !replies.claimed ==> batch == [] && table.rows == old(table.rows) && produced == old(produced)
      ensures replies.claimed ==> Selected(old(table.rows), now, locked, config.batchSize, batch)
      ensures replies.claimed ==>
                var leased := ClaimAll(old(table.rows), Sequences(batch), config.workerId, now + LeaseLength(config));
                if !replies.claimReply then table.rows == leased && produced == old(produced)
                else
                  && |batch| <= |attempts|
                  && table.rows == PublishRows(config, leased, batch, attempts, |batch|)
                  && produced == old(produced) + SentBy(batch, attempts, |batch|)
    {
      if !replies.claimed { return false, []; }
      var claimed := ClaimBatch(now, locked);
      batch := claimed;
      if !replies.claimReply { return false, batch; }
      PublishAll(claimed, attempts);
      UpdateBacklog(replies.counted);
      ok := replies.counted;
    }
  }

  function Why(item: Item): Cause {
    if Decode(item.payload).Err? then DecodeFailed else PublishFailed
  }

  ghost predicate AllHonest(attempts: seq<Attempt>) {
    forall k :: 0 <= k < |attempts| ==> Honest(attempts[k])
  }

  ghost predicate Known(batch: seq<Item>, rows: map<nat, Row>) {
    forall k :: 0 <= k < |batch| ==> batch[k].sequence in rows
  }

  /** The table after the first n publishOne calls of a batch. */
  function PublishRows(
    config: Config, rows: map<nat, Row>, batch: seq<Item>, attempts: seq<Attempt>, n: nat): (r: map<nat, Row>)
    requires n <= |batch| <= |attempts|
    ensures r.Keys == rows.Keys
  {
    if n == 0 then rows
    else
      var before := PublishRows(config, rows, batch, attempts, n - 1);
      var item := batch[n - 1];
      if item.sequence !in before then before
      else before[item.sequence := AfterPublish(config, item, before[item.sequence], attempts[n - 1])]
  }

  /** A batch leaves every row it did not claim as it was ... */
  lemma {:induction false} PublishRowsElsewhere(
    config: Config, rows: map<nat, Row>, batch: seq<Item>, attempts: seq<Attempt>, n: nat, s: nat)
    requires n <= |batch| <= |attempts| && s in rows
    requires forall k :: 0 <= k < n ==> batch[k].sequence != s
    ensures PublishRows(config, rows, batch, attempts, n)[s] == rows[s]
  {
    if n > 0 { PublishRowsElsewhere(config, rows, batch, attempts, n - 1, s); }
  }

  /** ... and takes each claimed row through its own publish attempt, starting from the claimed row. */
  lemma {:induction false} PublishRowsAt(
    config: Config, rows: map<nat, Row>, batch: seq<Item>, attempts: seq<Attempt>, n: nat, k: nat)
    requires k < n <= |batch| <= |attempts| && Distinct(batch) && batch[k].sequence in rows
    ensures PublishRows(config, rows, batch, attempts, n)[batch[k].sequence]
              == AfterPublish(config, batch[k], rows[batch[k].sequence], attempts[k])
  {
    if k == n - 1 {
      PublishRowsElsewhere(config, rows, batch, attempts, n - 1, batch[k].sequence);
    } else {
      PublishRowsAt(config, rows, batch, attempts, n - 1, k);
      assert batch[k].sequence != batch[n - 1].sequence;
    }
  }

  lemma {:induction false} SelectedFits(rows: map<nat, Row>, now: int, locked: set<nat>, limit: int, batch: seq<Item>)
    requires Selected(rows, now, locked, limit, batch)
    ensures |batch| <= limit && Distinct(batch) && Known(batch, rows)
  {
    BatchFits(batch);
  }

  /** What the first n publishOne calls of a batch add to Kafka. */
  function SentBy(batch: seq<Item>, attempts: seq<Attempt>, n: nat): seq<Payload>
    requires n <= |batch| <= |attempts|
  {
    if n == 0 then [] else SentBy(batch, attempts, n - 1) + Sent(batch[n - 1], attempts[n - 1])
  }

  /** The items of a batch whose message is appended. */
  ghost function AppendedItems(batch: seq<Item>, attempts: seq<Attempt>, n: nat): set<nat>
    requires n <= |batch| <= |attempts|
  {
    set k | 0 <= k < n && Decode(batch[k].payload).Ok? && attempts[k].appended
  }

  lemma {:induction false} OneMoreItem(batch: seq<Item>, attempts: seq<Attempt>, n: nat)
    requires 0 < n <= |batch| <= |attempts|
    ensures n - 1 !in AppendedItems(batch, attempts, n - 1)
    ensures AppendedItems(batch, attempts, n)
         == AppendedItems(batch, attempts, n - 1)
            + if Decode(batch[n - 1].payload).Ok? && attempts[n - 1].appended then {n - 1} else {}
  {
    hide Decode;
  }

  /** What the batch adds to Kafka: one message for each of these items. */
  lemma {:induction false} SentByCounts(batch: seq<Item>, attempts: seq<Attempt>, n: nat)
    requires n <= |batch| <= |attempts|
    ensures |SentBy(batch, attempts, n)| == |AppendedItems(batch, attempts, n)|
  {
    if n == 0 {
      assert AppendedItems(batch, attempts, 0) == {};
    } else {
      hide AppendedItems, Decode;
      SentByCounts(batch, attempts, n - 1);
      OneMoreItem(batch, attempts, n);
    }
  }

  lemma {:induction false} SentByHas(batch: seq<Item>, attempts: seq<Attempt>, n: nat, k: nat)
    requires k < n <= |batch| <= |attempts| && Sent(batch[k], attempts[k]) != []
    ensures batch[k].payload in SentBy(batch, attempts, n)
  {
    if k < n - 1 { SentByHas(batch, attempts, n - 1, k); }
  }

  /** A batch marks a row published only if it produced that row's payload. */
  lemma {:induction false} PublishedWasProduced(
    config: Config, rows: map<nat, Row>, batch: seq<Item>, attempts: seq<Attempt>, k: nat)
    requires k < |batch| <= |attempts| && Distinct(batch) && batch[k].sequence in rows
    requires Honest(attempts[k]) && rows[batch[k].sequence].published.None?
    ensures PublishRows(config, rows, batch, attempts, |batch|)[batch[k].sequence].published.Some? ==>
              batch[k].payload in SentBy(batch, attempts, |batch|)
  {
    PublishRowsAt(config, rows, batch, attempts, |batch|, k);
    if Sent(batch[k], attempts[k]) != [] {
      SentByHas(batch, attempts, |batch|, k);
    }
  }

  lemma {:induction false} BatchFits(batch: seq<Item>)
    requires Distinct(batch)
    ensures |Sequences(batch)| == |batch|
  {
    if batch != [] {
      var front, last := batch[..|batch| - 1], batch[|batch| - 1];
      BatchFits(front);
      assert batch == front + [last];
      SequencesSnoc(front, last);
    }
  }
}
