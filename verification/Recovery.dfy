/** Nothing is lost for good: from every reachable state some continuation publishes every row that is still open,
    whatever has crashed, was lost or is still leased. */
module Recovery {
  import opened Base
  import opened Events
  import opened Outbox
  import opened RelayRefinement
  import opened Pipeline
  import opened PipelineProof
  import opened Theorems
  import R = RelayProtocol

  // ---------- the claim statement always has an answer ----------

  /** The scan from s upwards. */
  lemma {:induction false} ScanOn(rows: map<nat, Row>, now: int, s: nat, top: nat, limit: int, batch: seq<Item>)
    returns (found: seq<Item>)
    requires Scanned(rows, now, {}, s, batch) && |batch| <= limit && s <= top && forall q :: q in rows ==> q < top
    ensures Selected(rows, now, {}, limit, found)
    decreases top - s
  {
    if s == top || |batch| == limit {
      ScanEnds(rows, now, {}, s, limit, batch);
      found := batch;
    } else if s in Candidates(rows, now, {}) {
      ScanTakes(rows, now, {}, s, batch);
      found := ScanOn(rows, now, s + 1, top, limit, batch + [ItemOf(s, rows[s])]);
    } else {
      found := ScanOn(rows, now, s + 1, top, limit, batch);
    }
  }

  lemma {:induction false} Above(ids: set<nat>) returns (top: nat)
    ensures forall q :: q in ids ==> q < top
    decreases ids
  {
    if ids == {} {
      top := 0;
    } else {
      var q :| q in ids;
      var rest := Above(ids - {q});
      top := if rest <= q then q + 1 else rest;
      assert forall r :: r in ids ==> r == q || r in ids - {q};
    }
  }

  lemma {:induction false} SomeSelection(rows: map<nat, Row>, now: int, limit: int) returns (batch: seq<Item>)
    requires limit >= 1
    ensures Selected(rows, now, {}, limit, batch)
    ensures Candidates(rows, now, {}) != {} ==> batch != []
  {
    var top := Above(rows.Keys);
    batch := ScanOn(rows, now, 0, top, limit, []);
  }

  // ---------- one batch ----------

  /** Every row of `before` is still there with its message, and published if it was open and is in `some`. */
  ghost predicate NowPublished(before: map<nat, Row>, after: map<nat, Row>, some: set<nat>) {
    && after.Keys == before.Keys
    && forall q :: q in before ==>
         && after[q].payload == before[q].payload
         && (if q in some then after[q].published.Some? else after[q] == before[q])
  }

  /** After the lease and the back-off have run out, an idle worker publishes a batch of the open rows. */
  lemma {:induction false} BatchPublishes(p: R.Params, st: R.State, now: int, w: string, later: int)
    returns (moves: seq<Move>, st': R.State, some: set<nat>)
    requires R.Inv(p, st, now) && w in st.workers && st.workers[w].batch == []
    requires later > now + Max(LeaseLength(p.config), p.config.maxBackoff + p.skew)
    requires forall q :: q in st.rows ==> Decode(st.rows[q].payload).Ok?
    ensures After(p, st, later, moves) == Some(st') && WorkersOnly(moves) && Clock(later, moves) == later
    ensures w in st'.workers && st'.workers[w].batch == [] && NowPublished(st.rows, st'.rows, some)
    ensures some <= Open(st.rows) && (Open(st.rows) != {} ==> some != {})
  {
    hide R.Inv, After, Selected, IsBatch, Sequences, PublishRows, ClaimAll, LogsAfter, NowPublished, AllWell, AllHonest;
    hide InOrder, Candidates, Open, Decode;
    OpenAreCandidates(p, st, now, later);
    var batch := SomeSelection(st.rows, later, p.config.batchSize);
    var attempts := Successes(batch, later);
    SelectionSet(st.rows, later, p.config.batchSize, batch);
    moves, st' := RunBatchIsAProtocolRun(p, st, later, w, {}, batch, attempts);
    some := Sequences(batch);
    BatchIsPublished(p, st.rows, w, later, later + LeaseLength(p.config), batch, attempts);
  }

  lemma {:induction false} Successes(batch: seq<Item>, now: int) returns (attempts: seq<Attempt>)
    ensures AllWell(batch, attempts) && AllHonest(attempts) && InOrder(now, attempts) && |attempts| == |batch|
    ensures batch != [] ==> attempts[|batch| - 1].now == now
  {
    attempts := seq(|batch|, _ => Attempt(true, true, true, true, now));
  }

  lemma {:induction false} SelectionSet(rows: map<nat, Row>, now: int, limit: int, batch: seq<Item>)
    requires Selected(rows, now, {}, limit, batch)
    ensures Sequences(batch) <= Candidates(rows, now, {}) && (batch != [] ==> Sequences(batch) != {})
  {
    if batch != [] { assert batch[0].sequence in Sequences(batch); }
  }

  lemma {:induction false} OpenAreCandidates(p: R.Params, st: R.State, now: int, later: int)
    requires R.Inv(p, st, now) && later > now + Max(LeaseLength(p.config), p.config.maxBackoff + p.skew)
    ensures Candidates(st.rows, later, {}) == Open(st.rows) && p.config.batchSize >= 1
  {
    forall q | q in Open(st.rows)
      ensures q in Candidates(st.rows, later, {})
    {
      R.NoRowIsStuck(p, st, now, q, later);
    }
  }

  /** An attempt on which everything goes well. */
  ghost predicate AllWell(batch: seq<Item>, attempts: seq<Attempt>) {
    && |attempts| == |batch|
    && forall k :: 0 <= k < |attempts| ==> attempts[k].appended && attempts[k].acked && attempts[k].applied
  }

  lemma {:induction false} ClaimedRow(
    config: Config, rows: map<nat, Row>, batch: seq<Item>, attempts: seq<Attempt>, until: int, k: nat)
    requires AllWell(batch, attempts) && Distinct(batch) && k < |batch| && batch[k].sequence in rows
    requires Decode(batch[k].payload).Ok?
    ensures var q, leased := batch[k].sequence, ClaimAll(rows, Sequences(batch), config.workerId, until);
            var r := PublishRows(config, leased, batch, attempts, |batch|)[q];
            r.published.Some? && r.payload == rows[q].payload
  {
    var q, leased := batch[k].sequence, ClaimAll(rows, Sequences(batch), config.workerId, until);
    assert q in Sequences(batch);
    assert leased[q] == Claimed(rows[q], config.workerId, until);
    PublishRowsAt(config, leased, batch, attempts, |batch|, k);
    hide PublishRows, ClaimAll;
    SuccessMarks(config, batch[k], rows[q], until, attempts[k]);
  }

  lemma {:induction false} OtherRow(
    config: Config, rows: map<nat, Row>, batch: seq<Item>, attempts: seq<Attempt>, until: int, q: nat)
    requires |attempts| == |batch| && q in rows && q !in Sequences(batch)
    ensures var leased := ClaimAll(rows, Sequences(batch), config.workerId, until);
            PublishRows(config, leased, batch, attempts, |batch|)[q] == rows[q]
  {
    var leased := ClaimAll(rows, Sequences(batch), config.workerId, until);
    assert forall k :: 0 <= k < |batch| ==> batch[k].sequence in Sequences(batch);
    PublishRowsElsewhere(config, leased, batch, attempts, |batch|, q);
  }

  lemma {:induction false} BatchItem(rows: map<nat, Row>, now: int, limit: int, batch: seq<Item>, q: nat)
    returns (k: nat)
    requires Selected(rows, now, {}, limit, batch) && q in Sequences(batch)
    ensures k < |batch| && batch[k].sequence == q && q in rows && batch[k].payload == rows[q].payload && Distinct(batch)
  {
    k :| 0 <= k < |batch| && batch[k].sequence == q;
  }

  lemma {:induction false} BatchIsPublished(
    p: R.Params, rows: map<nat, Row>, w: string, later: int, until: int, batch: seq<Item>, attempts: seq<Attempt>)
    requires Selected(rows, later, {}, p.config.batchSize, batch) && AllWell(batch, attempts)
    requires forall q :: q in rows ==> Decode(rows[q].payload).Ok?
    ensures var leased := ClaimAll(rows, Sequences(batch), w, until);
            NowPublished(rows, PublishRows(ConfigOf(p, w), leased, batch, attempts, |batch|), Sequences(batch))
  {
    hide Selected, IsBatch, Sequences, PublishRows, Decode, Distinct;
    var leased := ClaimAll(rows, Sequences(batch), w, until);
    var config := ConfigOf(p, w);
    var after := PublishRows(config, leased, batch, attempts, |batch|);
    assert leased.Keys == rows.Keys;
    hide ClaimAll;
    forall q | q in rows
      ensures after[q].payload == rows[q].payload
      ensures if q in Sequences(batch) then after[q].published.Some? else after[q] == rows[q]
    {
      if q in Sequences(batch) {
        var k := BatchItem(rows, later, p.config.batchSize, batch, q);
        ClaimedRow(config, rows, batch, attempts, until, k);
      } else {
        OtherRow(config, rows, batch, attempts, until, q);
      }
    }
  }

  /** A leased, unpublished row is published by an attempt on which everything goes well. */
  lemma {:induction false} SuccessMarks(config: Config, item: Item, r: Row, until: int, a: Attempt)
    requires Decode(item.payload).Ok? && a.acked && a.applied
    ensures AfterPublish(config, item, Claimed(r, config.workerId, until), a).published.Some?
    ensures AfterPublish(config, item, Claimed(r, config.workerId, until), a).payload == r.payload
  {
  }

  // ---------- all batches ----------

  /** One run after the other. */
  lemma {:induction false} AfterConcat(
    p: R.Params, st: R.State, from: int, a: seq<Move>, mid: R.State, later: int, b: seq<Move>)
    requires After(p, st, from, a) == Some(mid) && Clock(from, a) <= later && After(p, mid, later, b).Some?
    ensures After(p, st, from, a + b) == After(p, mid, later, b)
    ensures Clock(from, a + b) <= Clock(later, b) && (b != [] ==> Clock(from, a + b) == Clock(later, b))
  {
    hide R.Enabled, R.Next;
    if b == [] {
      assert a + b == a;
    } else {
      var front := b[..|b| - 1];
      AfterConcat(p, st, from, a, mid, later, front);
      assert (a + b)[..|a + b| - 1] == a + front;
    }
  }

  /** Batch after batch, until no row is open. */
  lemma {:induction false} DrainAll(p: R.Params, st: R.State, now: int, w: string, open: set<nat>)
    returns (moves: seq<Move>, st': R.State)
    requires R.Inv(p, st, now) && w in st.workers && st.workers[w].batch == [] && open == Open(st.rows)
    requires forall q :: q in st.rows ==> Decode(st.rows[q].payload).Ok?
    ensures After(p, st, now, moves) == Some(st') && WorkersOnly(moves)
    ensures NowPublished(st.rows, st'.rows, open)
    decreases open
  {
    hide R.Inv, After;
    if open == {} {
      moves, st' := [], st;
      AfterNothing(p, st, now);
    } else {
      var later := Later(p, now);
      var some: set<nat>;
      var mid: R.State;
      moves, mid, some := BatchPublishes(p, st, now, w, later);
      R.TickInv(p, st, now, later);
      AfterInv(p, st, later, moves);
      OpenShrinks(st.rows, mid.rows, some);
      var more: seq<Move>;
      more, st' := DrainAll(p, mid, later, w, open - some);
      Sooner(p, st, now, later, moves);
      AfterConcat(p, st, now, moves, mid, later, more);
      PublishedTwice(st.rows, mid.rows, st'.rows, some, open);
      moves := moves + more;
    }
  }

  function Later(p: R.Params, now: int): int {
    now + Max(Max(LeaseLength(p.config), p.config.maxBackoff + p.skew), 0) + 1
  }

  lemma {:induction false} AfterNothing(p: R.Params, st: R.State, from: int)
    ensures After(p, st, from, []) == Some(st) && Clock(from, []) == from
  {
  }

  /** A run may be told to start earlier than it does. */
  lemma {:induction false} Sooner(p: R.Params, st: R.State, from: int, later: int, moves: seq<Move>)
    requires from <= later && After(p, st, later, moves).Some?
    ensures After(p, st, from, moves) == After(p, st, later, moves) && Clock(from, moves) <= Clock(later, moves)
  {
    AfterNothing(p, st, from);
    AfterConcat(p, st, from, [], st, later, moves);
    assert [] + moves == moves;
  }

  lemma {:induction false} OpenShrinks(before: map<nat, Row>, after: map<nat, Row>, some: set<nat>)
    requires NowPublished(before, after, some)
    ensures Open(after) == Open(before) - some
  {
  }

  lemma {:induction false} PublishedTwice(
    a: map<nat, Row>, b: map<nat, Row>, c: map<nat, Row>, some: set<nat>, open: set<nat>)
    requires NowPublished(a, b, some) && NowPublished(b, c, open - some) && some <= open == Open(a)
    ensures NowPublished(a, c, open)
  {
  }

  // ---------- from any state of any run ----------

  /** Moves of the workers extend a run of the whole pipeline. */
  lemma {:induction false} MovesExtendRun(
    p: R.Params, states: seq<System>, steps: seq<Step>, moves: seq<Move>, relay: R.State)
    returns (states': seq<System>, steps': seq<Step>)
    requires IsRun(p, states, steps) && WorkersOnly(moves)
    requires var s := states[|states| - 1]; After(p, s.relay, s.now, moves) == Some(relay)
    ensures IsRun(p, states', steps') && states <= states' && steps <= steps'
    ensures var s := states[|states| - 1];
            states'[|states'| - 1] == s.(relay := relay, now := Clock(s.now, moves))
  {
    var s := states[|states| - 1];
    if moves == [] {
      states', steps' := states, steps;
    } else {
      var front, last := moves[..|moves| - 1], moves[|moves| - 1];
      var mid := After(p, s.relay, s.now, front).value;
      states', steps' := MovesExtendRun(p, states, steps, front, mid);
      hide After;
      var s1 := states'[|states'| - 1];
      states', steps' := ExtendRun(p, states', steps', Tick(last.now));
      var s2 := s1.(now := last.now);
      states', steps' := ExtendRun(p, states', steps', RelayStep(last.step));
    }
  }

  lemma {:induction false} ExtendRun(p: R.Params, states: seq<System>, steps: seq<Step>, step: Step)
    returns (states': seq<System>, steps': seq<Step>)
    requires IsRun(p, states, steps) && Enabled(p, states[|states| - 1], step)
    ensures IsRun(p, states', steps') && states <= states' && steps <= steps'
    ensures states' == states + [Next(p, states[|states| - 1], step)] && steps' == steps + [step]
  {
    hide Enabled, Next, Initial;
    states', steps' := states + [Next(p, states[|states| - 1], step)], steps + [step];
    forall k | 0 <= k < |steps'|
      ensures Enabled(p, states'[k], steps'[k]) && states'[k + 1] == Next(p, states'[k], steps'[k])
    {
      if k < |steps| { assert states'[k] == states[k] && steps'[k] == steps[k]; }
    }
  }

  lemma {:induction false} RowsDecode(p: R.Params, s: System)
    requires Inv(p, s)
    ensures forall q :: q in s.relay.rows ==> Decode(s.relay.rows[q].payload).Ok?
    ensures R.Inv(p, s.relay, s.now)
  {
    hide SocketsInv, BrowsersInv;
    EverythingDecodes(p, s);
  }

  lemma {:induction false} CrashFirst(p: R.Params, st: R.State, now: int, w: string)
    returns (idle: R.State)
    requires R.Inv(p, st, now) && w in st.workers
    ensures After(p, st, now, [Move(now, R.Crash(w))]) == Some(idle) && R.Inv(p, idle, now)
    ensures idle.rows == st.rows && w in idle.workers && idle.workers[w].batch == []
  {
    idle := R.Next(p, st, now, R.Crash(w));
    AfterNothing(p, st, now);
    AfterSnoc(p, st, now, [], st, Move(now, R.Crash(w)));
    assert [] + [Move(now, R.Crash(w))] == [Move(now, R.Crash(w))];
    R.StepInv(p, st, now, R.Crash(w));
  }

  /** Recoverability: every run with at least one worker, however it went, can be continued so that every row that was
      neither published nor dead is published, while nothing else changes but the relay and the time. */
  lemma {:induction false} EveryRunCanRecover(p: R.Params, states: seq<System>, steps: seq<Step>, w: string)
    returns (states': seq<System>, steps': seq<Step>)
    requires IsRun(p, states, steps) && w in states[|states| - 1].relay.workers
    ensures IsRun(p, states', steps') && states <= states' && steps <= steps'
    ensures var s, s' := states[|states| - 1], states'[|states'| - 1];
            && s' == s.(relay := s'.relay, now := s'.now)
            && Open(s'.relay.rows) == {} && NowPublished(s.relay.rows, s'.relay.rows, Open(s.relay.rows))
  {
    var s := states[|states| - 1];
    RunInv(p, states, steps, |states| - 1);
    RowsDecode(p, s);
    hide IsRun, Inv, R.Inv, After;
    var idle := CrashFirst(p, s.relay, s.now, w);
    var first := [Move(s.now, R.Crash(w))];
    var moves, relay := DrainAll(p, idle, s.now, w, Open(idle.rows));
    AfterConcat(p, s.relay, s.now, first, idle, s.now, moves);
    OpenShrinks(s.relay.rows, relay.rows, Open(s.relay.rows));
    states', steps' := MovesExtendRun(p, states, steps, first + moves, relay);
  }
}
