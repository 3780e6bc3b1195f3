/** What the pipeline invariant means for each stage, over whole runs. */
module Theorems {
  import opened Base
  import opened Events
  import opened Kafka
  import opened Pipeline
  import opened PipelineProof
  import Merge
  import W = Writers
  import O = Outbox
  import R = RelayProtocol
  import C = Consumer
  import H = Hub

  // ---------- whole runs ----------

  /** In every run, each task has exactly one committed outbox row per version above its base, in sequence order,
      where the base is 1 for the tasks the run started with and 0 for all others. */
  lemma {:induction false} EveryRunAgrees(p: R.Params, states: seq<System>, steps: seq<Step>, k: nat, t: int)
    requires IsRun(p, states, steps) && k < |states| && t in states[k].db.tasks
    ensures var db, base := states[k].db, if t in states[0].db.tasks then 1 else 0;
            && (forall v {:trigger W.HasRow(db, t, v)} :: W.HasRow(db, t, v) <==> base < v <= db.tasks[t].version)
            && (forall a, b, v, w :: W.RowFor(db, a, t, v) && W.RowFor(db, b, t, w) ==> (a < b <==> v < w))
            && (forall a :: W.RowFor(db, a, t, db.tasks[t].version) ==> db.events[a].task == db.tasks[t])
  {
    RunInv(p, states, steps, k);
    BaseNeverChanges(p, states, steps, k, t);
    W.Agreement(states[k].db, t);
  }

  /** In every run, every committed version of a task carries the name of its assigned user, and differs from the first
      version in status, version and update time only; its event says whether it was created or moved. */
  lemma {:induction false} EveryRunKeepsContent(p: R.Params, states: seq<System>, steps: seq<Step>, k: nat, x: Task)
    requires IsRun(p, states, steps) && k < |states| && Committed(states[k].db.history, x)
    ensures states[k].db.users == states[0].db.users && W.Named(states[0].db.users, x)
    ensures var first := states[k].db.history[x.id][0].task;
            x == first.(status := x.status, version := x.version, updatedAt := x.updatedAt)
    ensures forall q :: q in states[k].db.events ==> W.TypeOk(states[k].db.events[q])
  {
    RunContent(p, states, steps, k);
    hide IsRun;
    assert W.VersionsOk(states[0].db.users, states[k].db.history[x.id]);
    W.VersionsAgree(states[0].db.users, states[k].db.history[x.id], x.version - 1);
  }

  lemma {:induction false} RunContent(p: R.Params, states: seq<System>, steps: seq<Step>, k: nat)
    requires IsRun(p, states, steps) && k < |states|
    ensures W.ContentInv(states[k].db) && states[k].db.users == states[0].db.users
  {
    hide Inv, Enabled, Next, W.ContentInv;
    if k == 0 {
      W.InitialContent(states[0].db);
    } else {
      hide Initial;
      RunContent(p, states, steps, k - 1);
      RunStep(p, states, steps, k - 1);
      ContentStep(p, states[k - 1], steps[k - 1]);
    }
  }

  lemma {:induction false} ContentStep(p: R.Params, s: System, step: Step)
    requires Inv(p, s) && Enabled(p, s, step) && W.ContentInv(s.db)
    ensures W.ContentInv(Next(p, s, step).db) && Next(p, s, step).db.users == s.db.users
  {
    hide R.Inv, C.Inv, W.Inv, SocketsInv, BrowsersInv, W.ContentInv, W.Next, W.Enabled;
    BackEndView(p, s, step);
    hide Next;
    if step.WriteStep? { W.StepContent(s.db, step.write); }
  }

  lemma {:induction false} BaseNeverChanges(p: R.Params, states: seq<System>, steps: seq<Step>, k: nat, t: int)
    requires IsRun(p, states, steps) && k < |states| && t in states[k].db.tasks
    ensures W.BaseVersion(states[k].db, t) == if t in states[0].db.tasks then 1 else 0
  {
    hide Initial, Inv, Enabled, Next;
    if k > 0 {
      RunStep(p, states, steps, k - 1);
      StepBase(p, states[k - 1], steps[k - 1], t);
      if t in states[k - 1].db.tasks {
        BaseNeverChanges(p, states, steps, k - 1, t);
      } else {
        NotThereBefore(p, states, steps, k - 1, t);
      }
    } else {
      SeedBase(p, states[0], t);
    }
  }

  lemma {:induction false} SeedBase(p: R.Params, s: System, t: int)
    requires Initial(p, s) && t in s.db.tasks
    ensures W.BaseVersion(s.db, t) == 1
  {
  }

  lemma {:induction false} StepBase(p: R.Params, s: System, step: Step, t: int)
    requires Inv(p, s) && Enabled(p, s, step) && t in Next(p, s, step).db.tasks
    ensures W.BaseVersion(Next(p, s, step).db, t) == if t in s.db.tasks then W.BaseVersion(s.db, t) else 0
  {
    hide R.Inv, C.Inv, W.Inv, SocketsInv, BrowsersInv;
    BackEndView(p, s, step);
    hide Next;
    if step.WriteStep? {
      CommitBase(s.db, step.write, t);
    } else {
      RowHasHistory(s.db, t);
    }
  }

  lemma {:induction false} RowHasHistory(db: W.Db, t: int)
    requires W.Inv(db) && t in db.tasks
    ensures t in db.history
  {
  }

  /** Which part of the back end each kind of step changes. */
  lemma {:induction false} BackEndView(p: R.Params, s: System, step: Step)
    requires Enabled(p, s, step)
    ensures Next(p, s, step).db == if step.WriteStep? then W.Next(s.db, step.write) else s.db
    ensures step.RelayStep? ==> Next(p, s, step).relay == R.Next(p, s.relay, s.now, step.relay)
    ensures !step.RelayStep? && !step.WriteStep? ==> Next(p, s, step).relay == s.relay
    ensures step.WriteStep? ==> Next(p, s, step) == NextWrite(p, s, step.write)
  {
  }

  lemma {:induction false} CommitBase(db: W.Db, w: W.Step, t: int)
    requires W.Inv(db) && W.Enabled(db, w) && t in W.Next(db, w).tasks
    ensures W.BaseVersion(W.Next(db, w), t) == if t in db.tasks then W.BaseVersion(db, t) else 0
  {
    if t in db.tasks { W.CommittedRow(db, t); }
    if w.Commit? { W.LockedRowIsNext(db, db.open[w.tx]); }
  }

  /** Tasks are never removed. */
  lemma {:induction false} NotThereBefore(p: R.Params, states: seq<System>, steps: seq<Step>, k: nat, t: int)
    requires IsRun(p, states, steps) && k < |states| && t !in states[k].db.tasks
    ensures t !in states[0].db.tasks
  {
    hide IsRun, Inv, Enabled, Next;
    if k > 0 {
      RunStep(p, states, steps, k - 1);
      BackEndView(p, states[k - 1], steps[k - 1]);
      NotThereBefore(p, states, steps, k - 1, t);
    }
  }

  lemma {:induction false} SettledStep(p: R.Params, s: System, step: Step, q: nat)
    requires Inv(p, s) && Enabled(p, s, step) && q in s.relay.rows && O.Settled(s.relay.rows[q])
    ensures q in Next(p, s, step).relay.rows && Next(p, s, step).relay.rows[q] == s.relay.rows[q]
  {
    RelayView(p, s, step, q);
    RelayStepOf(p, s, step);
    hide Inv, Enabled, Next, R.Inv, R.Enabled, R.Next;
    if step.RelayStep? { R.SettledIsFinal(p, s.relay, s.now, step.relay, q); }
  }

  /** In every run a row that was published or dead-lettered stays exactly as it is. */
  lemma {:induction false} SettledForever(p: R.Params, states: seq<System>, steps: seq<Step>, i: nat, j: nat, q: nat)
    requires IsRun(p, states, steps) && i <= j < |states|
    requires q in states[i].relay.rows && O.Settled(states[i].relay.rows[q])
    ensures q in states[j].relay.rows && states[j].relay.rows[q] == states[i].relay.rows[q]
  {
    hide IsRun, Inv, Enabled, Next;
    if i < j {
      SettledForever(p, states, steps, i, j - 1, q);
      RunStep(p, states, steps, j - 1);
      SettledStep(p, states[j - 1], steps[j - 1], q);
    }
  }

  /** Only relay steps change existing rows. */
  lemma {:induction false} RelayView(p: R.Params, s: System, step: Step, q: nat)
    requires Inv(p, s) && Enabled(p, s, step) && q in s.relay.rows
    ensures !step.RelayStep? ==> q in Next(p, s, step).relay.rows && Next(p, s, step).relay.rows[q] == s.relay.rows[q]
    ensures step.RelayStep? ==> Next(p, s, step).relay == R.Next(p, s.relay, s.now, step.relay)
  {
    hide R.Inv, C.Inv, W.Inv, SocketsInv, BrowsersInv;
    BackEndView(p, s, step);
    hide Next;
    if step.WriteStep? && step.write.Commit? { CommitIsInsert(p, s, step.write); }
  }

  lemma {:induction false} RelayStepOf(p: R.Params, s: System, step: Step)
    requires Inv(p, s) && Enabled(p, s, step)
    ensures R.Inv(p, s.relay, s.now) && R.LogInv(p, s.relay) && W.Inv(s.db) && C.Inv(s.relay.log, s.consumer)
    ensures step.RelayStep? ==> R.Enabled(p, s.relay, s.now, step.relay)
  {
  }

  /** The step is this worker recording an outcome for this row. */
  ghost predicate Releases(s: System, step: Step, w: string, q: nat) {
    step.RelayStep? && R.RecordsOutcome(s.relay, step.relay) && step.relay.worker == w && R.Head(s.relay, w) == q
  }

  lemma {:induction false} LeaseStep(p: R.Params, s: System, step: Step, q: nat, w: string)
    requires Inv(p, s) && Enabled(p, s, step) && q in s.relay.rows && O.HeldBy(s.relay.rows[q], w)
    requires s.now <= s.relay.rows[q].lease.value.until && !Releases(s, step, w, q)
    ensures q in Next(p, s, step).relay.rows && Next(p, s, step).relay.rows[q] == s.relay.rows[q]
  {
    RelayView(p, s, step, q);
    RelayStepOf(p, s, step);
    hide Inv, Enabled, Next, R.Inv, R.Enabled, R.Next, R.RecordsOutcome;
    if step.RelayStep? { R.LeaseFencing(p, s.relay, s.now, step.relay, q, w); }
  }

  /** Fencing over runs: as long as its lease has not expired and the holder has not recorded an outcome, a leased
      row does not change, so no other worker is given it. */
  lemma {:induction false} ExclusiveLease(
    p: R.Params, states: seq<System>, steps: seq<Step>, i: nat, j: nat, q: nat, w: string)
    requires IsRun(p, states, steps) && i <= j < |states|
    requires q in states[i].relay.rows && O.HeldBy(states[i].relay.rows[q], w)
    requires forall k :: i <= k < j ==>
               states[k].now <= states[i].relay.rows[q].lease.value.until && !Releases(states[k], steps[k], w, q)
    ensures q in states[j].relay.rows && states[j].relay.rows[q] == states[i].relay.rows[q]
  {
    hide IsRun, Inv, Enabled, Next, Releases;
    if i < j {
      ExclusiveLease(p, states, steps, i, j - 1, q, w);
      RunStep(p, states, steps, j - 1);
      LeaseStep(p, states[j - 1], steps[j - 1], q, w);
    }
  }

  /** Exclusiveness from the claim on: the rows a worker claims at a time are its own, and no step of any worker but its
      own outcome changes them, until the lease written by that claim has passed. */
  lemma {:induction false} ClaimIsExclusive(
    p: R.Params, states: seq<System>, steps: seq<Step>, i: nat, j: nat, q: nat)
    requires IsRun(p, states, steps) && i < j < |states|
    requires steps[i].RelayStep? && steps[i].relay.Claim? && q in O.Sequences(steps[i].relay.batch)
    requires var claim := steps[i].relay;
             forall k :: i < k < j ==>
               states[k].now <= claim.at + O.LeaseLength(p.config) && !Releases(states[k], steps[k], claim.worker, q)
    ensures var claim := steps[i].relay;
            && q in states[i].relay.rows && q in states[j].relay.rows
            && states[j].relay.rows[q].lease == Some(O.Lease(claim.worker, claim.at + O.LeaseLength(p.config)))
            && states[j].relay.rows[q].(lease := states[i].relay.rows[q].lease) == states[i].relay.rows[q]
  {
    ClaimStep(p, states, steps, i, q);
    hide IsRun, Inv, Enabled, Next, Releases;
    ExclusiveLease(p, states, steps, i + 1, j, q, steps[i].relay.worker);
  }

  lemma {:induction false} ClaimStep(p: R.Params, states: seq<System>, steps: seq<Step>, i: nat, q: nat)
    requires IsRun(p, states, steps) && i + 1 < |states|
    requires steps[i].RelayStep? && steps[i].relay.Claim? && q in O.Sequences(steps[i].relay.batch)
    ensures var claim := steps[i].relay;
            && q in states[i].relay.rows && q in states[i + 1].relay.rows
            && states[i + 1].relay.rows[q]
               == states[i].relay.rows[q].(lease := Some(O.Lease(claim.worker, claim.at + O.LeaseLength(p.config))))
  {
    hide IsRun, Inv, Enabled, Next, R.Inv, R.Enabled, R.Next, O.Sequences;
    RunStep(p, states, steps, i);
    RelayStepOf(p, states[i], steps[i]);
    BackEndView(p, states[i], steps[i]);
    R.ClaimGrants(p, states[i].relay, states[i].now, steps[i].relay, q);
  }

  /** What the outbox promises in every reachable state: a row is dead exactly when it has used all attempts and then no
      earlier than the accumulated back-off after its first recorded failure; published and dead exclude each other and
      end the lease; every published row's message is in the log; and the backlog is the total less published and
      dead. */
  lemma {:induction false} OutboxGuarantees(p: R.Params, states: seq<System>, steps: seq<Step>, k: nat, q: nat)
    requires IsRun(p, states, steps) && k < |states| && q in states[k].relay.rows
    ensures var st := states[k].relay;
            var r := st.rows[q];
            && (r.dead.Some? <==> r.attempts == p.config.maxAttempts) && r.attempts <= p.config.maxAttempts
            && !(r.published.Some? && r.dead.Some?) && (O.Settled(r) ==> r.lease.None?)
            && (r.dead.Some? ==>
                  q in st.firstFailure && r.dead.value >= st.firstFailure[q] + R.DelaySum(p, p.config.maxAttempts - 1))
            && (r.published.Some? ==>
                  q in st.placed && Holds(st.log, st.placed[q]) && At(st.log, st.placed[q]) == Record(q, r.payload))
            && q in states[k].db.events && r.payload == Marshal(states[k].db.events[q])
            && |O.Open(st.rows)| == |states[k].db.events| - |O.Published(st.rows)| - |O.Dead(st.rows)|
  {
    RunInv(p, states, steps, k);
    Guarantees(p, states[k], q);
  }

  lemma {:induction false} Guarantees(p: R.Params, s: System, q: nat)
    requires BackInv(p, s) && q in s.relay.rows
    ensures var st, r := s.relay, s.relay.rows[q];
            && (r.dead.Some? <==> r.attempts == p.config.maxAttempts) && r.attempts <= p.config.maxAttempts
            && !(r.published.Some? && r.dead.Some?) && (O.Settled(r) ==> r.lease.None?)
            && (r.dead.Some? ==>
                  q in st.firstFailure && r.dead.value >= st.firstFailure[q] + R.DelaySum(p, p.config.maxAttempts - 1))
            && (r.published.Some? ==>
                  q in st.placed && Holds(st.log, st.placed[q]) && At(st.log, st.placed[q]) == Record(q, r.payload))
            && q in s.db.events && r.payload == Marshal(s.db.events[q])
            && |O.Open(st.rows)| == |s.db.events| - |O.Published(st.rows)| - |O.Dead(st.rows)|
  {
    var st := s.relay;
    assert R.RowOk(p, s.now, q, st.rows[q], st.placed, st.firstFailure);
    if st.rows[q].published.Some? {
      PlacedRecord(p, s, q);
    }
    Backlog(p, s);
  }

  lemma {:induction false} PlacedRecord(p: R.Params, s: System, q: nat)
    requires BackInv(p, s) && q in s.relay.rows && q in s.relay.placed
    ensures Holds(s.relay.log, s.relay.placed[q])
    ensures At(s.relay.log, s.relay.placed[q]) == Record(q, s.relay.rows[q].payload)
  {
    hide W.Inv, C.Inv;
    R.PlacedIsRow(p, s.relay, q);
  }

  lemma {:induction false} Backlog(p: R.Params, s: System)
    requires BackInv(p, s)
    ensures |O.Open(s.relay.rows)| == |s.db.events| - |O.Published(s.relay.rows)| - |O.Dead(s.relay.rows)|
  {
    var st := s.relay;
    forall o | o in st.rows
      ensures !(st.rows[o].published.Some? && st.rows[o].dead.Some?)
    {
      assert R.RowOk(p, s.now, o, st.rows[o], st.placed, st.firstFailure);
    }
    hide R.Inv;
    hide W.Inv;
    hide C.Inv;
    O.PendingIsTheRest(st.rows);
    assert |st.rows| == |st.rows.Keys| == |s.db.events.Keys| == |s.db.events|;
  }

  /** The log holds only messages of committed rows, in the partition of their project. */
  lemma {:induction false} LogHoldsOnlyCommitted(
    p: R.Params, states: seq<System>, steps: seq<Step>, k: nat, place: Place)
    requires IsRun(p, states, steps) && k < |states| && Holds(states[k].relay.log, place)
    ensures var record, events := At(states[k].relay.log, place), states[k].db.events;
            && record.sequence in events && record.payload == Marshal(events[record.sequence])
            && place.partition == p.partition(events[record.sequence].projectId)
  {
    RunInv(p, states, steps, k);
    RecordIsEvent(p, states[k], place);
  }

  lemma {:induction false} RecordIsEvent(p: R.Params, s: System, place: Place)
    requires BackInv(p, s) && Holds(s.relay.log, place)
    ensures var record := At(s.relay.log, place);
            && record.sequence in s.db.events && record.payload == Marshal(s.db.events[record.sequence])
            && place.partition == p.partition(s.db.events[record.sequence].projectId)
            && Decode(record.payload) == Ok(s.db.events[record.sequence])
  {
    hide W.Inv, C.Inv;
    R.RecordIsRow(p, s.relay, place);
  }

  /** Contract closure: in every run each committed payload decodes to the event its transaction wrote, so the relay
      never fails and the consumer never skips an event because it does not decode. */
  lemma {:induction false} NothingIsRejected(p: R.Params, states: seq<System>, steps: seq<Step>, k: nat)
    requires IsRun(p, states, steps) && k < |states|
    ensures forall q :: q in states[k].db.events ==>
        Decode(Marshal(states[k].db.events[q])) == Ok(states[k].db.events[q])
    ensures forall w, i :: w in states[k].relay.workers && 0 <= i < |states[k].relay.workers[w].batch| ==>
              Decode(states[k].relay.workers[w].batch[i].payload).Ok?
    ensures states[k].consumer.rejected == {}
  {
    RunInv(p, states, steps, k);
    EverythingDecodes(p, states[k]);
  }

  lemma {:induction false} EverythingDecodes(p: R.Params, s: System)
    requires BackInv(p, s)
    ensures forall q :: q in s.db.events ==> Decode(Marshal(s.db.events[q])) == Ok(s.db.events[q])
    ensures forall w, i :: w in s.relay.workers && 0 <= i < |s.relay.workers[w].batch| ==>
              Decode(s.relay.workers[w].batch[i].payload).Ok?
    ensures s.consumer.rejected == {}
  {
    forall q | q in s.db.events
      ensures Decode(Marshal(s.db.events[q])) == Ok(s.db.events[q])
    {
      assert W.EventOk(s.db, q);
    }
    forall w, i | w in s.relay.workers && 0 <= i < |s.relay.workers[w].batch|
      ensures Decode(s.relay.workers[w].batch[i].payload).Ok?
    {
      assert R.WorkerOk(p, s.now, s.relay.rows, s.relay.placed, w, s.relay.workers[w]);
      assert R.ItemOk(s.relay.rows, w, s.relay.workers[w].batch[i]);
    }
    forall place | Holds(s.relay.log, place)
      ensures Decode(At(s.relay.log, place).payload).Ok?
    {
      RecordIsEvent(p, s, place);
    }
  }

  /** Offset safety: in every run each record below a committed offset has been broadcast. */
  lemma {:induction false} CommittedWasBroadcast(
    p: R.Params, states: seq<System>, steps: seq<Step>, k: nat, place: Place)
    requires IsRun(p, states, steps) && k < |states|
    requires place.offset < C.Offset(states[k].consumer.committed, place.partition)
    ensures var s := states[k];
            && Holds(s.relay.log, place) && place in s.consumer.heard
            && s.consumer.heard[place] < |s.consumer.broadcasts|
            && s.consumer.broadcasts[s.consumer.heard[place]].payload == At(s.relay.log, place).payload
  {
    RunInv(p, states, steps, k);
    NothingIsRejected(p, states, steps, k);
    C.CommittedIsHandled(states[k].relay.log, states[k].consumer, place);
  }

  /** No silent gap: in every run, what a registered, uncancelled client was handed since it subscribed is exactly the
      Broadcast calls for its project since then, in order, and its queue holds at most 64 messages. While the last
      call is still to cancel the client it found full, that call alone may be missing. */
  lemma {:induction false} NoSilentGap(p: R.Params, states: seq<System>, steps: seq<Step>, k: nat, c: nat, project: int)
    requires IsRun(p, states, steps) && k < |states| && c in states[k].sockets
    ensures |states[k].sockets[c].conn.handed| - states[k].sockets[c].conn.written <= 64
    ensures var conn, calls := states[k].sockets[c].conn, states[k].consumer.broadcasts;
            H.Receives(conn, project) && !conn.cancelled && !conn.full ==>
              conn.mark <= |conn.handed| && H.Tags(conn.handed[conn.mark..]) == H.Matching(calls, conn.since, project)
    ensures var conn, calls := states[k].sockets[c].conn, states[k].consumer.broadcasts;
            H.Receives(conn, project) && !conn.cancelled && conn.full ==>
              H.Gapless(conn, calls, project) || H.MissesLast(conn, calls, project)
  {
    RunInv(p, states, steps, k);
    var s := states[k];
    assert SocketOk(s.consumer.broadcasts, s.sockets[c]);
    if H.Receives(s.sockets[c].conn, project) && !s.sockets[c].conn.cancelled && !s.sockets[c].conn.full {
      assert H.Gapless(s.sockets[c].conn, s.consumer.broadcasts, project);
    }
  }

  lemma {:induction false} FullStep(p: R.Params, s: System, step: Step, c: nat)
    requires Enabled(p, s, step) && c in s.sockets && s.sockets[c].conn.full
    ensures c in Next(p, s, step).sockets && Next(p, s, step).sockets[c].conn.full
    ensures s.sockets[c].conn.cancelled ==> Next(p, s, step).sockets[c].conn.cancelled
    ensures Next(p, s, step).consumer.broadcasts != s.consumer.broadcasts ==> s.sockets[c].conn.cancelled
  {
    hide W.Enabled, W.Next, R.Enabled, R.Next;
    if step.ConsumeStep? { ConsumeAddsOneCall(s, step.consume); }
  }

  /** The first omission cancels: a client that a Broadcast call found full is cancelled before the next call. */
  lemma {:induction false} CancelledBeforeNextCall(
    p: R.Params, states: seq<System>, steps: seq<Step>, i: nat, j: nat, c: nat)
    requires IsRun(p, states, steps) && i <= j < |states| && c in states[i].sockets && states[i].sockets[c].conn.full
    ensures c in states[j].sockets && states[j].sockets[c].conn.full
    ensures states[i].sockets[c].conn.cancelled ==> states[j].sockets[c].conn.cancelled
    ensures states[j].consumer.broadcasts != states[i].consumer.broadcasts ==> states[j].sockets[c].conn.cancelled
  {
    hide IsRun, Inv, Enabled, Next;
    if i < j {
      CancelledBeforeNextCall(p, states, steps, i, j - 1, c);
      RunStep(p, states, steps, j - 1);
      FullStep(p, states[j - 1], steps[j - 1], c);
    }
  }

  /** A pending row that nothing has touched since state i can be claimed again once the longer of the lease and the
      largest back-off has passed, whatever crashed in between. */
  lemma {:induction false} UntouchedRowBecomesEligible(
    p: R.Params, states: seq<System>, steps: seq<Step>, i: nat, j: nat, q: nat)
    requires IsRun(p, states, steps) && i <= j < |states| && q in states[i].relay.rows && q in states[j].relay.rows
    requires states[j].relay.rows[q] == states[i].relay.rows[q] && !O.Settled(states[i].relay.rows[q])
    requires states[j].now > states[i].now + Max(O.LeaseLength(p.config), p.config.maxBackoff + p.skew)
    ensures O.Eligible(states[j].relay.rows[q], states[j].now)
  {
    RunInv(p, states, steps, i);
    R.NoRowIsStuck(p, states[i].relay, states[i].now, q, states[j].now);
  }

  /** The outcomes recorded by steps i to j - 1. */
  ghost function Outcomes(states: seq<System>, steps: seq<Step>, i: nat, j: nat): nat
    requires i <= j < |states| && |states| == |steps| + 1
  {
    if i == j then 0
    else Outcomes(states, steps, i, j - 1)
         + if steps[j - 1].RelayStep? && R.RecordsOutcome(states[j - 1].relay, steps[j - 1].relay) then 1 else 0
  }

  /** Between commits of new events the workers can record only as many outcomes as there are attempts left. */
  lemma {:induction false} OutcomesAreBounded(
    p: R.Params, states: seq<System>, steps: seq<Step>, i: nat, j: nat, top: nat)
    requires IsRun(p, states, steps) && i <= j < |states|
    requires forall q :: q in states[i].relay.rows ==> q < top
    requires forall k :: i <= k < j ==> !(steps[k].WriteStep? && steps[k].write.Commit?)
    ensures states[j].relay.rows.Keys == states[i].relay.rows.Keys
    ensures Outcomes(states, steps, i, j) + R.Work(p, states[j].relay.rows, top) <= R.Work(p, states[i].relay.rows, top)
  {
    hide IsRun, Inv, Enabled, Next, R.RecordsOutcome, R.Work;
    if i < j {
      OutcomesAreBounded(p, states, steps, i, j - 1, top);
      RunStep(p, states, steps, j - 1);
      OutcomeStep(p, states[j - 1], steps[j - 1], top);
    }
  }

  lemma {:induction false} OutcomeStep(p: R.Params, s: System, step: Step, top: nat)
    requires Inv(p, s) && Enabled(p, s, step) && !(step.WriteStep? && step.write.Commit?)
    requires forall q :: q in s.relay.rows ==> q < top
    ensures Next(p, s, step).relay.rows.Keys == s.relay.rows.Keys
    ensures R.Work(p, Next(p, s, step).relay.rows, top)
              + (if step.RelayStep? && R.RecordsOutcome(s.relay, step.relay) then 1 else 0)
              <= R.Work(p, s.relay.rows, top)
  {
    hide R.Inv, C.Inv, W.Inv, SocketsInv, BrowsersInv;
    BackEndView(p, s, step);
    hide Next;
    if step.RelayStep? {
      RelayKeepsKeys(p, s, step.relay);
      R.OutcomesUseUpWork(p, s.relay, s.now, step.relay, top);
    }
  }

  // ---------- what can change a page's map ----------

  /** A message that reaches the page on an older socket, or any step of another page, changes nothing on it. */
  lemma {:induction false} OnlyTheNewestSocketCounts(p: R.Params, s: System, c: nat, get: nat, open: bool)
    requires Inv(p, s) && Enabled(p, s, OnSocket(c, Receive(get, open)))
    ensures s.browsers[s.sockets[c].owner].socket != Some(c) ==>
        Next(p, s, OnSocket(c, Receive(get, open))).browsers == s.browsers
    ensures forall i :: i in s.browsers && i != s.sockets[c].owner ==>
        Next(p, s, OnSocket(c, Receive(get, open))).browsers[i] == s.browsers[i]
  {
    CurrentSocket(s.sockets, c, s.browsers[s.sockets[c].owner]);
  }

  /** The steps that replace a page's map: the end of a load, and the two that start one, when no project is
      selected. */
  ghost predicate Replaces(s: System, step: Step, i: nat) {
    || (step.OnBrowser? && step.browser == i && step.browserStep.FinishGet?)
    || (step.OnBrowser? && step.browser == i && step.browserStep.Reload? && Unselected(s, i))
    || (step.OnSocket? && step.socketStep.Receive? && ReceivesReady(s, step.socket, i) && Unselected(s, i))
  }

  ghost predicate Unselected(s: System, i: nat) {
    i in s.browsers && s.browsers[i].project == 0
  }

  ghost predicate ReceivesReady(s: System, c: nat, i: nat) {
    c in s.sockets && var k := s.sockets[c];
    k.owner == i && k.received < |k.conn.handed| && k.conn.handed[k.received].Ready?
  }

  /** Every other step, whatever it is, keeps every entry of the map at its version or a later one. */
  lemma {:induction false} OtherStepsNeverRegress(p: R.Params, s: System, step: Step, i: nat, t: int)
    requires Enabled(p, s, step) && i in s.browsers && !Replaces(s, step, i) && t in s.browsers[i].tasks
    ensures i in Next(p, s, step).browsers
    ensures Merge.Covers(Next(p, s, step).browsers[i].tasks, t, s.browsers[i].tasks[t].version)
  {
    hide W.Enabled;
    hide R.Enabled;
    hide C.Enabled;
    hide W.Next;
    hide R.Next;
    hide C.Next;
  }

  /** A finished load either is for the selected project, and then its snapshot replaces the map, or changes nothing
      shown. */
  lemma {:induction false} InstallIsForTheSelection(p: R.Params, s: System, i: nat, get: nat)
    requires Inv(p, s) && Enabled(p, s, OnBrowser(i, FinishGet(get)))
    ensures var b, b' := s.browsers[i], Next(p, s, OnBrowser(i, FinishGet(get))).browsers[i];
            && (b.gets[get].project != b.project ==> b'.tasks == b.tasks)
            && (b.gets[get].project == b.project ==>
                  && b'.tasks == b.gets[get].reply.value.tasks
                  && forall t :: t in b'.tasks ==> b'.tasks[t].projectId == b'.project)
  {
    var b := s.browsers[i];
    assert GetsOk(s.db.history, s.consumer.broadcasts, b);
  }
}
