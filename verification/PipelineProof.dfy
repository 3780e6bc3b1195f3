/** The pipeline invariant holds in every reachable state. */
module PipelineProof {
  import opened Base
  import opened Events
  import opened Kafka
  import opened Pipeline
  import Merge
  import W = Writers
  import R = RelayProtocol
  import C = Consumer
  import H = Hub

  // ---------- facts about the back end ----------

  /** Every Broadcast call carries a committed event, exactly as its transaction wrote it. */
  lemma {:induction false} CallIsCommitted(p: R.Params, s: System, j: nat) returns (q: nat)
    requires BackInv(p, s) && j < |s.consumer.broadcasts|
    ensures q in s.db.events && s.db.events[q] == s.consumer.broadcasts[j].event
    ensures s.consumer.broadcasts[j].payload == Encoded(s.db.events[q])
    ensures WellFormedEvent(s.db.events[q]) && Committed(s.db.history, s.db.events[q].task)
    ensures W.IsRevision(s.db.history, s.db.events[q].task, Some(q))
  {
    var call := s.consumer.broadcasts[j];
    assert C.BroadcastOk(s.relay.log, call);
    var record := At(s.relay.log, call.source);
    assert R.RecordOk(p, s.relay.rows, call.source.partition, record);
    q := record.sequence;
    assert W.EventOk(s.db, q);
  }

  /** The newest committed version of a task is its row. */
  lemma {:induction false} NewestIsRow(db: W.Db, x: Task)
    requires W.Inv(db) && Committed(db.history, x)
    ensures x.id in db.tasks && x.version <= db.tasks[x.id].version && x.projectId == db.tasks[x.id].projectId
    ensures x.version == db.tasks[x.id].version ==> x == db.tasks[x.id]
    ensures db.tasks[x.id].id == x.id
  {
    assert W.TaskOk(db, x.id);
    W.CommittedRow(db, x.id);
  }

  lemma {:induction false} RowIsCommitted(db: W.Db, t: int)
    requires W.Inv(db) && t in db.tasks
    ensures db.tasks[t].id == t && Committed(db.history, db.tasks[t])
  {
    W.CommittedRow(db, t);
  }

  // ---------- steps of the back end ----------

  lemma {:induction false} TickKeeps(p: R.Params, s: System, later: int)
    requires BackInv(p, s) && s.now <= later
    ensures BackInv(p, s.(now := later))
  {
    R.TickInv(p, s.relay, s.now, later);
  }

  /** What a commit hands to the relay. */
  lemma {:induction false} CommitIsInsert(p: R.Params, s: System, w: W.Step)
    requires BackInv(p, s) && w.Commit? && W.Enabled(s.db, w)
    ensures var entry := s.db.open[w.tx].entry.value;
            var insert := R.Insert(entry.sequence, Marshal(entry.event), s.db.open[w.tx].began);
            && R.Enabled(p, s.relay, s.now, insert)
            && NextWrite(p, s, w).relay == R.Next(p, s.relay, s.now, insert)
            && entry.sequence !in s.db.events
  {
    assert W.TxOk(s.db, s.db.open[w.tx]);
  }

  lemma {:induction false} WriteKeepsBack(p: R.Params, s: System, w: W.Step)
    requires BackInv(p, s) && Enabled(p, s, WriteStep(w))
    ensures BackInv(p, NextWrite(p, s, w))
  {
    hide W.Inv;
    hide R.Inv;
    hide C.Inv;
    W.StepInv(s.db, w);
    if w.Commit? {
      CommitIsInsert(p, s, w);
      var entry := s.db.open[w.tx].entry.value;
      R.StepInv(p, s.relay, s.now, R.Insert(entry.sequence, Marshal(entry.event), s.db.open[w.tx].began));
    }
  }

  lemma {:induction false} RelayKeepsBack(p: R.Params, s: System, r: R.Step)
    requires BackInv(p, s) && Enabled(p, s, RelayStep(r))
    ensures BackInv(p, s.(relay := R.Next(p, s.relay, s.now, r)))
  {
    hide W.Inv, R.Inv, C.Inv, R.Enabled, R.Next, LogGrows;
    R.StepInv(p, s.relay, s.now, r);
    RelayKeepsPayloads(p, s, r);
    LogOnlyGrows(p, s, r);
    C.LogInv(s.relay.log, R.Next(p, s.relay, s.now, r).log, s.consumer);
  }

  lemma {:induction false} RelayKeepsPayloads(p: R.Params, s: System, r: R.Step)
    requires R.Inv(p, s.relay, s.now) && Enabled(p, s, RelayStep(r))
    ensures R.Next(p, s.relay, s.now, r).rows.Keys == s.relay.rows.Keys
    ensures forall q :: q in s.relay.rows ==> R.Next(p, s.relay, s.now, r).rows[q].payload == s.relay.rows[q].payload
  {
    hide R.Inv, R.Enabled, R.Next;
    RelayKeepsKeys(p, s, r);
    forall q | q in s.relay.rows
      ensures R.Next(p, s.relay, s.now, r).rows[q].payload == s.relay.rows[q].payload
    {
      R.RowStep(p, s.relay, s.now, r, q);
    }
  }

  lemma {:induction false} RelayKeepsKeys(p: R.Params, s: System, r: R.Step)
    requires Enabled(p, s, RelayStep(r))
    ensures R.Next(p, s.relay, s.now, r).rows.Keys == s.relay.rows.Keys
  {
  }

  lemma {:induction false} LogOnlyGrows(p: R.Params, s: System, r: R.Step)
    requires Enabled(p, s, RelayStep(r))
    ensures LogGrows(s.relay.log, R.Next(p, s.relay, s.now, r).log)
  {
  }

  lemma {:induction false} ConsumeKeepsBack(p: R.Params, s: System, c: C.Step)
    requires BackInv(p, s) && Enabled(p, s, ConsumeStep(c))
    ensures BackInv(p, NextConsume(s, c))
  {
    hide W.Inv;
    hide R.Inv;
    hide C.Inv;
    C.StepInv(s.relay.log, s.consumer, c);
  }

  // ---------- snapshots ----------

  lemma {:induction false} SeedsAreOld(db: W.Db, w: W.Step, t: int, project: int)
    requires W.Inv(db) && W.Enabled(db, w) && t in W.Next(db, w).history && Seeded(W.Next(db, w).history[t], project)
    ensures t in db.history && Seeded(db.history[t], project)
  {
    if w.Commit? { assert W.TxOk(db, db.open[w.tx]); }
  }

  /** Commits and further Broadcast calls do not spoil a snapshot. */
  lemma {:induction false} ReplyStaysOk(db: W.Db, w: W.Step, calls: seq<C.Broadcast>, project: int, r: Reply)
    requires W.Inv(db) && W.Enabled(db, w) && ReplyOk(db.history, calls, project, r)
    ensures ReplyOk(W.Next(db, w).history, calls, project, r)
  {
    W.StepGrows(db, w);
    forall t | t in W.Next(db, w).history && Seeded(W.Next(db, w).history[t], project)
      ensures t in r.tasks
    {
      SeedsAreOld(db, w, t, project);
    }
  }

  /** The server reads the committed rows: they cover everything broadcast so far. */
  lemma {:induction false} SnapshotOk(p: R.Params, s: System, project: int)
    requires BackInv(p, s)
    ensures ReplyOk(s.db.history, s.consumer.broadcasts, project,
                    Reply(TasksOf(s.db.tasks, project), |s.consumer.broadcasts|))
  {
    var calls := s.consumer.broadcasts;
    var r := Reply(TasksOf(s.db.tasks, project), |calls|);
    forall t | t in r.tasks
      ensures r.tasks[t].id == t && r.tasks[t].projectId == project && Committed(s.db.history, r.tasks[t])
    {
      RowIsCommitted(s.db, t);
    }
    forall t | t in s.db.history && Seeded(s.db.history[t], project)
      ensures t in r.tasks
    {
      SeedInProject(s.db, t, project);
    }
    forall j | 0 <= j < |calls| && calls[j].event.projectId == project
      ensures Merge.Covers(r.tasks, calls[j].event.task.id, calls[j].event.task.version)
    {
      var q := CallIsCommitted(p, s, j);
      NewestIsRow(s.db, calls[j].event.task);
    }
  }

  lemma {:induction false} SeedInProject(db: W.Db, t: int, project: int)
    requires W.Inv(db) && t in db.history && Seeded(db.history[t], project)
    ensures t in db.tasks && db.tasks[t].projectId == project
  {
    assert W.TaskOk(db, t);
    W.CommittedRow(db, t);
  }

  // ---------- steps and browsers ----------

  lemma {:induction false} WriteKeepsFront(p: R.Params, s: System, w: W.Step)
    requires Inv(p, s) && Enabled(p, s, WriteStep(w))
    ensures SocketsInv(NextWrite(p, s, w)) && BrowsersInv(NextWrite(p, s, w))
  {
    hide R.Inv;
    hide C.Inv;
    var s' := NextWrite(p, s, w);
    forall i | i in s.browsers
      ensures GetsOk(s'.db.history, s'.consumer.broadcasts, s.browsers[i])
      ensures LoadedOk(s'.db.history, s'.consumer.broadcasts, s.browsers[i])
    {
      BrowserSeesWrite(s.db, w, s.consumer.broadcasts, s.browsers[i]);
    }
  }

  lemma {:induction false} BrowserSeesWrite(db: W.Db, w: W.Step, calls: seq<C.Broadcast>, b: Browser)
    requires W.Inv(db) && W.Enabled(db, w) && GetsOk(db.history, calls, b) && LoadedOk(db.history, calls, b)
    ensures GetsOk(W.Next(db, w).history, calls, b) && LoadedOk(W.Next(db, w).history, calls, b)
  {
    W.StepGrows(db, w);
    forall g | g in b.gets && b.gets[g].reply.Some?
      ensures ReplyOk(W.Next(db, w).history, calls, b.gets[g].project, b.gets[g].reply.value)
    {
      ReplyStaysOk(db, w, calls, b.gets[g].project, b.gets[g].reply.value);
    }
    if b.loaded.Some? { ReplyStaysOk(db, w, calls, b.project, b.loaded.value.reply); }
    hide W.Inv;
  }

  /** A socket changed without anything being received: what was delivered is still there. */
  ghost predicate Extends(k: Socket, k': Socket) {
    && k'.owner == k.owner && k'.generation == k.generation && k'.received == k.received
    && k.conn.handed <= k'.conn.handed
  }

  lemma {:induction false} LinkKept(sockets: map<nat, Socket>, sockets': map<nat, Socket>, i: nat, b: Browser)
    requires LinkOk(sockets, i, b) && sockets'.Keys == sockets.Keys
    requires forall c :: c in sockets ==> Extends(sockets[c], sockets'[c])
    requires forall c :: c in sockets ==> sockets[c].received <= |sockets[c].conn.handed|
    ensures LinkOk(sockets', i, b)
  {
    if b.socket.Some? {
      var k, k' := sockets[b.socket.value], sockets'[b.socket.value];
      assert Extends(k, k');
      assert DeliveredOk(b, k);
    }
  }

  lemma {:induction false} SocketSeesConsume(s: System, c: C.Step, i: nat)
    requires C.Enabled(s.relay.log, s.consumer, c) && i in s.sockets && SocketOk(s.consumer.broadcasts, s.sockets[i])
    requires c.Crash? || !H.Doomed(s.sockets[i].conn)
    ensures i in NextConsume(s, c).sockets
    ensures SocketOk(NextConsume(s, c).consumer.broadcasts, NextConsume(s, c).sockets[i])
    ensures Extends(s.sockets[i], NextConsume(s, c).sockets[i])
  {
    var calls, calls' := s.consumer.broadcasts, NextConsume(s, c).consumer.broadcasts;
    var k := s.sockets[i];
    ConsumeAddsOneCall(s, c);
    H.OtherStepsOk(k.conn, calls, 0);
    if |calls'| > |calls| {
      H.DeliverOk(k.conn, calls, calls'[|calls|]);
    }
    hide H.ConnOk;
  }

  lemma {:induction false} ConsumeKeepsFront(p: R.Params, s: System, c: C.Step)
    requires Inv(p, s) && Enabled(p, s, ConsumeStep(c))
    ensures SocketsInv(NextConsume(s, c)) && BrowsersInv(NextConsume(s, c))
  {
    hide BackInv;
    hide SocketOk;
    var s' := NextConsume(s, c);
    var calls := s.consumer.broadcasts;
    ConsumeAddsOneCall(s, c);
    forall i | i in s.sockets
      ensures SocketOk(s'.consumer.broadcasts, s'.sockets[i]) && Extends(s.sockets[i], s'.sockets[i])
      ensures s.sockets[i].received <= |s.sockets[i].conn.handed|
    {
      SocketSeesConsume(s, c, i);
      SocketBounds(calls, s.sockets[i]);
    }
    forall i | i in s.browsers
      ensures GetsOk(s'.db.history, s'.consumer.broadcasts, s.browsers[i])
      ensures LoadedOk(s'.db.history, s'.consumer.broadcasts, s.browsers[i])
      ensures LinkOk(s'.sockets, i, s.browsers[i])
    {
      BrowserSeesCalls(s.db.history, calls, s'.consumer.broadcasts, s.browsers[i]);
      LinkKept(s.sockets, s'.sockets, i, s.browsers[i]);
    }
  }

  lemma {:induction false} SocketBounds(calls: seq<C.Broadcast>, k: Socket)
    requires SocketOk(calls, k)
    ensures k.received <= |k.conn.handed|
  {
  }

  lemma {:induction false} ConsumeAddsOneCall(s: System, c: C.Step)
    requires C.Enabled(s.relay.log, s.consumer, c)
    ensures var calls, calls' := s.consumer.broadcasts, C.Next(s.relay.log, s.consumer, c).broadcasts;
            calls' == calls || (|calls'| == |calls| + 1 && calls' == calls + [calls'[|calls|]] && !c.Crash?)
  {
  }

  lemma {:induction false} BrowserSeesCalls(
    history: map<int, seq<W.Revision>>, calls: seq<C.Broadcast>, calls': seq<C.Broadcast>, b: Browser)
    requires GetsOk(history, calls, b) && LoadedOk(history, calls, b) && calls <= calls'
    ensures GetsOk(history, calls', b) && LoadedOk(history, calls', b)
  {
  }

  /** The back end does not depend on sockets and browsers. */
  lemma {:induction false} BackKept(p: R.Params, s: System, s': System)
    requires BackInv(p, s) && s' == s.(sockets := s'.sockets, browsers := s'.browsers)
    ensures BackInv(p, s')
  {
  }

  lemma {:induction false} SocketStepOk(calls: seq<C.Broadcast>, k: Socket, step: SocketStep)
    requires SocketOk(calls, k) && !step.Receive? && (step.Serve? ==> k.commands != [] && k.conn.registered)
    requires step.Register? ==> !k.conn.registered && !k.conn.cancelled
    requires step.Control? ==> k.conn.registered
    ensures SocketOk(calls, NextConn(k, |calls|, step)) && Extends(k, NextConn(k, |calls|, step))
  {
    H.OtherStepsOk(k.conn, calls, 0);
    H.ControlOk(k.conn, calls, H.Control);
    if step.Register? { H.RegisterOk(k.conn, calls); }
    if step.Serve? {
      var project := k.commands[0].project;
      H.SubscribeOk(k.conn, calls, project);
      H.OtherStepsOk(k.conn, calls, project);
    }
    hide H.ConnOk;
  }

  lemma {:induction false} SocketStepKeeps(p: R.Params, s: System, c: nat, step: SocketStep)
    requires Inv(p, s) && Enabled(p, s, OnSocket(c, step)) && !step.Receive?
    ensures Inv(p, Next(p, s, OnSocket(c, step)))
  {
    hide BackInv;
    var calls := s.consumer.broadcasts;
    var s' := Next(p, s, OnSocket(c, step));
    var k := s.sockets[c];
    assert SocketOk(calls, k);
    SocketStepOk(calls, k, step);
    forall i | i in s.sockets
      ensures Extends(s.sockets[i], s'.sockets[i]) && s.sockets[i].received <= |s.sockets[i].conn.handed|
    {
      assert SocketOk(calls, s.sockets[i]);
    }
    BackKept(p, s, s');
    forall i | i in s.browsers
      ensures LinkOk(s'.sockets, i, s.browsers[i])
    {
      LinkKept(s.sockets, s'.sockets, i, s.browsers[i]);
    }
  }

  // ---------- the page ----------

  lemma {:induction false} AppliedOk(history: map<int, seq<W.Revision>>, calls: seq<C.Broadcast>, b: Browser, x: Task)
    requires GetsOk(history, calls, b) && LoadedOk(history, calls, b) && Committed(history, x)
    ensures GetsOk(history, calls, Applied(b, x)) && LoadedOk(history, calls, Applied(b, x))
  {
    if b.loaded.Some? {
      assert (b.applied + [x])[..|b.applied|] == b.applied;
    }
  }

  lemma {:induction false} StartLoadOk(
    history: map<int, seq<W.Revision>>, calls: seq<C.Broadcast>, b: Browser, get: nat)
    requires GetsOk(history, calls, b) && LoadedOk(history, calls, b) && get !in b.gets
    ensures GetsOk(history, calls, StartLoad(b, get)) && LoadedOk(history, calls, StartLoad(b, get))
  {
  }

  /** Handling a message: an event of the current socket is committed, so applying it is fine. */
  lemma {:induction false} HandleOk(p: R.Params, s: System, b: Browser, k: Socket, get: nat)
    requires BackInv(p, s) && SocketOk(s.consumer.broadcasts, k) && k.received < |k.conn.handed| && get !in b.gets
    requires GetsOk(s.db.history, s.consumer.broadcasts, b) && LoadedOk(s.db.history, s.consumer.broadcasts, b)
    ensures var b' := Handle(b, k.conn.handed[k.received], get);
            GetsOk(s.db.history, s.consumer.broadcasts, b') && LoadedOk(s.db.history, s.consumer.broadcasts, b')
  {
    hide W.Inv, R.Inv, C.Inv, RowsAreEvents;
    var m := k.conn.handed[k.received];
    assert H.MsgOk(m, s.consumer.broadcasts);
    StartLoadOk(s.db.history, s.consumer.broadcasts, b, get);
    if m.Event? {
      var q := CallIsCommitted(p, s, m.tag);
      hide BackInv;
      AppliedOk(s.db.history, s.consumer.broadcasts, b, m.payload.event.task);
    }
  }

  /** ... and the applied list keeps up with what the socket delivered. */
  lemma {:induction false} HandleDelivers(b: Browser, k: Socket, get: nat)
    requires DeliveredOk(b, k) && k.received < |k.conn.handed|
    ensures DeliveredOk(Handle(b, k.conn.handed[k.received], get), k.(received := k.received + 1))
  {
    var m := k.conn.handed[k.received];
    var b' := Handle(b, m, get);
    if b'.loaded.Some? {
      forall i | b'.loaded.value.before <= i < k.received + 1
        ensures WasApplied(k.conn.handed[i], b'.applied)
      {
        if i < k.received { assert WasApplied(k.conn.handed[i], b.applied); }
      }
    }
  }

  /** The generation check: only the page's current socket reaches the handler. */
  lemma {:induction false} CurrentSocket(sockets: map<nat, Socket>, c: nat, b: Browser)
    requires c in sockets && LinkOk(sockets, sockets[c].owner, b)
    ensures sockets[c].generation == b.generation <==> b.socket == Some(c)
  {
  }

  lemma {:induction false} HandleKeepsLink(b: Browser, m: H.Msg, get: nat)
    ensures Handle(b, m, get).socket == b.socket && Handle(b, m, get).generation == b.generation
  {
  }

  lemma {:induction false} ReceiverLink(s: System, c: nat, get: nat, open: bool)
    requires SocketEnabled(s, c, Receive(get, open))
    requires LinkOk(s.sockets, s.sockets[c].owner, s.browsers[s.sockets[c].owner])
    ensures var s', i := NextReceive(s, c, get, open), s.sockets[c].owner;
            i in s'.browsers && LinkOk(s'.sockets, i, s'.browsers[i])
  {
    var k := s.sockets[c];
    var b := s.browsers[k.owner];
    CurrentSocket(s.sockets, c, b);
    if k.generation == b.generation {
      HandleDelivers(b, k, get);
      HandleKeepsLink(b, k.conn.handed[k.received], get);
      hide Handle;
    }
  }

  lemma {:induction false} OtherLink(s: System, c: nat, get: nat, open: bool, i: nat)
    requires SocketEnabled(s, c, Receive(get, open)) && i in s.browsers && i != s.sockets[c].owner
    requires LinkOk(s.sockets, i, s.browsers[i])
    ensures LinkOk(NextReceive(s, c, get, open).sockets, i, s.browsers[i])
  {
  }

  lemma {:induction false} ReceiveSockets(s: System, c: nat, get: nat, open: bool)
    requires SocketsInv(s) && SocketEnabled(s, c, Receive(get, open))
    ensures SocketsInv(NextReceive(s, c, get, open))
  {
    hide H.ConnOk;
    assert SocketOk(s.consumer.broadcasts, s.sockets[c]);
  }

  lemma {:induction false} ReceiverBoard(p: R.Params, s: System, c: nat, get: nat, open: bool)
    requires Inv(p, s) && SocketEnabled(s, c, Receive(get, open))
    ensures var s', i := NextReceive(s, c, get, open), s.sockets[c].owner;
            && i in s'.browsers
            && GetsOk(s.db.history, s.consumer.broadcasts, s'.browsers[i])
            && LoadedOk(s.db.history, s.consumer.broadcasts, s'.browsers[i])
  {
    hide BackInv;
    hide LinkOk;
    hide GetsOk;
    hide LoadedOk;
    var k := s.sockets[c];
    assert SocketOk(s.consumer.broadcasts, k);
    SocketBounds(s.consumer.broadcasts, k);
    HandleOk(p, s, s.browsers[k.owner], k, get);
    hide Handle;
  }

  lemma {:induction false} ReceiveKeeps(p: R.Params, s: System, c: nat, get: nat, open: bool)
    requires Inv(p, s) && Enabled(p, s, OnSocket(c, Receive(get, open)))
    ensures Inv(p, NextReceive(s, c, get, open))
  {
    hide BackInv;
    hide LinkOk;
    hide GetsOk;
    hide LoadedOk;
    hide SocketsInv;
    hide Handle;
    var s' := NextReceive(s, c, get, open);
    ReceiveSockets(s, c, get, open);
    ReceiverBoard(p, s, c, get, open);
    ReceiverLink(s, c, get, open);
    BackKept(p, s, s');
    forall i | i in s.browsers && i != s.sockets[c].owner
      ensures LinkOk(s'.sockets, i, s'.browsers[i])
    {
      OtherLink(s, c, get, open, i);
    }
  }

  // ---------- the page's own steps ----------

  /** A browser step that keeps the page's socket, or opens a new one, leaves the other pages' links alone. */
  lemma {:induction false} OtherPages(s: System, i: nat, step: BrowserStep, o: nat)
    requires BrowserEnabled(s, i, step) && o in s.browsers && o != i && LinkOk(s.sockets, o, s.browsers[o])
    requires LinkOk(s.sockets, i, s.browsers[i])
    ensures LinkOk(NextBrowser(s, i, step).sockets, o, s.browsers[o])
  {
  }

  lemma {:induction false} OwnLink(s: System, i: nat, step: BrowserStep)
    requires BrowserEnabled(s, i, step) && LinkOk(s.sockets, i, s.browsers[i])
    requires forall c :: c in s.sockets ==> s.sockets[c].received <= |s.sockets[c].conn.handed|
    ensures i in NextBrowser(s, i, step).browsers
    ensures LinkOk(NextBrowser(s, i, step).sockets, i, NextBrowser(s, i, step).browsers[i])
  {
    hide GetsOk, LoadedOk, ReplyOk, Merge.ApplyAll, TasksOf;
    var b := s.browsers[i];
    if b.socket.Some? { assert DeliveredOk(b, s.sockets[b.socket.value]); }
    if step.LocalApply? { assert forall x :: x in b.applied ==> x in b.applied + [step.task]; }
  }

  lemma {:induction false} OwnBoard(p: R.Params, s: System, i: nat, step: BrowserStep)
    requires BackInv(p, s) && BrowserEnabled(s, i, step)
    requires GetsOk(s.db.history, s.consumer.broadcasts, s.browsers[i])
    requires LoadedOk(s.db.history, s.consumer.broadcasts, s.browsers[i])
    ensures i in NextBrowser(s, i, step).browsers
    ensures GetsOk(s.db.history, s.consumer.broadcasts, NextBrowser(s, i, step).browsers[i])
    ensures LoadedOk(s.db.history, s.consumer.broadcasts, NextBrowser(s, i, step).browsers[i])
  {
    hide W.Inv, R.Inv, C.Inv, RowsAreEvents, ReplyOk;
    var b := s.browsers[i];
    var history, calls := s.db.history, s.consumer.broadcasts;
    match step
    case Connect(_) =>
    case Select(project, get, open) =>
      StartLoadOk(history, calls, b.(project := project, loaded := None, applied := []), get);
    case Reload(get) => StartLoadOk(history, calls, b, get);
    case ServeGet(get) => SnapshotOk(p, s, b.gets[get].project);
    case FinishGet(get) =>
    case FailGet(get) =>
    case Resubscribe =>
    case LocalApply(x) =>
      AppliedOk(history, calls, b, x);
      assert AppliedOwn(b, x).(loaded := Applied(b, x).loaded) == Applied(b, x);
  }

  lemma {:induction false} NewSocketOk(s: System, i: nat, step: BrowserStep)
    requires BrowserEnabled(s, i, step) && SocketsInv(s)
    ensures SocketsInv(NextBrowser(s, i, step))
  {
    H.NewConnOk(s.consumer.broadcasts);
    forall c | c in s.sockets
      ensures SocketOk(s.consumer.broadcasts, s.sockets[c])
      ensures forall project, open :: SocketOk(s.consumer.broadcasts, Subscribing(s.sockets[c], project, open))
    {
    }
    hide SocketOk;
    hide H.ConnOk;
  }

  lemma {:induction false} BrowserStepKeeps(p: R.Params, s: System, i: nat, step: BrowserStep)
    requires Inv(p, s) && Enabled(p, s, OnBrowser(i, step))
    ensures Inv(p, NextBrowser(s, i, step))
  {
    hide BackInv;
    hide SocketOk;
    hide LinkOk;
    hide GetsOk;
    hide LoadedOk;
    var s' := NextBrowser(s, i, step);
    forall c | c in s.sockets
      ensures s.sockets[c].received <= |s.sockets[c].conn.handed|
    {
      SocketBounds(s.consumer.broadcasts, s.sockets[c]);
    }
    OwnBoard(p, s, i, step);
    OwnLink(s, i, step);
    NewSocketOk(s, i, step);
    BrowserTouchesFront(s, i, step);
    BackKept(p, s, s');
    hide SocketsInv;
    hide NextBrowser;
    forall o | o in s.browsers && o != i
      ensures LinkOk(s'.sockets, o, s'.browsers[o])
    {
      OtherPages(s, i, step, o);
    }
  }

  lemma {:induction false} BrowserTouchesFront(s: System, i: nat, step: BrowserStep)
    requires BrowserEnabled(s, i, step)
    ensures var s' := NextBrowser(s, i, step);
            && s' == s.(sockets := s'.sockets, browsers := s'.browsers)
            && s'.browsers.Keys == s.browsers.Keys
            && forall o :: o in s.browsers && o != i ==> s'.browsers[o] == s.browsers[o]
  {
  }

  // ---------- every step, every run ----------

  lemma {:induction false} InitialInv(p: R.Params, s: System)
    requires Initial(p, s)
    ensures Inv(p, s)
  {
    W.InitialInv(s.db);
    R.InitialInv(p, s.relay, s.now);
    C.InitialInv(s.relay.log, s.consumer);
  }

  lemma {:induction false} StepInv(p: R.Params, s: System, step: Step)
    requires Inv(p, s) && Enabled(p, s, step)
    ensures Inv(p, Next(p, s, step))
  {
    hide BackInv;
    match step
    case Tick(later) => TickKeeps(p, s, later);
    case WriteStep(w) => WriteKeepsBack(p, s, w); WriteKeepsFront(p, s, w);
    case RelayStep(r) => RelayKeepsBack(p, s, r);
    case ConsumeStep(c) => ConsumeKeepsBack(p, s, c); ConsumeKeepsFront(p, s, c);
    case OnSocket(c, step) =>
      if step.Receive? { ReceiveKeeps(p, s, c, step.get, step.open); } else { SocketStepKeeps(p, s, c, step); }
    case OnBrowser(i, step) => BrowserStepKeeps(p, s, i, step);
  }

  /** A run: states[k + 1] follows from states[k] by steps[k]. */
  ghost predicate IsRun(p: R.Params, states: seq<System>, steps: seq<Step>) {
    && |states| == |steps| + 1
    && Initial(p, states[0])
    && forall k :: 0 <= k < |steps| ==> Enabled(p, states[k], steps[k]) && states[k + 1] == Next(p, states[k], steps[k])
  }

  lemma {:induction false} RunInv(p: R.Params, states: seq<System>, steps: seq<Step>, k: nat)
    requires IsRun(p, states, steps) && k < |states|
    ensures Inv(p, states[k])
  {
    hide Inv;
    hide Initial;
    hide Enabled;
    hide Next;
    if k == 0 {
      InitialInv(p, states[0]);
    } else {
      RunInv(p, states, steps, k - 1);
      StepInv(p, states[k - 1], steps[k - 1]);
    }
  }

  /** One step of a run, with the invariant at its start. */
  lemma {:induction false} RunStep(p: R.Params, states: seq<System>, steps: seq<Step>, k: nat)
    requires IsRun(p, states, steps) && k + 1 < |states|
    ensures |states| == |steps| + 1 && Inv(p, states[k])
    ensures Enabled(p, states[k], steps[k]) && states[k + 1] == Next(p, states[k], steps[k])
  {
    hide Inv;
    hide Initial;
    hide Enabled;
    hide Next;
    RunInv(p, states, steps, k);
  }
}
