/** The promises that fail, each shown on a run: an event received while a snapshot request is in flight is undone by
    the install, and an event broadcast between the snapshot read and the subscription never reaches the page. The same
    steps with the install before the event converge. */
module LostUpdate {
  import opened Base
  import opened Events
  import opened Kafka
  import opened Pipeline
  import opened PipelineProof
  import opened Convergence
  import W = Writers
  import O = Outbox
  import R = RelayProtocol
  import C = Consumer
  import H = Hub

  const SETTINGS := R.Params(O.Config("relay", 100, 30 * O.SECOND, 60 * O.SECOND, 20), 0, project => 0)

  ghost predicate Reachable(s: System) {
    exists states, steps :: IsRun(SETTINGS, states, steps) && states[|states| - 1] == s
  }

  lemma {:induction false} ReachStep(s: System, step: Step)
    requires Reachable(s) && Enabled(SETTINGS, s, step)
    ensures Reachable(Next(SETTINGS, s, step))
  {
    hide Enabled, Next, Initial;
    var states, steps :| IsRun(SETTINGS, states, steps) && states[|states| - 1] == s;
    var states', steps' := states + [Next(SETTINGS, s, step)], steps + [step];
    forall k | 0 <= k < |steps'|
      ensures Enabled(SETTINGS, states'[k], steps'[k]) && states'[k + 1] == Next(SETTINGS, states'[k], steps'[k])
    {
      if k < |steps| { assert states'[k] == states[k] && steps'[k] == steps[k]; }
    }
    assert IsRun(SETTINGS, states', steps');
  }

  // ---------- one seeded task, moved once ----------

  const ONE := Task(1, 1, None, "", "title", "", Todo, 1, 0, 0)
  const TWO := Task(1, 1, None, "", "title", "", Done, 2, 0, 0)
  const MOVED := Envelope("event", TaskStatusChanged, 1, 1, 1, 2, 0, "user", TWO)
  const MESSAGE := Encoded(MOVED)

  const BEFORE := W.Db({1}, map[], map[1 := ONE], map[], map[], 2, 0, map[1 := [W.Revision(ONE, None)]])
  const AFTER := W.Db({1}, map[], map[1 := TWO], map[0 := MOVED], map[], 2, 1,
                      map[1 := [W.Revision(ONE, None), W.Revision(TWO, Some(0))]])

  const IDLE := R.State(map[], map["relay" := R.Worker([], R.Ready)], map[], map[], map[], map[])
  const SILENT := C.State(map[], map[], [], [], [], map[], {})

  /** Subscribed, with the snapshot at version 1 on its way. */
  const SOCKET := Socket(0, 1, H.Conn(true, false, {1}, 0, 1, [H.Ready], 1, false), 1, [])
  const OLD_REPLY := Reply(map[1 := ONE], 0)
  const GETS := map[0 := Get(1, None), 1 := Get(1, Some(OLD_REPLY))]
  const PAGE := Browser(1, map[], 1, Some(0), GETS, None, [])

  // ---------- steps of the one page and its one socket ----------

  function Front(s: System, k: Socket, b: Browser): System {
    s.(sockets := map[0 := k], browsers := map[0 := b])
  }

  lemma {:induction false} SocketMove(s: System, k: Socket, b: Browser, step: SocketStep)
    requires Reachable(Front(s, k, b)) && !step.Receive? && SocketEnabled(Front(s, k, b), 0, step)
    ensures Reachable(Front(s, NextConn(k, |s.consumer.broadcasts|, step), b))
  {
    hide NextConn;
    ReachStep(Front(s, k, b), OnSocket(0, step));
    assert map[0 := k][0 := NextConn(k, |s.consumer.broadcasts|, step)] ==
        map[0 := NextConn(k, |s.consumer.broadcasts|, step)];
  }

  lemma {:induction false} ReceiveMove(s: System, k: Socket, b: Browser, get: nat)
    requires Reachable(Front(s, k, b)) && SocketEnabled(Front(s, k, b), 0, Receive(get, true))
    requires k.owner == 0 && k.generation == b.generation
    ensures var m, k1 := k.conn.handed[k.received], k.(received := k.received + 1);
            Reachable(Front(s, if m.Ready? then Subscribing(k1, b.project, true) else k1, Handle(b, m, get)))
  {
    hide Handle, Subscribing;
    ReachStep(Front(s, k, b), OnSocket(0, Receive(get, true)));
    var s' := NextReceive(Front(s, k, b), 0, get, true);
    assert s'.sockets == map[0 := s'.sockets[0]] && s'.browsers == map[0 := s'.browsers[0]];
  }

  lemma {:induction false} PageMove(s: System, k: Socket, b: Browser, step: BrowserStep)
    requires Reachable(Front(s, k, b)) && BrowserEnabled(Front(s, k, b), 0, step) && (step.ServeGet? || step.FinishGet?)
    ensures Reachable(Front(s, k, NextBrowser(Front(s, k, b), 0, step).browsers[0]))
  {
    ReachStep(Front(s, k, b), OnBrowser(0, step));
    var s' := NextBrowser(Front(s, k, b), 0, step);
    assert s'.browsers == map[0 := s'.browsers[0]] && s' == Front(s', k, s'.browsers[0]);
  }

  // ---------- the page connects, subscribes, and the server reads its snapshot ----------

  const QUIET := System(0, BEFORE, IDLE, SILENT, map[], map[])
  const CHOSEN := NEW_BROWSER.(project := 1, gets := map[0 := Get(1, None)])
  const OPENED := CHOSEN.(generation := 1, socket := Some(0))
  const WAITING := OPENED.(gets := map[0 := Get(1, None), 1 := Get(1, None)])
  const FRESH := Socket(0, 1, H.NEW_CONN, 0, [])

  lemma {:induction false} ReachStart()
    ensures Reachable(QUIET.(browsers := map[0 := NEW_BROWSER]))
  {
    hide Enabled, Next;
    var s := QUIET.(browsers := map[0 := NEW_BROWSER]);
    assert IsRun(SETTINGS, [s], []) && [s][|[s]| - 1] == s;
  }

  lemma {:induction false} ReachChosen()
    ensures Reachable(QUIET.(browsers := map[0 := CHOSEN]))
  {
    hide Reachable, W.Next, W.Enabled, R.Next, R.Enabled, C.Next, C.Enabled, SocketEnabled, NextReceive, NextConn;
    ReachStart();
    var s := QUIET.(browsers := map[0 := NEW_BROWSER]);
    ReachStep(s, OnBrowser(0, Select(1, 0, false)));
    assert NextBrowser(s, 0, Select(1, 0, false)) == QUIET.(browsers := map[0 := CHOSEN]);
  }

  lemma {:induction false} ReachOpened()
    ensures Reachable(Front(QUIET, FRESH, OPENED))
  {
    hide Reachable, W.Next, W.Enabled, R.Next, R.Enabled, C.Next, C.Enabled, SocketEnabled, NextReceive, NextConn;
    ReachChosen();
    var s := QUIET.(browsers := map[0 := CHOSEN]);
    ReachStep(s, OnBrowser(0, Connect(0)));
    assert NextBrowser(s, 0, Connect(0)) == Front(QUIET, FRESH, OPENED);
  }

  const READY := FRESH.(conn := H.Conn(true, false, {}, 0, 0, [H.Ready], 0, false))
  const GREETED := FRESH.(conn := H.Conn(true, false, {}, 0, 0, [H.Ready], 1, false))
  const ASKING := GREETED.(received := 1, commands := [Subscribe(1)])

  lemma {:induction false} ReachGreeted()
    ensures Reachable(Front(QUIET, ASKING, WAITING))
  {
    hide Reachable;
    ReachOpened();
    assert NextConn(FRESH, 0, Register) == READY && NextConn(READY, 0, Write) == GREETED;
    assert Handle(OPENED, H.Ready, 1) == WAITING && Subscribing(GREETED.(received := 1), 1, true) == ASKING;
    hide NextConn, Handle, Subscribing;
    SocketMove(QUIET, FRESH, OPENED, Register);
    SocketMove(QUIET, READY, OPENED, Write);
    ReceiveMove(QUIET, GREETED, OPENED, 1);
  }

  lemma {:induction false} ReachAsked()
    ensures Reachable(Front(QUIET, SOCKET, PAGE))
  {
    hide Reachable;
    ReachGreeted();
    SocketMove(QUIET, ASKING, WAITING, Serve);
    assert NextConn(ASKING, 0, Serve) == SOCKET;
    hide NextConn;
    PageMove(QUIET, SOCKET, WAITING, ServeGet(1));
    SnapshotOfOne();
  }

  lemma {:induction false} SnapshotOfOne()
    ensures TasksOf(BEFORE.tasks, 1) == map[1 := ONE] && WAITING.gets[1 := Get(1, Some(OLD_REPLY))] == GETS
  {
  }

  // ---------- the task is moved ----------

  const MOVE := W.Tx(0, Some(TWO), false, None)

  /** A step of the only open transaction. */
  lemma {:induction false} WriteMove(s: System, step: W.Step, db: W.Db)
    requires Reachable(s) && W.Enabled(s.db, step) && !step.Commit? && (step.Begin? ==> step.now <= s.now)
    requires W.Next(s.db, step) == db
    ensures Reachable(s.(db := db))
  {
    hide W.Enabled, W.Next;
    ReachStep(s, WriteStep(step));
  }

  lemma {:induction false} ReachMoved(s: System)
    requires Reachable(s) && s.db == BEFORE && s.relay == IDLE && s.now == 0
    ensures Reachable(s.(db := AFTER, relay := IDLE.(rows := map[0 := O.Inserted(MESSAGE, 0)])))
  {
    hide Reachable;
    WriteMove(s, W.Begin(0, 0), BEFORE.(open := map[0 := W.Tx(0, None, false, None)]));
    var db1 := BEFORE.(open := map[0 := W.Tx(0, None, false, None)]);
    var db2 := BEFORE.(open := map[0 := MOVE]);
    assert !W.Locked(db1, 1);
    WriteMove(s.(db := db1), W.UpdateTask(0, 1, Done), db2);
    var db3 := BEFORE.(open := map[0 := MOVE.(entry := Some(W.Entry(0, MOVED)))], nextSequence := 1);
    WriteMove(s.(db := db2), W.InsertOutbox(0, "event", "user", 0), db3);
    ReachCommitted(s.(db := db3));
  }

  lemma {:induction false} ReachCommitted(s: System)
    requires Reachable(s) && s.relay == IDLE && s.now == 0
    requires s.db == BEFORE.(open := map[0 := MOVE.(entry := Some(W.Entry(0, MOVED)))], nextSequence := 1)
    ensures Reachable(s.(db := AFTER, relay := IDLE.(rows := map[0 := O.Inserted(MESSAGE, 0)])))
  {
    hide Reachable;
    var db3 := s.db;
    ReachStep(s, WriteStep(W.Commit(0)));
    assert W.Revisions(db3, 1) + [W.Revision(TWO, Some(0))] == [W.Revision(ONE, None), W.Revision(TWO, Some(0))];
    assert W.Next(db3, W.Commit(0)) == AFTER;
    assert NextWrite(SETTINGS, s, W.Commit(0))
        == s.(db := AFTER, relay := IDLE.(rows := map[0 := O.Inserted(MESSAGE, 0)]));
  }

  // ---------- the relay publishes it ----------

  const ITEM := O.Item(0, MESSAGE, 0)
  const HELD := O.Claimed(O.Inserted(MESSAGE, 0), "relay", 30 * O.SECOND)
  const PLACE := Place(0, 0)
  const PUBLISHED := R.State(map[0 := O.MarkPublished(HELD, "relay", 0)], map["relay" := R.Worker([], R.Ready)],
                             map[0 := MESSAGE], map[0 := [Record(0, MESSAGE)]], map[0 := PLACE], map[])

  lemma {:induction false} RelayMove(s: System, step: R.Step, relay: R.State)
    requires Reachable(s) && R.Enabled(SETTINGS, s.relay, s.now, step) && !step.Insert?
    requires R.Next(SETTINGS, s.relay, s.now, step) == relay
    ensures Reachable(s.(relay := relay))
  {
    hide R.Enabled, R.Next;
    ReachStep(s, RelayStep(step));
  }

  lemma {:induction false} OneSelected(rows: map<nat, O.Row>)
    requires rows == map[0 := O.Inserted(MESSAGE, 0)]
    ensures O.Selected(rows, 0, {}, 100, [ITEM]) && O.Sequences([ITEM]) == {0}
  {
    assert O.Candidates(rows, 0, {}) == {0};
    assert O.Sequences([ITEM]) == {0} by { assert [ITEM][0].sequence == 0; }
  }

  lemma {:induction false} ReachClaimed(s: System)
    requires Reachable(s) && s.relay == IDLE.(rows := map[0 := O.Inserted(MESSAGE, 0)]) && s.now == 0
    ensures Reachable(s.(relay := IDLE.(rows := map[0 := HELD], workers := map["relay" := R.Worker([ITEM], R.Ready)])))
  {
    hide Reachable;
    OneSelected(s.relay.rows);
    var claim := R.Claim("relay", 0, {}, [ITEM], true);
    assert O.ClaimAll(s.relay.rows, {0}, "relay", 30 * O.SECOND) == map[0 := HELD];
    RelayMove(s, claim, IDLE.(rows := map[0 := HELD], workers := map["relay" := R.Worker([ITEM], R.Ready)]));
  }

  lemma {:induction false} ReachPublished(s: System)
    requires Reachable(s) && s.now == 0
    requires s.relay == IDLE.(rows := map[0 := HELD], workers := map["relay" := R.Worker([ITEM], R.Ready)])
    ensures Reachable(s.(relay := PUBLISHED))
  {
    hide Reachable;
    var r1 := s.relay.(workers := map["relay" := R.Worker([ITEM], R.Sending)], sent := map[0 := MESSAGE]);
    RelayMove(s, R.Send("relay"), r1);
    var r2 := r1.(log := map[0 := [Record(0, MESSAGE)]], placed := map[0 := PLACE]);
    assert [] + [Record(0, MESSAGE)] == [Record(0, MESSAGE)];
    assert Stored(r1.log, 0, Record(0, MESSAGE)) == r2.log;
    RelayMove(s.(relay := r1), R.Append(0), r2);
    var r3 := r2.(workers := map["relay" := R.Worker([ITEM], R.Acked)]);
    RelayMove(s.(relay := r2), R.Ack("relay"), r3);
    assert [ITEM][1..] == [];
    RelayMove(s.(relay := r3), R.Mark("relay", 0, true), PUBLISHED);
  }

  // ---------- and the consumer broadcasts it ----------

  const CALL := C.Broadcast(MOVED, MESSAGE, PLACE)
  const CONSUMED := C.State(map[0 := 1], map[0 := 1], [], [], [CALL], map[PLACE := 0], {})
  const HANDED := SOCKET.(conn := SOCKET.conn.(handed := [H.Ready, H.Event(0, MESSAGE)]))

  /** The consumer polls, broadcasts to the one client, and commits. */
  lemma {:induction false} ReachBroadcast(s: System, k: Socket, b: Browser)
    requires Reachable(Front(s, k, b)) && s.relay == PUBLISHED && s.consumer == SILENT
    requires !H.Doomed(k.conn) && !H.Doomed(H.Deliver(k.conn, CALL, 0))
    ensures Reachable(Front(s.(consumer := CONSUMED), k.(conn := H.Deliver(k.conn, CALL, 0)), b))
  {
    hide Reachable;
    var log := PUBLISHED.log;
    var c1 := SILENT.(position := map[0 := 1], fetched := [PLACE]);
    FetchOne(log);
    ReachStep(Front(s, k, b), ConsumeStep(C.Poll([PLACE])));
    assert NextConsume(Front(s, k, b), C.Poll([PLACE])) == Front(s.(consumer := c1), k, b);
    var c2 := C.State(map[], map[0 := 1], [], [PLACE], [CALL], map[PLACE := 0], {});
    assert C.Next(log, c1, C.Process) == c2;
    ReachStep(Front(s.(consumer := c1), k, b), ConsumeStep(C.Process));
    var k' := k.(conn := H.Deliver(k.conn, CALL, 0));
    hide H.Deliver;
    assert NextConsume(Front(s.(consumer := c1), k, b), C.Process) == Front(s.(consumer := c2), k', b);
    ReachConsumed(s.(consumer := c2), k', b);
  }

  lemma {:induction false} ReachConsumed(s: System, k: Socket, b: Browser)
    requires Reachable(Front(s, k, b)) && !H.Doomed(k.conn)
    requires s.consumer == C.State(map[], map[0 := 1], [], [PLACE], [CALL], map[PLACE := 0], {})
    ensures Reachable(Front(s.(consumer := CONSUMED), k, b))
  {
    hide Reachable;
    CommitOne();
    ReachStep(Front(s, k, b), ConsumeStep(C.Commit(true)));
    assert NextConsume(Front(s, k, b), C.Commit(true)) == Front(s.(consumer := CONSUMED), k, b);
  }

  lemma {:induction false} FetchOne(log: map<nat, seq<Record>>)
    requires log == map[0 := [Record(0, MESSAGE)]]
    ensures C.ValidFetch(log, map[], [PLACE]) && C.Advance(map[], [PLACE]) == map[0 := 1]
  {
    var batch := [PLACE];
    assert batch[..|batch| - 1] == [] && batch[|batch| - 1] == PLACE;
    assert C.Advance(map[], []) == map[] && C.ValidFetch(log, map[], []);
    assert Holds(log, PLACE);
  }

  lemma {:induction false} CommitOne()
    ensures C.CommitAll(map[], [PLACE]) == map[0 := 1]
  {
    assert [PLACE][..0] == [];
  }

  // ---------- the two endings ----------

  const DONE := System(0, AFTER, PUBLISHED, CONSUMED, map[], map[])
  const WRITTEN := HANDED.(conn := HANDED.conn.(written := 2))
  const DRAINED := WRITTEN.(received := 2)

  /** From a page in front of the fresh back end to the same page after the move was published and consumed. */
  lemma {:induction false} ReachDoneWith(k: Socket, b: Browser)
    requires Reachable(Front(QUIET, k, b)) && !H.Doomed(k.conn) && !H.Doomed(H.Deliver(k.conn, CALL, 0))
    ensures Reachable(Front(DONE, k.(conn := H.Deliver(k.conn, CALL, 0)), b))
  {
    hide Reachable, H.Doomed, H.Deliver;
    var s := Front(QUIET, k, b);
    ReachMoved(s);
    s := s.(db := AFTER, relay := IDLE.(rows := map[0 := O.Inserted(MESSAGE, 0)]));
    ReachClaimed(s);
    s := s.(relay := IDLE.(rows := map[0 := HELD], workers := map["relay" := R.Worker([ITEM], R.Ready)]));
    ReachPublished(s);
    s := s.(relay := PUBLISHED);
    ReachBroadcast(s.(sockets := map[], browsers := map[]), k, b);
  }

  lemma {:induction false} ReachDone()
    ensures Reachable(Front(DONE, HANDED, PAGE))
  {
    hide Reachable;
    ReachAsked();
    assert H.Deliver(SOCKET.conn, CALL, 0) == HANDED.conn;
    ReachDoneWith(SOCKET, PAGE);
  }

  /** What all endings have in common: the newest event is published, committed by the consumer, and whatever was put
      in the client's queue is received. */
  ghost predicate Settled(s: System) {
    && CaughtUp(s, 0) && OnBoard(s, 0, 1) && NewestConsumed(s, 1)
    && s.db.tasks[1] == TWO && 0 in s.relay.rows && s.relay.rows[0].published.Some?
  }

  const APPLIED := PAGE.(tasks := map[1 := TWO], applied := [TWO])
  const STALE := APPLIED.(tasks := map[1 := ONE], applied := [], gets := map[0 := Get(1, None)],
                          loaded := Some(Loaded(OLD_REPLY, 2, {}, {})))

  /** The event is written to the socket and received, whatever the page holds by then. */
  lemma {:induction false} ReachReceived(b: Browser)
    requires Reachable(Front(DONE, HANDED, b)) && b.generation == 1 && 2 !in b.gets
    ensures Reachable(Front(DONE, DRAINED, Handle(b, H.Event(0, MESSAGE), 2)))
  {
    hide Reachable;
    assert NextConn(HANDED, 1, Write) == WRITTEN;
    hide NextConn, Handle;
    SocketMove(DONE, HANDED, b, Write);
    ReceiveMove(DONE, WRITTEN, b, 2);
  }

  lemma {:induction false} ReachStale()
    ensures Reachable(Front(DONE, DRAINED, STALE))
  {
    hide Reachable;
    ReachDone();
    ReachReceived(PAGE);
    assert Handle(PAGE, H.Event(0, MESSAGE), 2) == APPLIED;
    hide Handle;
    PageMove(DONE, DRAINED, APPLIED, FinishGet(1));
    assert GETS - {1} == map[0 := Get(1, None)];
  }

  /** The event arrives first, the install second: the page follows, everything is published, consumed and received,
      and version 1 is on screen while the row is at version 2. */
  lemma {:induction false} InstallCanLoseAnEvent() returns (s: System)
    ensures Reachable(s) && Settled(s) && Following(s, 0)
    ensures !Shows(s, 0, 1) && s.browsers[0].tasks == map[1 := ONE]
    ensures !NotOverwritten(s, 0, 1)
  {
    hide Reachable;
    ReachStale();
    s := Front(DONE, DRAINED, STALE);
    assert CarriesNewest(s, DRAINED.conn.handed[1], 1);
  }

  const INSTALLED := PAGE.(tasks := map[1 := ONE], gets := map[0 := Get(1, None)],
                              loaded := Some(Loaded(OLD_REPLY, 1, {}, {})))
  const CAUGHT_UP := INSTALLED.(tasks := map[1 := TWO], applied := [TWO])

  lemma {:induction false} ReachCaughtUp()
    ensures Reachable(Front(DONE, DRAINED, CAUGHT_UP))
  {
    hide Reachable;
    ReachDone();
    PageMove(DONE, HANDED, PAGE, FinishGet(1));
    assert GETS - {1} == map[0 := Get(1, None)];
    ReachReceived(INSTALLED);
    assert Handle(INSTALLED, H.Event(0, MESSAGE), 2) == CAUGHT_UP;
  }

  /** The install first, the event second: the hypotheses of convergence hold together, and the page shows the row. */
  lemma {:induction false} InstallFirstConverges() returns (s: System)
    ensures Reachable(s) && Settled(s) && Following(s, 0)
    ensures NotOverwritten(s, 0, 1) && Shows(s, 0, 1)
  {
    hide Reachable;
    ReachCaughtUp();
    s := Front(DONE, DRAINED, CAUGHT_UP);
  }

  // ---------- the snapshot is read before the subscription ----------

  const LATE := ASKING.(conn := H.Conn(true, false, {1}, 1, 1, [H.Ready], 1, false), commands := [])
  const GAP := PAGE.(tasks := map[1 := ONE], gets := map[0 := Get(1, None)],
                        loaded := Some(Loaded(OLD_REPLY, 1, {}, {})))

  lemma {:induction false} ReachUnsubscribed()
    ensures Reachable(Front(DONE, ASKING, PAGE))
  {
    hide Reachable, NextConn, Handle;
    ReachGreeted();
    SnapshotOfOne();
    PageMove(QUIET, ASKING, WAITING, ServeGet(1));
    assert H.Deliver(ASKING.conn, CALL, 0) == ASKING.conn;
    ReachDoneWith(ASKING, PAGE);
  }

  lemma {:induction false} ReachGap()
    ensures Reachable(Front(DONE, LATE, GAP))
  {
    hide Reachable;
    ReachUnsubscribed();
    SocketMove(DONE, ASKING, PAGE, Serve);
    assert NextConn(ASKING, 1, Serve) == LATE;
    hide NextConn;
    PageMove(DONE, LATE, PAGE, FinishGet(1));
    assert GETS - {1} == map[0 := Get(1, None)];
  }

  /** The reload on `ready` need not close the gap: it does not wait for the subscription. The server reads the
      snapshot, the event is broadcast, and only then the subscription is served. Everything is published and consumed,
      the page is live and has received all that was ever queued for it, no event among it, and it shows version 1
      while the row is at version 2. */
  lemma {:induction false} ReloadCanLeaveAGap() returns (s: System)
    ensures Reachable(s) && Settled(s) && FirstSubscription(s, 0) && !SubscribedBeforeRead(s, 0)
    ensures !Shows(s, 0, 1) && s.browsers[0].tasks == map[1 := ONE]
    ensures SocketOf(s, 0).conn.handed == [H.Ready]
  {
    hide Reachable;
    ReachGap();
    s := Front(DONE, LATE, GAP);
  }
}
