/** What each step of a page, of its sockets and of the processes behind them does, said on the fields a caller sees. */
module PageSteps {
  import opened Base
  import opened Events
  import opened Kafka
  import opened Pipeline
  import opened PipelineProof
  import opened Sources
  import opened Convergence
  import Merge
  import W = Writers
  import O = Outbox
  import R = RelayProtocol
  import C = Consumer
  import H = Hub

  // ---------- a task that reaches the page ----------

  /** The map took the task: it changes only by setting a task of the project that is newer than what is held. */
  ghost predicate Took(project: int, before: map<int, Task>, after: map<int, Task>, x: Task) {
    && (x.projectId == project ==> Merge.Covers(after, x.id, x.version))
    && (forall t :: t != x.id ==> (t in after <==> t in before) && (t in before ==> after[t] == before[t]))
    && (x.projectId != project || Merge.Covers(before, x.id, x.version) ==> after == before)
    && (after != before ==> x.id in after && after[x.id] == x)
  }

  /** Nothing about the page has changed but its map and what it remembers having applied. */
  ghost predicate SameButMap(b: Browser, b': Browser) {
    && b'.project == b.project && b'.generation == b.generation && b'.socket == b.socket && b'.gets == b.gets
    && (b'.loaded.Some? <==> b.loaded.Some?)
    && (b.loaded.Some? ==> b'.loaded == Some(b.loaded.value.(own := b'.loaded.value.own)))
  }

  /** The page applies the response to its own write, and remembers it as its own. */
  lemma {:induction false} OwnWriteIsApplied(p: R.Params, s: System, i: nat, x: Task)
    requires Enabled(p, s, OnBrowser(i, LocalApply(x)))
    ensures var s' := Next(p, s, OnBrowser(i, LocalApply(x)));
            && s' == s.(browsers := s.browsers[i := s'.browsers[i]])
            && var b, b' := s.browsers[i], s'.browsers[i];
               && Took(b.project, b.tasks, b'.tasks, x) && SameButMap(b, b')
               && b'.applied == b.applied + [x]
               && (b.loaded.Some? ==> b'.loaded.value.own == b.loaded.value.own + {x})
  {
  }

  /** So if the response is still the current row, a loaded page shows it from then on. */
  lemma {:induction false} OwnWriteShows(p: R.Params, s: System, i: nat, t: int)
    requires Inv(p, s) && SourcesInv(s) && OnBoard(s, i, t) && s.browsers[i].loaded.Some?
    requires Enabled(p, s, OnBrowser(i, LocalApply(s.db.tasks[t])))
    ensures Shows(Next(p, s, OnBrowser(i, LocalApply(s.db.tasks[t]))), i, t)
  {
    var step := OnBrowser(i, LocalApply(s.db.tasks[t]));
    OwnWriteIsApplied(p, s, i, s.db.tasks[t]);
    PipelineProof.StepInv(p, s, step);
    StepSources(p, s, step);
    hide Inv, SourcesInv, Enabled, Next, Took;
    ShowsIffArrived(p, Next(p, s, step), i, t);
  }

  /** The page applies an event that reaches it on its current socket, and counts it as received. */
  lemma {:induction false} EventIsApplied(p: R.Params, s: System, c: nat, get: nat, open: bool)
    requires Inv(p, s) && Enabled(p, s, OnSocket(c, Receive(get, open)))
    requires s.browsers[s.sockets[c].owner].socket == Some(c)
    requires s.sockets[c].conn.handed[s.sockets[c].received].Event?
    ensures var k := s.sockets[c];
            var call := k.conn.handed[k.received].tag;
            var s' := Next(p, s, OnSocket(c, Receive(get, open)));
            && call < |s.consumer.broadcasts|
            && s' == s.(browsers := s.browsers[k.owner := s'.browsers[k.owner]],
                        sockets := s.sockets[c := k.(received := k.received + 1)])
            && var b, b', x := s.browsers[k.owner], s'.browsers[k.owner], s.consumer.broadcasts[call].event.task;
               && Took(b.project, b.tasks, b'.tasks, x) && SameButMap(b, b') && b'.loaded == b.loaded
               && b'.applied == b.applied + [x]
  {
    MessageIsCall(p, s, c, s.sockets[c].received);
    SocketIsCurrent(p, s, c);
    hide Inv, Handle, Took;
    ReceiveShape(s, c, get, open);
    EventIsHandled(s.browsers[s.sockets[c].owner], s.sockets[c].conn.handed[s.sockets[c].received], get);
  }

  lemma {:induction false} EventIsHandled(b: Browser, m: H.Msg, get: nat)
    requires m.Event? && m.payload.Encoded? && !m.payload.event.eventType.OtherType?
    ensures var b', x := Handle(b, m, get), m.payload.event.task;
            && Took(b.project, b.tasks, b'.tasks, x) && SameButMap(b, b') && b'.loaded == b.loaded
            && b'.applied == b.applied + [x]
  {
  }

  // ---------- loads ----------

  /** The page starts a load: with a selection it asks for the selected project, without one it empties its map. */
  ghost predicate LoadStarts(b: Browser, b': Browser, project: int, get: nat) {
    && b'.project == project && b'.generation == b.generation && b'.socket == b.socket
    && (if project == 0 then b'.tasks == map[] && b'.gets == b.gets
        else b'.tasks == b.tasks && b'.gets == b.gets[get := Get(project, None)])
  }

  /** The socket sends a subscription for the project, if one is selected and the socket is open. */
  ghost predicate Subscribes(k: Socket, k': Socket, project: int, open: bool) {
    k' == k.(commands := k.commands + if open && project != 0 then [Subscribe(project)] else [])
  }

  /** On `ready` the page subscribes and starts a load. */
  lemma {:induction false} ReadyLoads(p: R.Params, s: System, c: nat, get: nat, open: bool)
    requires Inv(p, s) && Enabled(p, s, OnSocket(c, Receive(get, open)))
    requires s.browsers[s.sockets[c].owner].socket == Some(c)
    requires s.sockets[c].conn.handed[s.sockets[c].received].Ready?
    ensures var k := s.sockets[c];
            var s' := Next(p, s, OnSocket(c, Receive(get, open)));
            && k.owner in s'.browsers && c in s'.sockets
            && LoadStarts(s.browsers[k.owner], s'.browsers[k.owner], s.browsers[k.owner].project, get)
            && Subscribes(k.(received := k.received + 1), s'.sockets[c], s.browsers[k.owner].project, open)
            && s' == s.(browsers := s.browsers[k.owner := s'.browsers[k.owner]],
                        sockets := s.sockets[c := s'.sockets[c]])
  {
    SocketIsCurrent(p, s, c);
    hide Inv;
  }

  /** Selecting a project subscribes and starts a load; what is shown stays until the install. */
  lemma {:induction false} SelectLoads(p: R.Params, s: System, i: nat, project: int, get: nat, open: bool)
    requires Inv(p, s) && Enabled(p, s, OnBrowser(i, Select(project, get, open)))
    ensures var s' := Next(p, s, OnBrowser(i, Select(project, get, open)));
            var b, b' := s.browsers[i], s'.browsers[i];
            && LoadStarts(b, b', project, get) && b'.tasks == b.tasks && b'.loaded == None
            && (if b.socket.Some? then
                  && b.socket.value in s.sockets && b.socket.value in s'.sockets
                  && Subscribes(s.sockets[b.socket.value], s'.sockets[b.socket.value], project, open)
                  && s' == s.(browsers := s.browsers[i := b'],
                              sockets := s.sockets[b.socket.value := s'.sockets[b.socket.value]])
                else s' == s.(browsers := s.browsers[i := b']))
  {
    if s.browsers[i].socket.Some? { PageHasSocket(p, s, i); }
    hide Inv;
  }

  lemma {:induction false} PageHasSocket(p: R.Params, s: System, i: nat)
    requires Inv(p, s) && i in s.browsers && s.browsers[i].socket.Some?
    ensures s.browsers[i].socket.value in s.sockets
  {
    hide BackInv, SocketsInv;
    assert LinkOk(s.sockets, i, s.browsers[i]);
  }

  /** A reload starts a load of the selected project; a failed request only goes away. */
  lemma {:induction false} ReloadLoads(p: R.Params, s: System, i: nat, get: nat)
    ensures Enabled(p, s, OnBrowser(i, Reload(get))) ==>
              var s' := Next(p, s, OnBrowser(i, Reload(get)));
              LoadStarts(s.browsers[i], s'.browsers[i], s.browsers[i].project, get)
              && s' == s.(browsers := s.browsers[i := s'.browsers[i]])
    ensures Enabled(p, s, OnBrowser(i, FailGet(get))) ==>
              Next(p, s, OnBrowser(i, FailGet(get)))
                == s.(browsers := s.browsers[i := s.browsers[i].(gets := s.browsers[i].gets - {get})])
  {
  }

  /** The server answers with exactly the committed rows of the project that was asked for. */
  lemma {:induction false} ServedRows(p: R.Params, s: System, i: nat, get: nat)
    requires Enabled(p, s, OnBrowser(i, ServeGet(get)))
    ensures var s' := Next(p, s, OnBrowser(i, ServeGet(get)));
            var b, b' := s.browsers[i], s'.browsers[i];
            && s' == s.(browsers := s.browsers[i := b.(gets := b'.gets)]) && get in b'.gets
            && b'.gets == b.gets[get := b'.gets[get]] && b'.gets[get].project == b.gets[get].project
            && b'.gets[get].reply.Some?
            && var rows := b'.gets[get].reply.value.tasks;
               && (forall t :: t in rows <==> t in s.db.tasks && s.db.tasks[t].projectId == b.gets[get].project)
               && (forall t :: t in rows ==> rows[t] == s.db.tasks[t])
  {
  }

  /** An install puts the reply in place of the map and starts a new account of what was applied. */
  lemma {:induction false} InstallStartsOver(p: R.Params, s: System, i: nat, get: nat)
    requires Enabled(p, s, OnBrowser(i, FinishGet(get)))
    ensures var s' := Next(p, s, OnBrowser(i, FinishGet(get)));
            var b, b' := s.browsers[i], s'.browsers[i];
            && s' == s.(browsers := s.browsers[i := b'])
            && b'.gets == b.gets - {get} && b'.project == b.project
            && b'.socket == b.socket && b'.generation == b.generation
            && (if b.gets[get].project == b.project then
                  && b'.tasks == b.gets[get].reply.value.tasks && b'.applied == []
                  && b'.loaded.Some? && b'.loaded.value.reply == b.gets[get].reply.value
                  && b'.loaded.value.own == {} && b'.loaded.value.heard == {}
                else b'.tasks == b.tasks && b'.applied == b.applied && b'.loaded == b.loaded)
  {
  }

  // ---------- sockets ----------

  /** A new connection attempt: a new generation and a client that is not in the hub yet; board and requests stay. */
  lemma {:induction false} ConnectIsFresh(p: R.Params, s: System, i: nat, c: nat)
    requires Enabled(p, s, OnBrowser(i, Connect(c)))
    ensures var s' := Next(p, s, OnBrowser(i, Connect(c)));
            var b, b' := s.browsers[i], s'.browsers[i];
            && c !in s.sockets && s'.sockets == s.sockets[c := s'.sockets[c]]
            && s' == s.(browsers := s.browsers[i := b'], sockets := s'.sockets)
            && b'.socket == Some(c) && b'.generation == b.generation + 1
            && b'.tasks == b.tasks && b'.project == b.project && b'.gets == b.gets && b'.applied == b.applied
            && s'.sockets[c].owner == i && s'.sockets[c].generation == b'.generation
            && s'.sockets[c].received == 0 && s'.sockets[c].commands == []
            && !s'.sockets[c].conn.registered && !s'.sockets[c].conn.cancelled
            && s'.sockets[c].conn.handed == [] && s'.sockets[c].conn.subscriptions == {}
  {
  }

  /** A registration puts the client in the hub and `ready` in its queue. */
  lemma {:induction false} RegisterIsReady(p: R.Params, s: System, c: nat)
    requires Inv(p, s) && Enabled(p, s, OnSocket(c, Register))
    ensures var k, s' := s.sockets[c], Next(p, s, OnSocket(c, Register));
            && s' == s.(sockets := s.sockets[c := s'.sockets[c]])
            && s'.sockets[c].conn.registered && s'.sockets[c].conn.subscriptions == {}
            && (|k.conn.handed| - k.conn.written < 64 ==>
                  s'.sockets[c] == k.(conn := k.conn.(registered := true, handed := k.conn.handed + [H.Ready])))
  {
    assert SocketOk(s.consumer.broadcasts, s.sockets[c]);
  }

  /** The hub serves a page's commands one after the other. A subscription replaces the one before. */
  lemma {:induction false} CommandIsServed(p: R.Params, s: System, c: nat)
    requires Enabled(p, s, OnSocket(c, Serve))
    ensures var k, s' := s.sockets[c], Next(p, s, OnSocket(c, Serve));
            && s' == s.(sockets := s.sockets[c := s'.sockets[c]])
            && k.commands == [k.commands[0]] + s'.sockets[c].commands
            && (match k.commands[0]
                case Subscribe(project) =>
                  if project >= 1
                  then
                    && s'.sockets[c].conn.subscriptions == {project} && s'.sockets[c].conn.handed == k.conn.handed
                    && (project !in k.conn.subscriptions ==> s'.sockets[c].conn.since == |s.consumer.broadcasts|)
                  else s'.sockets[c].conn.subscriptions == k.conn.subscriptions
                case Unsubscribe(project) => s'.sockets[c].conn.subscriptions == k.conn.subscriptions - {project})
  {
  }

  /** The other things that happen to a connection: it is told something, a message is written to it, it is cancelled by
      a Broadcast call that found it full or for any other reason, it leaves the hub. */
  lemma {:induction false} ConnectionSteps(p: R.Params, s: System, c: nat, step: SocketStep)
    requires Enabled(p, s, OnSocket(c, step)) && step in {Control, Write, Drop, Cancel, Remove}
    ensures var s' := Next(p, s, OnSocket(c, step));
            var conn, conn' := s.sockets[c].conn, s'.sockets[c].conn;
            && s' == s.(sockets := s.sockets[c := s.sockets[c].(conn := conn')])
            && (match step
                case Control =>
                  if |conn.handed| - conn.written < 64 then conn' == conn.(handed := conn.handed + [H.Control])
                  else conn' == conn.(cancelled := true)
                case Write => conn' == conn.(written := conn.written + 1)
                case Remove => conn' == conn.(cancelled := true, registered := false)
                case _ => conn' == conn.(cancelled := true))
  {
  }

  /** After creating a project the page only sends its subscription once more. */
  lemma {:induction false} ResubscribeSends(p: R.Params, s: System, i: nat)
    requires Enabled(p, s, OnBrowser(i, Resubscribe)) && s.browsers[i].socket.Some?
    requires s.browsers[i].socket.value in s.sockets
    ensures var s', c := Next(p, s, OnBrowser(i, Resubscribe)), s.browsers[i].socket.value;
            && c in s'.sockets && Subscribes(s.sockets[c], s'.sockets[c], s.browsers[i].project, true)
            && s' == s.(sockets := s.sockets[c := s'.sockets[c]])
  {
  }

  /** What is always possible: a page can reload, select, connect and apply a response at any time, and a request can
      be answered, finish or fail. */
  lemma {:induction false} PageStepsArePossible(p: R.Params, s: System, i: nat, c: nat, get: nat, x: Task)
    requires i in s.browsers
    ensures Enabled(p, s, OnBrowser(i, Resubscribe))
    ensures get !in s.browsers[i].gets ==>
              && Enabled(p, s, OnBrowser(i, Reload(get)))
              && (forall project, open :: project >= 1 ==> Enabled(p, s, OnBrowser(i, Select(project, get, open))))
    ensures c !in s.sockets ==> Enabled(p, s, OnBrowser(i, Connect(c)))
    ensures Committed(s.db.history, x) ==> Enabled(p, s, OnBrowser(i, LocalApply(x)))
    ensures get in s.browsers[i].gets ==>
              && Enabled(p, s, OnBrowser(i, FailGet(get)))
              && (s.browsers[i].gets[get].reply.None? ==> Enabled(p, s, OnBrowser(i, ServeGet(get))))
              && (s.browsers[i].gets[get].reply.Some? ==> Enabled(p, s, OnBrowser(i, FinishGet(get))))
  {
    hide W.Enabled, R.Enabled, C.Enabled, SocketEnabled;
  }

  /** A socket can end at any time, and goes on whenever it has something to do. */
  lemma {:induction false} SocketStepsArePossible(p: R.Params, s: System, c: nat, get: nat)
    requires c in s.sockets
    ensures var k := s.sockets[c];
            && Enabled(p, s, OnSocket(c, Cancel))
            && (k.conn.cancelled ==> Enabled(p, s, OnSocket(c, Remove)))
            && (!k.conn.registered && !k.conn.cancelled ==> Enabled(p, s, OnSocket(c, Register)))
            && (k.conn.registered && k.commands != [] ==> Enabled(p, s, OnSocket(c, Serve)))
            && (k.conn.registered ==> Enabled(p, s, OnSocket(c, Control)))
            && (k.conn.full && !k.conn.cancelled ==> Enabled(p, s, OnSocket(c, Drop)))
            && (k.conn.written < |k.conn.handed| ==> Enabled(p, s, OnSocket(c, Write)))
    ensures var k := s.sockets[c];
            k.owner in s.browsers && k.received < k.conn.written <= |k.conn.handed| ==>
              get !in s.browsers[k.owner].gets ==> Enabled(p, s, OnSocket(c, Receive(get, true)))
  {
    hide W.Enabled, R.Enabled, C.Enabled, BrowserEnabled;
  }

  /** What a subscribed client with room in its queue is handed: the event of every Broadcast call for its project, and
      nothing of another. */
  lemma {:induction false} BroadcastReaches(p: R.Params, s: System, c: nat)
    requires Enabled(p, s, ConsumeStep(C.Process)) && c in s.sockets
    requires s.sockets[c].conn.registered && |s.sockets[c].conn.handed| - s.sockets[c].conn.written < 64
    requires Decode(At(s.relay.log, s.consumer.fetched[0]).payload).Ok?
    ensures var s' := Next(p, s, ConsumeStep(C.Process));
            var payload := At(s.relay.log, s.consumer.fetched[0]).payload;
            var handed := s.sockets[c].conn.handed;
            && |s'.consumer.broadcasts| == |s.consumer.broadcasts| + 1
            && c in s'.sockets
            && s'.sockets[c].conn.handed
               == if Decode(payload).value.projectId in s.sockets[c].conn.subscriptions
                  then handed + [H.Event(|s.consumer.broadcasts|, payload)] else handed
  {
  }

  /** A crash of the realtime process ends every client and goes back to the committed offsets. */
  lemma {:induction false} CrashEndsClients(p: R.Params, s: System, c: nat)
    requires c in s.sockets
    ensures Enabled(p, s, ConsumeStep(C.Crash))
    ensures var s' := Next(p, s, ConsumeStep(C.Crash));
            && c in s'.sockets && s'.sockets[c].conn.cancelled && !s'.sockets[c].conn.registered
            && s'.consumer.position == s.consumer.committed && s'.browsers == s.browsers
  {
  }

  // ---------- commits ----------

  /** A commit makes the task row and a new outbox row visible together, the latter waiting for its first attempt. */
  lemma {:induction false} CommitPublishes(p: R.Params, s: System, tx: nat)
    requires Inv(p, s) && Enabled(p, s, WriteStep(W.Commit(tx)))
    ensures var s' := Next(p, s, WriteStep(W.Commit(tx)));
            var row, entry := s.db.open[tx].row.value, s.db.open[tx].entry.value;
            && s'.db.tasks == s.db.tasks[row.id := row] && s'.db.events == s.db.events[entry.sequence := entry.event]
            && entry.sequence !in s.relay.rows && entry.event.task == row
            && s'.relay == s.relay.(rows := s.relay.rows[entry.sequence :=
                             O.Row(Encoded(entry.event), None, None, 0, s.db.open[tx].began, None)])
  {
    hide R.Inv, C.Inv, SocketsInv, BrowsersInv;
    CommitIsInsert(p, s, W.Commit(tx));
    assert W.TxOk(s.db, s.db.open[tx]);
  }
}
