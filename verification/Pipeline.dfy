/** The whole delivery pipeline as one protocol: write transactions, relay workers, the Kafka log, the consumer and
    hub of one realtime process, and any number of browsers with their sockets and snapshot requests. */
module Pipeline {
  import opened Base
  import opened Events
  import Merge
  import W = Writers
  import O = Outbox
  import R = RelayProtocol
  import C = Consumer
  import H = Hub

  datatype Command = Subscribe(project: int) | Unsubscribe(project: int)

  /** One WebSocket: the browser and connection attempt it belongs to, the hub's client, how many of the written
      messages have reached the browser, and the commands still on their way to the hub. */
  datatype Socket = Socket(owner: nat, generation: nat, conn: H.Conn, received: nat, commands: seq<Command>)

  /** A GET of a project's tasks. The reply is the committed rows at the moment the server read them; `calls`
      remembers how many Broadcast calls there had been then. */
  datatype Reply = Reply(tasks: map<int, Task>, calls: nat)
  datatype Get = Get(project: int, reply: Option<Reply>)

  /** The installed snapshot, how many messages of the current socket had been received before the install, the
      responses to the page's own writes applied since, and the Broadcast calls received since on earlier sockets. */
  datatype Loaded = Loaded(reply: Reply, before: nat, own: set<Task>, heard: set<nat>)

  /** `tasks`, `project`, `generation` and `socket` are the page's state; `loaded` remembers the last install for the
      selected project and `applied` every applyTask call since. Project 0 is no selection. */
  datatype Browser = Browser(
    project: int, tasks: map<int, Task>, generation: nat, socket: Option<nat>, gets: map<nat, Get>,
    loaded: Option<Loaded>, applied: seq<Task>)

  datatype System = System(
    now: int, db: W.Db, relay: R.State, consumer: C.State, sockets: map<nat, Socket>, browsers: map<nat, Browser>)

  datatype SocketStep =
    | Register
    | Serve              // the hub handles the next command
    | Control            // any other sendJSON
    | Write              // writeLoop sends one message
    | Drop               // a Broadcast call cancels a client it found full
    | Cancel             // a write error, an expired token, a closed connection
    | Remove
    | Receive(get: nat, open: bool)  // the page handles the next message; `get` is the id of a request it may start

  datatype BrowserStep =
    | Connect(socket: nat)
    | Select(project: int, get: nat, open: bool)  // commands are sent only on an open socket
    | Resubscribe                                 // after creating a project
    | Reload(get: nat)
    | ServeGet(get: nat)
    | FinishGet(get: nat)
    | FailGet(get: nat)
    | LocalApply(task: Task)  // the response of the page's own write

  datatype Step =
    | Tick(later: int)
    | WriteStep(write: W.Step)
    | RelayStep(relay: R.Step)
    | ConsumeStep(consume: C.Step)
    | OnSocket(socket: nat, socketStep: SocketStep)
    | OnBrowser(browser: nat, browserStep: BrowserStep)

  // ---------- browsers ----------

  function TasksOf(tasks: map<int, Task>, project: int): map<int, Task> {
    map t | t in tasks && tasks[t].projectId == project :: tasks[t]
  }

  function Applied(b: Browser, x: Task): Browser {
    b.(tasks := Merge.Apply(b.project, b.tasks, x), applied := b.applied + [x])
  }

  function AppliedOwn(b: Browser, x: Task): Browser {
    var b1 := if b.loaded.Some? then b.(loaded := Some(b.loaded.value.(own := b.loaded.value.own + {x}))) else b;
    Applied(b1, x)
  }

  /** loadBoard up to its await: without a selection the map is cleared, otherwise a request starts. */
  function StartLoad(b: Browser, get: nat): Browser {
    if b.project == 0 then b.(tasks := map[], loaded := None, applied := [])
    else b.(gets := b.gets[get := Get(b.project, None)])
  }

  /** The message handler of the current socket. */
  function Handle(b: Browser, m: H.Msg, get: nat): Browser {
    match m
    case Ready => StartLoad(b, get)
    case Control => b
    case Event(_, payload) =>
      match payload
      case Malformed(_) => b
      case Encoded(e) => if e.eventType.OtherType? then b else Applied(b, e.task)
  }

  /** subscribeToCurrentProject: nothing is sent without a selection or on a socket that is not open. */
  function Subscribing(k: Socket, project: int, open: bool): Socket {
    if project == 0 || !open then k else k.(commands := k.commands + [Subscribe(project)])
  }

  /** The sockets after the page with this browser subscribes to a project. */
  ghost function SubscribingPage(s: System, b: Browser, project: int, open: bool): map<nat, Socket> {
    if b.socket.Some? && b.socket.value in s.sockets
    then s.sockets[b.socket.value := Subscribing(s.sockets[b.socket.value], project, open)] else s.sockets
  }

  function Received(s: System, b: Browser): nat {
    if b.socket.Some? && b.socket.value in s.sockets then s.sockets[b.socket.value].received else 0
  }

  /** The page keeps its board while it opens a new socket. */
  function Reconnected(s: System, b: Browser, loaded: Loaded): Loaded {
    var heard := if b.socket.Some? && b.socket.value in s.sockets
                 then ReceivedBetween(s.sockets[b.socket.value], loaded.before) else {};
    loaded.(before := 0, heard := loaded.heard + heard)
  }

  /** The Broadcast calls among the messages received on a socket, from the from-th on. */
  function ReceivedBetween(k: Socket, from: nat): set<nat> {
    set m | from <= m < k.received && m < |k.conn.handed| && k.conn.handed[m].Event? :: k.conn.handed[m].tag
  }

  /** The end of loadBoard: a reply for a project that is no longer selected is dropped. */
  function Finish(s: System, b: Browser, get: nat): Browser
    requires get in b.gets && b.gets[get].reply.Some?
  {
    var done := b.(gets := b.gets - {get});
    if b.gets[get].project != b.project then done
    else
      var reply := b.gets[get].reply.value;
      done.(tasks := reply.tasks, loaded := Some(Loaded(reply, Received(s, b), {}, {})), applied := [])
  }

  /** A task value some transaction committed. */
  ghost predicate Committed(history: map<int, seq<W.Revision>>, x: Task) {
    && x.id in history && 1 <= x.version <= |history[x.id]| && history[x.id][x.version - 1].task == x
  }

  // ---------- steps ----------

  ghost predicate SocketEnabled(s: System, c: nat, step: SocketStep) {
    c in s.sockets &&
    var k := s.sockets[c];
    match step
    case Register => !k.conn.registered && !k.conn.cancelled
    case Serve => k.conn.registered && k.commands != []
    case Control => k.conn.registered
    case Write => H.QueueLength(k.conn) > 0
    case Drop => H.Doomed(k.conn)
    case Cancel => true
    case Remove => k.conn.cancelled
    case Receive(get, open) =>
      && k.owner in s.browsers && get !in s.browsers[k.owner].gets
      && k.received < k.conn.written <= |k.conn.handed|
  }

  ghost predicate BrowserEnabled(s: System, i: nat, step: BrowserStep) {
    i in s.browsers &&
    var b := s.browsers[i];
    match step
    case Connect(c) => c !in s.sockets
    case Select(project, get, open) => project >= 1 && get !in b.gets
    case Resubscribe => true
    case Reload(get) => get !in b.gets
    case ServeGet(get) => get in b.gets && b.gets[get].reply.None?
    case FinishGet(get) => get in b.gets && b.gets[get].reply.Some?
    case FailGet(get) => get in b.gets
    case LocalApply(x) => Committed(s.db.history, x)
  }

  /** No Broadcast call is under way: the consumer goes on only after the last one has cancelled all full clients. */
  ghost predicate NoneDoomed(s: System) {
    forall c :: c in s.sockets ==> !H.Doomed(s.sockets[c].conn)
  }

  ghost predicate Enabled(p: R.Params, s: System, step: Step) {
    match step
    case Tick(later) => s.now <= later
    case WriteStep(w) => W.Enabled(s.db, w) && (w.Begin? ==> w.now <= s.now)
    case RelayStep(r) => !r.Insert? && R.Enabled(p, s.relay, s.now, r)
    case ConsumeStep(c) => C.Enabled(s.relay.log, s.consumer, c) && (c.Crash? || NoneDoomed(s))
    case OnSocket(c, step) => SocketEnabled(s, c, step)
    case OnBrowser(i, step) => BrowserEnabled(s, i, step)
  }

  /** A commit makes the new outbox row visible to the relay in the same transaction. */
  ghost function NextWrite(p: R.Params, s: System, w: W.Step): System
    requires W.Enabled(s.db, w)
  {
    var db := W.Next(s.db, w);
    if w.Commit? then
      var entry, began := s.db.open[w.tx].entry.value, s.db.open[w.tx].began;
      s.(db := db, relay := s.relay.(rows := s.relay.rows[entry.sequence := O.Inserted(Marshal(entry.event), began)]))
    else s.(db := db)
  }

  /** Broadcasting reaches every client of the process and dooms the full ones; a crash ends every client. */
  ghost function NextConsume(s: System, c: C.Step): System
    requires C.Enabled(s.relay.log, s.consumer, c)
  {
    var consumer := C.Next(s.relay.log, s.consumer, c);
    var calls := s.consumer.broadcasts;
    var sockets :=
      if c.Crash? then map i | i in s.sockets :: s.sockets[i].(conn := H.Remove(s.sockets[i].conn))
      else if |consumer.broadcasts| > |calls| then
        map i | i in s.sockets ::
          s.sockets[i].(conn := H.Deliver(s.sockets[i].conn, consumer.broadcasts[|calls|], |calls|))
      else s.sockets;
    s.(consumer := consumer, sockets := sockets)
  }

  function NextConn(k: Socket, calls: nat, step: SocketStep): Socket
    requires step.Serve? ==> k.commands != []
    requires !step.Receive?
  {
    match step
    case Register => k.(conn := H.Register(k.conn))
    case Serve =>
      var conn := match k.commands[0]
                  case Subscribe(project) =>
                    if project < 1 then H.Offer(k.conn, H.Control) else H.Subscribe(k.conn, project, calls)
                  case Unsubscribe(project) => H.Unsubscribe(k.conn, project);
      k.(conn := conn, commands := k.commands[1..])
    case Control => k.(conn := H.Offer(k.conn, H.Control))
    case Write => k.(conn := H.Write(k.conn))
    case Drop => k.(conn := H.Drop(k.conn))
    case Cancel => k.(conn := H.Cancel(k.conn))
    case Remove => k.(conn := H.Remove(k.conn))
  }

  /** A message of an older connection attempt is ignored. */
  ghost function NextReceive(s: System, c: nat, get: nat, open: bool): System
    requires SocketEnabled(s, c, Receive(get, open))
  {
    var k := s.sockets[c];
    var b := s.browsers[k.owner];
    var m := k.conn.handed[k.received];
    var k1 := k.(received := k.received + 1);
    if k.generation != b.generation then s.(sockets := s.sockets[c := k1])
    else s.(sockets := s.sockets[c := if m.Ready? then Subscribing(k1, b.project, open) else k1],
            browsers := s.browsers[k.owner := Handle(b, m, get)])
  }

  ghost function NextBrowser(s: System, i: nat, step: BrowserStep): System
    requires BrowserEnabled(s, i, step)
  {
    var b := s.browsers[i];
    match step
    case Connect(c) =>
      var b1 := b.(generation := b.generation + 1, socket := Some(c),
                   loaded := if b.loaded.Some? then Some(Reconnected(s, b, b.loaded.value)) else None);
      s.(browsers := s.browsers[i := b1], sockets := s.sockets[c := Socket(i, b.generation + 1, H.NEW_CONN, 0, [])])
    case Select(project, get, open) =>
      var b1 := StartLoad(b.(project := project, loaded := None, applied := []), get);
      s.(browsers := s.browsers[i := b1], sockets := SubscribingPage(s, b, project, open))
    case Resubscribe => s.(sockets := SubscribingPage(s, b, b.project, true))
    case Reload(get) => s.(browsers := s.browsers[i := StartLoad(b, get)])
    case ServeGet(get) =>
      var reply := Reply(TasksOf(s.db.tasks, b.gets[get].project), |s.consumer.broadcasts|);
      s.(browsers := s.browsers[i := b.(gets := b.gets[get := b.gets[get].(reply := Some(reply))])])
    case FinishGet(get) => s.(browsers := s.browsers[i := Finish(s, b, get)])
    case FailGet(get) => s.(browsers := s.browsers[i := b.(gets := b.gets - {get})])
    case LocalApply(x) => s.(browsers := s.browsers[i := AppliedOwn(b, x)])
  }

  ghost function Next(p: R.Params, s: System, step: Step): System
    requires Enabled(p, s, step)
  {
    match step
    case Tick(later) => s.(now := later)
    case WriteStep(w) => NextWrite(p, s, w)
    case RelayStep(r) => s.(relay := R.Next(p, s.relay, s.now, r))
    case ConsumeStep(c) => NextConsume(s, c)
    case OnSocket(c, step) =>
      if step.Receive? then NextReceive(s, c, step.get, step.open)
      else s.(sockets := s.sockets[c := NextConn(s.sockets[c], |s.consumer.broadcasts|, step)])
    case OnBrowser(i, step) => NextBrowser(s, i, step)
  }

  const NEW_BROWSER := Browser(0, map[], 0, None, map[], None, [])

  ghost predicate Initial(p: R.Params, s: System) {
    && O.Usable(p.config)
    && W.Initial(s.db) && R.Initial(s.relay) && C.Initial(s.consumer)
    && s.sockets == map[] && forall i :: i in s.browsers ==> s.browsers[i] == NEW_BROWSER
  }

  // ---------- the invariant ----------

  /** The relay's rows are the committed events. */
  ghost predicate RowsAreEvents(db: W.Db, relay: R.State, now: int) {
    && relay.rows.Keys == db.events.Keys
    && (forall q :: q in db.events ==> relay.rows[q].payload == Marshal(db.events[q]))
    && (forall x :: x in db.open ==> db.open[x].began <= now)
  }

  /** A snapshot holds committed rows of its project, every seeded task of the project, and nothing older than what
      had been broadcast when it was read. */
  ghost predicate ReplyOk(history: map<int, seq<W.Revision>>, calls: seq<C.Broadcast>, project: int, r: Reply) {
    && (forall t :: t in r.tasks ==>
        r.tasks[t].id == t && r.tasks[t].projectId == project && Committed(history, r.tasks[t]))
    && (forall t :: t in history && Seeded(history[t], project) ==> t in r.tasks)
    && r.calls <= |calls|
    && (forall j :: 0 <= j < r.calls && calls[j].event.projectId == project ==>
          Merge.Covers(r.tasks, calls[j].event.task.id, calls[j].event.task.version))
  }

  ghost predicate Seeded(h: seq<W.Revision>, project: int) {
    |h| >= 1 && h[0].outbox.None? && h[0].task.projectId == project
  }

  ghost predicate GetsOk(history: map<int, seq<W.Revision>>, calls: seq<C.Broadcast>, b: Browser) {
    forall g :: g in b.gets && b.gets[g].reply.Some? ==>
      ReplyOk(history, calls, b.gets[g].project, b.gets[g].reply.value)
  }

  /** Since the install, the map is the fold of the applied tasks over the snapshot. */
  ghost predicate LoadedOk(history: map<int, seq<W.Revision>>, calls: seq<C.Broadcast>, b: Browser) {
    b.loaded.Some? ==>
      && ReplyOk(history, calls, b.project, b.loaded.value.reply)
      && b.tasks == Merge.ApplyAll(b.project, b.loaded.value.reply.tasks, b.applied)
      && forall i :: 0 <= i < |b.applied| ==> Committed(history, b.applied[i])
  }

  /** Every event the current socket delivered after the install was applied. */
  ghost predicate DeliveredOk(b: Browser, k: Socket) {
    b.loaded.Some? ==>
      && b.loaded.value.before <= k.received <= |k.conn.handed|
      && forall i :: b.loaded.value.before <= i < k.received ==> WasApplied(k.conn.handed[i], b.applied)
  }

  ghost predicate WasApplied(m: H.Msg, applied: seq<Task>) {
    m.Event? && m.payload.Encoded? && !m.payload.event.eventType.OtherType? ==> m.payload.event.task in applied
  }

  ghost predicate SocketOk(calls: seq<C.Broadcast>, k: Socket) {
    && H.ConnOk(k.conn, calls) && k.received <= k.conn.written
    && (!k.conn.registered && !k.conn.cancelled ==> k.conn.subscriptions == {})
  }

  /** The page's socket is its own, and the only one of its current generation. */
  ghost predicate LinkOk(sockets: map<nat, Socket>, i: nat, b: Browser) {
    && (b.socket.Some? ==> b.socket.value in sockets && sockets[b.socket.value].owner == i
                           && sockets[b.socket.value].generation == b.generation
                           && DeliveredOk(b, sockets[b.socket.value]))
    && (forall c :: c in sockets && sockets[c].owner == i ==>
          sockets[c].generation <= b.generation && (sockets[c].generation == b.generation ==> b.socket == Some(c)))
  }

  ghost predicate SocketsInv(s: System) {
    forall c :: c in s.sockets ==> SocketOk(s.consumer.broadcasts, s.sockets[c])
  }

  ghost predicate BrowsersInv(s: System) {
    forall i :: i in s.browsers ==>
      && GetsOk(s.db.history, s.consumer.broadcasts, s.browsers[i])
      && LoadedOk(s.db.history, s.consumer.broadcasts, s.browsers[i])
      && LinkOk(s.sockets, i, s.browsers[i])
  }

  ghost predicate BackInv(p: R.Params, s: System) {
    && W.Inv(s.db) && R.Inv(p, s.relay, s.now) && C.Inv(s.relay.log, s.consumer)
    && RowsAreEvents(s.db, s.relay, s.now)
  }

  ghost predicate Inv(p: R.Params, s: System) {
    BackInv(p, s) && SocketsInv(s) && BrowsersInv(s)
  }
}
