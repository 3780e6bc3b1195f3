/** The two write transactions of internal/app/server.go (createTask, updateTaskStatus) as protocol steps
    over the committed tables, open transactions with row locks, and a sequence allocator that is never rolled back. */
module Writers {
  import opened Base
  import opened Events

  /** One committed state of a task, and the outbox row committed with it.
      A seeded or migrated task has a first revision without a row. */
  datatype Revision = Revision(task: Task, outbox: Option<nat>)

  /** A row of outbox_events before it is committed. */
  datatype Entry = Entry(sequence: nat, event: Envelope)

  /** An open transaction: its start time (SQL now()), the task row it holds locked, its outbox row. */
  datatype Tx = Tx(began: int, row: Option<Task>, isNew: bool, entry: Option<Entry>)

  /** `history` is not a table: it remembers every committed revision of every task, version v at index v - 1. */
  datatype Db = Db(
    projects: set<int>, users: map<int, string>, tasks: map<int, Task>, events: map<nat, Envelope>,
    open: map<nat, Tx>, nextTask: int, nextSequence: nat, history: map<int, seq<Revision>>)

  datatype Step =
    | Begin(tx: nat, now: int)
    | InsertTask(tx: nat, project: int, assignee: Option<int>, title: string, description: string, status: Status)
    | UpdateTask(tx: nat, task: int, status: Status)
    | InsertOutbox(tx: nat, eventId: string, actor: string, occurredAt: int)
    | Commit(tx: nat)
    | Rollback(tx: nat)

  /** Another open transaction holds the row lock of this task. */
  ghost predicate Locked(db: Db, task: int) {
    exists x :: x in db.open && Holds(db.open[x], task)
  }

  predicate Holds(t: Tx, task: int) {
    t.row.Some? && t.row.value.id == task
  }

  ghost predicate Enabled(db: Db, s: Step) {
    match s
    case Begin(x, now) => x !in db.open
    case InsertTask(x, project, assignee, title, description, status) =>
      && x in db.open && db.open[x].row.None?
      && project in db.projects
      && (assignee.Some? ==> assignee.value in db.users)
      && title != "" && ValidStatus(status)
    case UpdateTask(x, task, status) =>
      x in db.open && db.open[x].row.None? && task in db.tasks && !Locked(db, task) && ValidStatus(status)
    case InsertOutbox(x, eventId, actor, occurredAt) =>
      x in db.open && db.open[x].row.Some? && db.open[x].entry.None? && eventId != ""
    case Commit(x) => x in db.open && db.open[x].row.Some? && db.open[x].entry.Some?
    case Rollback(x) => x in db.open
  }

  function NewTask(
    db: Db, began: int, project: int, assignee: Option<int>, title: string, description: string, status: Status)
    : Task
  {
    var name := if assignee.Some? && assignee.value in db.users then db.users[assignee.value] else "";
    Task(db.nextTask, project, assignee, name, title, description, status, 1, began, began)
  }

  function Updated(t: Task, status: Status, began: int): Task {
    t.(status := status, version := t.version + 1, updatedAt := began)
  }

  function TxEvent(t: Tx, eventId: string, actor: string, occurredAt: int): Envelope
    requires t.row.Some?
  {
    NewTaskEvent(eventId, if t.isNew then TaskCreated else TaskStatusChanged, actor, t.row.value, occurredAt)
  }

  function Revisions(db: Db, task: int): seq<Revision> {
    if task in db.history then db.history[task] else []
  }

  function Next(db: Db, s: Step): Db
    requires Enabled(db, s)
  {
    match s
    case Begin(x, now) => db.(open := db.open[x := Tx(now, None, false, None)])
    case InsertTask(x, project, assignee, title, description, status) =>
      var row := NewTask(db, db.open[x].began, project, assignee, title, description, status);
      db.(open := db.open[x := db.open[x].(row := Some(row), isNew := true)], nextTask := db.nextTask + 1)
    case UpdateTask(x, task, status) =>
      var row := Updated(db.tasks[task], status, db.open[x].began);
      db.(open := db.open[x := db.open[x].(row := Some(row), isNew := false)])
    case InsertOutbox(x, eventId, actor, occurredAt) =>
      var entry := Entry(db.nextSequence, TxEvent(db.open[x], eventId, actor, occurredAt));
      db.(open := db.open[x := db.open[x].(entry := Some(entry))], nextSequence := db.nextSequence + 1)
    case Commit(x) =>
      var row, entry := db.open[x].row.value, db.open[x].entry.value;
      db.(tasks := db.tasks[row.id := row],
          events := db.events[entry.sequence := entry.event],
          open := db.open - {x},
          history := db.history[row.id := Revisions(db, row.id) + [Revision(row, Some(entry.sequence))]])
    case Rollback(x) => db.(open := db.open - {x})
  }

  /** The name a query joins to the task: that of the assigned user, who exists. */
  ghost predicate Named(users: map<int, string>, t: Task) {
    && (t.assignee.None? ==> t.assigneeName == "")
    && (t.assignee.Some? ==> t.assignee.value in users && t.assigneeName == users[t.assignee.value])
  }

  /** A fresh database holds only seeded or migrated tasks, all at version 1 and without events. */
  ghost predicate Initial(db: Db) {
    && db.events == map[] && db.open == map[] && db.nextTask >= 1
    && (forall p :: p in db.projects ==> p >= 1)
    && db.history.Keys == db.tasks.Keys
    && (forall t :: t in db.tasks ==>
          && 1 <= t < db.nextTask
          && db.tasks[t].id == t && db.tasks[t].version == 1
          && db.tasks[t].projectId in db.projects && ValidStatus(db.tasks[t].status) && Named(db.users, db.tasks[t])
          && db.history[t] == [Revision(db.tasks[t], None)])
  }

  // ---------- the invariant, in three parts ----------

  ghost predicate RevisionOk(events: map<nat, Envelope>, t: int, i: nat, r: Revision) {
    && r.task.id == t && r.task.version == i + 1 && ValidStatus(r.task.status)
    && (r.outbox.None? ==> i == 0)
    && (r.outbox.Some? ==> r.outbox.value in events && events[r.outbox.value].task == r.task)
  }

  /** Versions count up from 1, sequence numbers ascend with them, and the project never changes. */
  ghost predicate HistoryOk(events: map<nat, Envelope>, t: int, h: seq<Revision>) {
    && |h| >= 1
    && (forall i :: 0 <= i < |h| ==> RevisionOk(events, t, i, h[i]))
    && (forall i, j :: 0 <= i < j < |h| && h[i].outbox.Some? && h[j].outbox.Some? ==>
        h[i].outbox.value < h[j].outbox.value)
    && (forall i :: 0 <= i < |h| ==> h[i].task.projectId == h[0].task.projectId)
  }

  ghost predicate TaskOk(db: Db, t: int)
    requires t in db.tasks && t in db.history
  {
    && 1 <= t < db.nextTask
    && HistoryOk(db.events, t, db.history[t])
    && db.tasks[t] == db.history[t][|db.history[t]| - 1].task
    && db.tasks[t].projectId in db.projects
  }

  ghost predicate HistoryInv(db: Db) {
    && db.nextTask >= 1
    && (forall p :: p in db.projects ==> p >= 1)
    && db.history.Keys == db.tasks.Keys
    && (forall t :: t in db.history ==> TaskOk(db, t))
  }

  /** The revision with this content was committed, with this outbox row. */
  ghost predicate IsRevision(history: map<int, seq<Revision>>, t: Task, outbox: Option<nat>) {
    && t.id in history
    && 1 <= t.version <= |history[t.id]|
    && history[t.id][t.version - 1] == Revision(t, outbox)
  }

  ghost predicate EventOk(db: Db, s: nat)
    requires s in db.events
  {
    s < db.nextSequence && WellFormedEvent(db.events[s]) && IsRevision(db.history, db.events[s].task, Some(s))
  }

  ghost predicate EventsInv(db: Db) {
    forall s :: s in db.events ==> EventOk(db, s)
  }

  /** What an open transaction may assume: the row it locked is still the committed one, and its outbox
      sequence is above every committed sequence of that task. */
  ghost predicate TxOk(db: Db, t: Tx) {
    && (t.entry.Some? ==> t.row.Some?)
    && (t.row.Some? ==>
          var row := t.row.value;
          && 1 <= row.id < db.nextTask && row.projectId in db.projects && ValidStatus(row.status)
          && (if t.isNew then row.id !in db.tasks && row.version == 1
              else row.id in db.tasks && row.version == db.tasks[row.id].version + 1
                   && row.projectId == db.tasks[row.id].projectId))
    && (t.entry.Some? ==>
          var e := t.entry.value;
          && e.sequence < db.nextSequence && e.sequence !in db.events
          && WellFormedEvent(e.event) && e.event.task == t.row.value
          && (forall s :: s in db.events && db.events[s].task.id == t.row.value.id ==> s < e.sequence))
  }

  ghost predicate Compatible(a: Tx, b: Tx) {
    && (a.row.Some? && b.row.Some? ==> a.row.value.id != b.row.value.id)
    && (a.entry.Some? && b.entry.Some? ==> a.entry.value.sequence != b.entry.value.sequence)
  }

  ghost predicate OpenInv(db: Db) {
    && (forall x :: x in db.open ==> TxOk(db, db.open[x]))
    && (forall x, y :: x in db.open && y in db.open && x != y ==> Compatible(db.open[x], db.open[y]))
  }

  ghost predicate Inv(db: Db) {
    HistoryInv(db) && EventsInv(db) && OpenInv(db)
  }

  lemma {:induction false} InitialInv(db: Db)
    requires Initial(db)
    ensures Inv(db)
  {
    forall t | t in db.history
      ensures TaskOk(db, t)
    {
      assert t in db.tasks;
    }
  }

  /** Every step of either transaction, interleaved with any others, keeps the agreement between tasks and outbox. */
  lemma {:induction false} StepInv(db: Db, s: Step)
    requires Inv(db) && Enabled(db, s)
    ensures Inv(Next(db, s))
  {
    hide TaskOk, EventOk;
    match s
    case Commit(_) => CommitInv(db, s);
    case InsertTask(x, _, _, _, _, _) => OtherTablesKept(db, s); InsertTaskOpen(db, s);
    case UpdateTask(x, _, _) => OtherTablesKept(db, s); UpdateTaskOpen(db, s);
    case InsertOutbox(x, _, _, _) => OtherTablesKept(db, s); InsertOutboxOpen(db, s);
    case Begin(_, _) => OtherTablesKept(db, s);
    case Rollback(_) => OtherTablesKept(db, s);
  }

  lemma {:induction false} OtherTablesKept(db: Db, s: Step)
    requires Inv(db) && Enabled(db, s) && !s.Commit?
    ensures HistoryInv(Next(db, s)) && EventsInv(Next(db, s))
    ensures forall x :: x in db.open && TxOk(db, db.open[x]) ==> TxOk(Next(db, s), db.open[x])
  {
    var db' := Next(db, s);
    forall t | t in db'.history
      ensures TaskOk(db', t)
    {
      assert TaskOk(db, t);
    }
    forall q | q in db'.events
      ensures EventOk(db', q)
    {
      assert EventOk(db, q);
    }
  }

  lemma {:induction false} NextTaskIsFresh(db: Db)
    requires Inv(db)
    ensures db.nextTask !in db.history && db.nextTask !in db.tasks && db.nextTask >= 1
  {
  }

  lemma {:induction false} InsertTaskOpen(db: Db, s: Step)
    requires Inv(db) && s.InsertTask? && Enabled(db, s)
    requires forall x :: x in db.open && TxOk(db, db.open[x]) ==> TxOk(Next(db, s), db.open[x])
    ensures OpenInv(Next(db, s))
  {
    NextTaskIsFresh(db);
    assert TxOk(db, db.open[s.tx]);
  }

  lemma {:induction false} UpdateTaskOpen(db: Db, s: Step)
    requires Inv(db) && s.UpdateTask? && Enabled(db, s)
    requires forall x :: x in db.open && TxOk(db, db.open[x]) ==> TxOk(Next(db, s), db.open[x])
    ensures OpenInv(Next(db, s))
  {
    assert forall y :: y in db.open ==> !Holds(db.open[y], s.task);
    assert TaskOk(db, s.task);
    var h := db.history[s.task];
    assert RevisionOk(db.events, s.task, |h| - 1, h[|h| - 1]);
    assert TxOk(db, db.open[s.tx]);
  }

  lemma {:induction false} InsertOutboxOpen(db: Db, s: Step)
    requires Inv(db) && s.InsertOutbox? && Enabled(db, s)
    requires forall x :: x in db.open && TxOk(db, db.open[x]) ==> TxOk(Next(db, s), db.open[x])
    ensures OpenInv(Next(db, s))
  {
    hide HistoryOk, TaskOk, IsRevision;
    var db' := Next(db, s);
    forall x | x in db'.open
      ensures TxOk(db', db'.open[x])
      ensures x != s.tx ==> Compatible(db'.open[s.tx], db'.open[x]) && Compatible(db'.open[x], db'.open[s.tx])
    {
      assert TxOk(db, db.open[x]) && TxOk(db', db.open[x]);
      if x != s.tx {
        assert Compatible(db.open[s.tx], db.open[x]);
      } else {
        forall q | q in db.events ensures q < db.nextSequence { assert EventOk(db, q); }
      }
    }
  }

  lemma {:induction false} CommitInv(db: Db, s: Step)
    requires Inv(db) && s.Commit? && Enabled(db, s)
    ensures Inv(Next(db, s))
  {
    CommitHistory(db, s);
    CommitEvents(db, s);
    CommitOpen(db, s);
  }

  /** The locked row is exactly one version past the committed history. */
  lemma {:induction false} LockedRowIsNext(db: Db, t: Tx)
    requires HistoryInv(db) && TxOk(db, t) && t.row.Some?
    ensures |Revisions(db, t.row.value.id)| == t.row.value.version - 1
    ensures !t.isNew ==> TaskOk(db, t.row.value.id)
  {
    var id := t.row.value.id;
    if !t.isNew {
      assert TaskOk(db, id);
      var h := db.history[id];
      assert RevisionOk(db.events, id, |h| - 1, h[|h| - 1]);
    }
  }

  lemma {:induction false} HistoryOkKept(events: map<nat, Envelope>, s: nat, e: Envelope, t: int, h: seq<Revision>)
    requires HistoryOk(events, t, h) && s !in events
    ensures HistoryOk(events[s := e], t, h)
  {
    forall i | 0 <= i < |h|
      ensures RevisionOk(events[s := e], t, i, h[i])
    {
      assert RevisionOk(events, t, i, h[i]);
    }
  }

  lemma {:induction false} HistoryOkSnoc(events: map<nat, Envelope>, t: int, h: seq<Revision>, s: nat)
    requires s in events && events[s].task.id == t && ValidStatus(events[s].task.status)
    requires h == [] || HistoryOk(events, t, h)
    requires events[s].task.version == |h| + 1
    requires h != [] ==> events[s].task.projectId == h[0].task.projectId
    requires forall q :: q in events && q != s && events[q].task.id == t ==> q < s
    requires forall i :: 0 <= i < |h| ==> h[i].outbox != Some(s)
    ensures HistoryOk(events, t, h + [Revision(events[s].task, Some(s))])
  {
    var h' := h + [Revision(events[s].task, Some(s))];
    forall i | 0 <= i < |h'|
      ensures RevisionOk(events, t, i, h'[i])
      ensures i < |h| && h'[i].outbox.Some? ==> h'[i].outbox.value < s
    {
      if i < |h| { assert RevisionOk(events, t, i, h[i]); }
    }
  }

  lemma {:induction false} CommitHistory(db: Db, s: Step)
    requires Inv(db) && s.Commit? && Enabled(db, s)
    ensures HistoryInv(Next(db, s))
  {
    var db' := Next(db, s);
    var tx := db.open[s.tx];
    var row, entry := tx.row.value, tx.entry.value;
    assert TxOk(db, tx);
    LockedRowIsNext(db, tx);
    var h := Revisions(db, row.id);
    if !tx.isNew {
      HistoryOkKept(db.events, entry.sequence, entry.event, row.id, h);
      forall i | 0 <= i < |h|
        ensures h[i].outbox != Some(entry.sequence)
      {
        assert RevisionOk(db.events, row.id, i, h[i]);
      }
    }
    HistoryOkSnoc(db'.events, row.id, h, entry.sequence);
    forall t | t in db'.history
      ensures TaskOk(db', t)
    {
      if t != row.id {
        assert TaskOk(db, t);
        HistoryOkKept(db.events, entry.sequence, entry.event, t, db.history[t]);
      }
    }
  }

  lemma {:induction false} CommitEvents(db: Db, s: Step)
    requires Inv(db) && s.Commit? && Enabled(db, s)
    ensures EventsInv(Next(db, s))
  {
    var db' := Next(db, s);
    assert TxOk(db, db.open[s.tx]);
    LockedRowIsNext(db, db.open[s.tx]);
    forall q | q in db'.events
      ensures EventOk(db', q)
    {
      if q in db.events { assert EventOk(db, q); }
    }
  }

  lemma {:induction false} CommitOpen(db: Db, s: Step)
    requires OpenInv(db) && s.Commit? && Enabled(db, s)
    ensures OpenInv(Next(db, s))
  {
    var db' := Next(db, s);
    forall x | x in db'.open
      ensures TxOk(db', db'.open[x])
    {
      assert TxOk(db, db.open[x]) && Compatible(db.open[x], db.open[s.tx]) && TxOk(db, db.open[s.tx]);
    }
  }

  /** A rolled back transaction leaves its locks, its row and its outbox row nowhere; only numbers it drew are gone. */
  lemma {:induction false} RollbackForgets(db: Db, s: Step)
    requires Enabled(db, s) && s.Rollback?
    ensures var db' := Next(db, s);
            && db'.tasks == db.tasks && db'.events == db.events && db'.history == db.history
            && db'.nextTask == db.nextTask && db'.nextSequence == db.nextSequence
            && db'.users == db.users && db'.projects == db.projects
            && s.tx !in db'.open && forall x :: x in db.open && x != s.tx ==> x in db'.open && db'.open[x] == db.open[x]
  {
  }

  // ---------- the content of the versions ----------

  /** The next version of a task differs in status, version and update time only. */
  ghost predicate Follows(a: Task, b: Task) {
    b.version == a.version + 1 && b == a.(status := b.status, version := b.version, updatedAt := b.updatedAt)
  }

  ghost predicate VersionsOk(users: map<int, string>, h: seq<Revision>) {
    && (forall i :: 0 <= i < |h| ==> Named(users, h[i].task))
    && (forall i :: 0 <= i < |h| - 1 ==> Follows(h[i].task, h[i + 1].task))
  }

  ghost predicate RowInTx(db: Db, t: Tx) {
    t.row.Some? ==>
      && Named(db.users, t.row.value)
      && (!t.isNew ==> t.row.value.id in db.tasks && Follows(db.tasks[t.row.value.id], t.row.value))
      && (t.entry.Some? ==> (t.entry.value.event.eventType == TaskCreated <==> t.isNew))
  }

  ghost predicate ContentInv(db: Db) {
    && (forall t :: t in db.history ==> VersionsOk(db.users, db.history[t]))
    && (forall x :: x in db.open ==> RowInTx(db, db.open[x]))
    && (forall s :: s in db.events ==> TypeOk(db.events[s]))
  }

  /** The first version of a task was created, every later one is a change of status. */
  ghost predicate TypeOk(e: Envelope) {
    e.eventType == if e.taskVersion == 1 then TaskCreated else TaskStatusChanged
  }

  lemma {:induction false} InitialContent(db: Db)
    requires Initial(db)
    ensures ContentInv(db)
  {
    forall t | t in db.history
      ensures VersionsOk(db.users, db.history[t])
    {
      assert t in db.tasks;
    }
  }

  /** No step of any transaction changes who a task is assigned to, what it is called or where it belongs. */
  lemma {:induction false} StepContent(db: Db, s: Step)
    requires Inv(db) && ContentInv(db) && Enabled(db, s)
    ensures ContentInv(Next(db, s)) && Next(db, s).users == db.users
  {
    match s
    case Commit(_) => CommitContent(db, s);
    case UpdateTask(_, task, _) => UpdateContent(db, s);
    case _ =>
  }

  lemma {:induction false} UpdateContent(db: Db, s: Step)
    requires Inv(db) && ContentInv(db) && Enabled(db, s) && s.UpdateTask?
    ensures ContentInv(Next(db, s))
  {
    CommittedRow(db, s.task);
    hide Inv;
    assert VersionsOk(db.users, db.history[s.task]);
  }

  lemma {:induction false} CommitContent(db: Db, s: Step)
    requires Inv(db) && ContentInv(db) && Enabled(db, s) && s.Commit?
    ensures ContentInv(Next(db, s))
  {
    var db', tx := Next(db, s), db.open[s.tx];
    var row := tx.row.value;
    assert TxOk(db, tx) && RowInTx(db, tx);
    if !tx.isNew { CommittedRow(db, row.id); } else { NoHistory(db, row.id); }
    forall x | x in db'.open
      ensures RowInTx(db', db'.open[x])
    {
      assert RowInTx(db, db.open[x]) && Compatible(db.open[x], tx);
    }
    hide Inv;
    assert TypeOk(tx.entry.value.event);
    CommitVersions(db.users, Revisions(db, row.id), row, tx.entry.value.sequence);
  }

  lemma {:induction false} NoHistory(db: Db, id: int)
    requires Inv(db) && id !in db.tasks
    ensures id !in db.history
  {
  }

  lemma {:induction false} CommitVersions(users: map<int, string>, h: seq<Revision>, row: Task, sequence: nat)
    requires VersionsOk(users, h) && Named(users, row) && (h != [] ==> Follows(h[|h| - 1].task, row))
    ensures VersionsOk(users, h + [Revision(row, Some(sequence))])
  {
  }

  /** Every version of a task is its first one with another status and time. */
  lemma {:induction false} VersionsAgree(users: map<int, string>, h: seq<Revision>, i: nat)
    requires VersionsOk(users, h) && i < |h|
    ensures var first, x := h[0].task, h[i].task;
            x == first.(status := x.status, version := x.version, updatedAt := x.updatedAt)
  {
    if i > 0 {
      VersionsAgree(users, h, i - 1);
      assert Follows(h[i - 1].task, h[i].task);
    }
  }

  // ---------- what the invariant says about the tables ----------

  /** 1 for a seeded or migrated task, whose first version has no event; 0 for a task created through the API. */
  ghost function BaseVersion(db: Db, t: int): int {
    if t in db.history && |db.history[t]| >= 1 && db.history[t][0].outbox.None? then 1 else 0
  }

  ghost predicate RowFor(db: Db, s: nat, t: int, version: int) {
    s in db.events && db.events[s].taskId == t && db.events[s].taskVersion == version
  }

  ghost predicate HasRow(db: Db, t: int, version: int) {
    exists s :: RowFor(db, s, t, version)
  }

  lemma {:induction false} RowIsRevision(db: Db, s: nat, t: int, v: int)
    requires Inv(db) && RowFor(db, s, t, v)
    ensures t in db.history && BaseVersion(db, t) < v <= |db.history[t]|
    ensures db.history[t][v - 1] == Revision(db.events[s].task, Some(s))
  {
    assert EventOk(db, s);
  }

  lemma {:induction false} CommittedRow(db: Db, t: int)
    requires Inv(db) && t in db.tasks
    ensures t in db.history && db.tasks[t].id == t && db.tasks[t].version == |db.history[t]| >= 1
    ensures db.history[t][|db.history[t]| - 1].task == db.tasks[t]
    ensures db.tasks[t].projectId in db.projects && ValidStatus(db.tasks[t].status)
  {
    assert TaskOk(db, t);
    var h := db.history[t];
    assert RevisionOk(db.events, t, |h| - 1, h[|h| - 1]);
  }

  /** Each task has exactly one committed outbox row for every version above its base and none for any other
      version; rows of a task are in sequence order exactly when they are in version order; and the row of
      the current version carries the task row itself. */
  lemma {:induction false} Agreement(db: Db, t: int)
    requires Inv(db) && t in db.tasks
    ensures forall v {:trigger HasRow(db, t, v)} :: HasRow(db, t, v) <==> BaseVersion(db, t) < v <= db.tasks[t].version
    ensures forall s1, s2, v1, v2 :: RowFor(db, s1, t, v1) && RowFor(db, s2, t, v2) ==> (s1 < s2 <==> v1 < v2)
    ensures forall s :: RowFor(db, s, t, db.tasks[t].version) ==> db.events[s].task == db.tasks[t]
  {
    CommittedRow(db, t);
    var h := db.history[t];
    forall v {:trigger HasRow(db, t, v)} | BaseVersion(db, t) < v <= db.tasks[t].version
      ensures HasRow(db, t, v)
    {
      assert TaskOk(db, t) && RevisionOk(db.events, t, v - 1, h[v - 1]);
      assert EventOk(db, h[v - 1].outbox.value);
      assert RowFor(db, h[v - 1].outbox.value, t, v);
    }
    forall s, v | RowFor(db, s, t, v)
      ensures BaseVersion(db, t) < v <= |h| && h[v - 1] == Revision(db.events[s].task, Some(s))
    {
      RowIsRevision(db, s, t, v);
    }
    forall s1, s2, v1, v2 | RowFor(db, s1, t, v1) && RowFor(db, s2, t, v2)
      ensures s1 < s2 <==> v1 < v2
    {
      assert TaskOk(db, t);
      assert h[v1 - 1].outbox == Some(s1) && h[v2 - 1].outbox == Some(s2);
    }
  }

  /** Committed revisions are never changed or removed; a step adds at most one. */
  ghost predicate Grows(before: map<int, seq<Revision>>, after: map<int, seq<Revision>>) {
    forall t :: t in before ==> t in after && before[t] <= after[t]
  }

  lemma {:induction false} StepGrows(db: Db, s: Step)
    requires Inv(db) && Enabled(db, s)
    ensures Grows(db.history, Next(db, s).history)
    ensures forall q :: q in db.events ==> q in Next(db, s).events && Next(db, s).events[q] == db.events[q]
    ensures forall t, r :: IsRevision(db.history, t, r) ==> IsRevision(Next(db, s).history, t, r)
  {
    hide HistoryInv, EventsInv;
    if s.Commit? { assert TxOk(db, db.open[s.tx]); }
  }

  /** A task id and a version determine the committed content. */
  lemma {:induction false} RevisionsCoherent(
    history: map<int, seq<Revision>>, a: Task, b: Task, ra: Option<nat>, rb: Option<nat>)
    requires IsRevision(history, a, ra) && IsRevision(history, b, rb)
    requires a.id == b.id && a.version == b.version
    ensures a == b
  {
  }

  // ---------- the handlers ----------

  /** A first version of a task as the request asked for it. */
  predicate IsNewTask(
    t: Task, project: int, assignee: Option<int>, name: string, title: string, description: string, status: Status,
    now: int)
  {
    && t.projectId == project && t.assignee == assignee && t.assigneeName == name
    && t.title == title && t.description == description
    && t.status == status && t.version == 1 && t.createdAt == now && t.updatedAt == now
  }

  datatype ApiError = BadRequest | NotFound | Internal

  /** Where a handler's database work fails, if it does. A lost commit reply leaves the commit in place. */
  datatype Fault = NoFault | BeginFails | RowFails | OutboxFails | CommitFails | CommitReplyLost

  /** The database after some steps, if each is enabled when its turn comes. */
  ghost function Waited(db: Db, steps: seq<Step>): Option<Db> {
    if steps == [] then Some(db)
    else
      match Waited(db, steps[..|steps| - 1])
      case None => None
      case Some(mid) => if Enabled(mid, steps[|steps| - 1]) then Some(Next(mid, steps[|steps| - 1])) else None
  }

  lemma {:induction false} WaitedPrefix(db: Db, steps: seq<Step>, n: nat)
    requires n <= |steps| && Waited(db, steps).Some?
    ensures Waited(db, steps[..n]).Some?
  {
    if n == |steps| {
      assert steps[..n] == steps;
    } else {
      assert steps[..|steps| - 1][..n] == steps[..n];
      WaitedPrefix(db, steps[..|steps| - 1], n);
    }
  }

  /** What can happen while a statement waits for the lock of a task row: nothing without a lock on a committed row;
      else steps of other transactions, until the lock is free or the wait fails. */
  ghost predicate IsWait(db: Db, tx: nat, id: int, waits: seq<Step>, failing: bool) {
    && (waits != [] ==> id in db.tasks && Locked(db, id))
    && (forall k :: 0 <= k < |waits| ==> waits[k].tx != tx)
    && Waited(db, waits).Some?
    && (!failing && id in Waited(db, waits).value.tasks ==> !Locked(Waited(db, waits).value, id))
  }

  /** The database as one request sees it: other transactions stay open around it. */
  class TaskStore {
    var db: Db

    constructor (initial: Db)
      requires Initial(initial)
      ensures db == initial && Inv(db)
    {
      db := initial;
      new;
      InitialInv(initial);
    }

    method Take(s: Step)
      requires Inv(db) && Enabled(db, s)
      modifies this
      ensures db == Next(old(db), s) && Inv(db)
    {
      StepInv(db, s);
      db := Next(db, s);
    }

    /** The handler body of createTask. `tx` is a fresh transaction, `status` is empty when the request omits it. */
    method CreateTask(tx: nat, now: int, project: int, assignee: Option<int>, title: string, description: string,
                      status: Status, eventId: string, actor: string, fault: Fault) returns (r: Result<Task, ApiError>)
      requires Inv(db) && tx !in db.open && eventId != ""
      modifies this
      ensures Inv(db) && db.open == old(db.open)
      ensures var wanted := if status == Other("") then Todo else status;
              var valid := title != "" && ValidStatus(wanted);
              var known := project in old(db.projects) && (assignee.Some? ==> assignee.value in old(db.users));
              var committed := valid && known && (fault.NoFault? || fault.CommitReplyLost?);
              && (r.Ok? <==> committed && fault.NoFault?)
              && (!valid ==> r == Err(BadRequest))
              && (valid && !known && !fault.BeginFails? ==> r == Err(BadRequest))
              && (valid && r.Err? && (known || fault.BeginFails?) ==> r == Err(Internal))
              && (if committed then
                    var id := old(db.nextTask);
                    && id !in old(db.tasks) && id in db.tasks
                    && IsNewTask(db.tasks[id], project, assignee,
                                 if assignee.Some? then old(db.users)[assignee.value] else "",
                                 title, description, wanted, now)
                    && db.tasks == old(db.tasks)[id := db.tasks[id]]
                    && db.events == old(db.events)[old(db.nextSequence) :=
                                      Envelope(eventId, TaskCreated, 1, project, id, 1, now, actor, db.tasks[id])]
                    && (r.Ok? ==> r.value == db.tasks[id])
                  else db.tasks == old(db.tasks) && db.events == old(db.events))
    {
      hide Inv;
      var wanted := if status == Other("") then Todo else status;
      if title == "" || !ValidStatus(wanted) { return Err(BadRequest); }
      if fault.BeginFails? { return Err(Internal); }
      Take(Begin(tx, now));
      if project !in db.projects || (assignee.Some? && assignee.value !in db.users) {
        Take(Rollback(tx));
        return Err(BadRequest);
      }
      if fault.RowFails? { Take(Rollback(tx)); return Err(Internal); }
      NextTaskIsFresh(db);
      Take(InsertTask(tx, project, assignee, title, description, wanted));
      var task := db.open[tx].row.value;
      r := Finish(tx, task, now, eventId, actor, fault);
    }

    /** The handler body of updateTaskStatus. `waits` is what other transactions do while its UPDATE waits for the row
        lock; `seen` is the database when the wait is over, whether with the lock or with an error. */
    method UpdateTaskStatus(tx: nat, now: int, id: int, status: Status, eventId: string, actor: string,
                            waits: seq<Step>, fault: Fault) returns (r: Result<Task, ApiError>, ghost seen: Db)
      requires Inv(db) && tx !in db.open && eventId != ""
      requires ValidStatus(status) && !fault.BeginFails? ==>
                 IsWait(Next(db, Begin(tx, now)), tx, id, waits, fault.RowFails?)
      modifies this
      ensures Inv(db)
      ensures if ValidStatus(status) && !fault.BeginFails?
              then Some(seen) == Waited(Next(old(db), Begin(tx, now)), waits) && db.open == seen.open - {tx}
              else seen == old(db) && db == old(db)
      ensures var known, valid := id in seen.tasks, ValidStatus(status);
              var committed := valid && known && (fault.NoFault? || fault.CommitReplyLost?);
              && (r.Ok? <==> committed && fault.NoFault?)
              && (!valid ==> r == Err(BadRequest))
              && (valid && !known && !fault.BeginFails? && !fault.RowFails? ==> r == Err(NotFound))
              && (valid && r.Err? && (known || fault.BeginFails? || fault.RowFails?) ==> r == Err(Internal))
              && (if committed then
                    var was := seen.tasks[id];
                    && id in db.tasks
                    && db.tasks[id] == was.(status := status, version := was.version + 1, updatedAt := now)
                    && db.tasks == seen.tasks[id := db.tasks[id]]
                    && db.events == seen.events[seen.nextSequence :=
                                      Envelope(eventId, TaskStatusChanged, 1, was.projectId, id, was.version + 1, now,
                                               actor, db.tasks[id])]
                    && (r.Ok? ==> r.value == db.tasks[id])
                  else db.tasks == seen.tasks && db.events == seen.events)
    {
      hide Inv;
      if !ValidStatus(status) { return Err(BadRequest), db; }
      if fault.BeginFails? { return Err(Internal), db; }
      Take(Begin(tx, now));
      Wait(tx, id, waits, fault.RowFails?);
      seen := db;
      if fault.RowFails? { Take(Rollback(tx)); return Err(Internal), seen; }
      if id !in db.tasks {
        Take(Rollback(tx));
        return Err(NotFound), seen;
      }
      CommittedRow(db, id);
      Take(UpdateTask(tx, id, status));
      r := Finish(tx, db.open[tx].row.value, now, eventId, actor, fault);
    }

    /** The other transactions go on. */
    method Wait(tx: nat, id: int, waits: seq<Step>, failing: bool)
      requires Inv(db) && tx in db.open && IsWait(db, tx, id, waits, failing)
      modifies this
      ensures Inv(db) && Some(db) == Waited(old(db), waits)
      ensures tx in db.open && db.open[tx] == old(db.open)[tx]
      ensures !failing && id in db.tasks ==> !Locked(db, id)
    {
      hide Inv;
      var i := 0;
      assert waits[..0] == [];
      while i < |waits|
        invariant 0 <= i <= |waits| && Inv(db) && Some(db) == Waited(old(db), waits[..i])
        invariant tx in db.open && db.open[tx] == old(db.open)[tx]
      {
        hide Inv;
        assert waits[..i + 1][..i] == waits[..i];
        WaitedPrefix(old(db), waits, i + 1);
        Take(waits[i]);
        i := i + 1;
      }
      assert waits[..|waits|] == waits;
    }

    /** The shared tail of both handlers: record the event, commit. */
    method Finish(
      tx: nat, task: Task, now: int, eventId: string, actor: string, fault: Fault)
      returns (r: Result<Task, ApiError>)
      requires Inv(db) && tx in db.open && eventId != ""
      requires db.open[tx].row == Some(task) && db.open[tx].entry.None?
      modifies this
      ensures Inv(db) && db.open == old(db.open) - {tx}
      ensures r == if fault in {OutboxFails, CommitFails, CommitReplyLost} then Err(Internal) else Ok(task)
      ensures var eventType := if old(db.open)[tx].isNew then TaskCreated else TaskStatusChanged;
              var event := Envelope(eventId, eventType, 1, task.projectId, task.id, task.version, now, actor, task);
              if fault.OutboxFails? || fault.CommitFails? then db.tasks == old(db.tasks) && db.events == old(db.events)
              else
                && db.tasks == old(db.tasks)[task.id := task]
                && db.events == old(db.events)[old(db.nextSequence) := event]
    {
      hide Inv;
      if fault.OutboxFails? { Take(Rollback(tx)); return Err(Internal); }
      Take(InsertOutbox(tx, eventId, actor, now));
      if fault.CommitFails? { Take(Rollback(tx)); return Err(Internal); }
      Take(Commit(tx));
      if fault.CommitReplyLost? { return Err(Internal); }
      return Ok(task);
    }
  }
}
