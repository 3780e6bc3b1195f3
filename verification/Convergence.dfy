/** Convergence of the browsers: when exactly a live page shows what the database holds. */
module Convergence {
  import opened Base
  import opened Events
  import opened Pipeline
  import opened PipelineProof
  import opened Sources
  import opened Theorems
  import Merge
  import W = Writers
  import R = RelayProtocol
  import C = Consumer
  import H = Hub

  /** The page has a socket whose client is in the hub, neither cancelled nor about to be, and subscribed to the
      selected project. */
  ghost predicate Live(s: System, i: nat) {
    && i in s.browsers && s.browsers[i].socket.Some? && s.browsers[i].socket.value in s.sockets
    && var conn := s.sockets[s.browsers[i].socket.value].conn;
       H.Receives(conn, s.browsers[i].project) && !conn.cancelled && !conn.full
  }

  function SocketOf(s: System, i: nat): Socket
    requires i in s.browsers && s.browsers[i].socket.Some? && s.browsers[i].socket.value in s.sockets
  {
    s.sockets[s.browsers[i].socket.value]
  }

  /** A snapshot is installed, and everything put in the client's queue has reached the page. */
  ghost predicate CaughtUp(s: System, i: nat) {
    Live(s, i) && s.browsers[i].loaded.Some? && SocketOf(s, i).received == |SocketOf(s, i).conn.handed|
  }

  /** The current subscription began before the server read the installed snapshot. */
  ghost predicate SubscribedBeforeRead(s: System, i: nat)
    requires CaughtUp(s, i)
  {
    SocketOf(s, i).conn.since <= s.browsers[i].loaded.value.reply.calls
  }

  /** The current subscription is the first one of its socket, and no event reached the page on an earlier socket since
      the install. */
  ghost predicate FirstSubscription(s: System, i: nat)
    requires CaughtUp(s, i)
  {
    && s.browsers[i].loaded.value.heard == {}
    && forall m :: 0 <= m < SocketOf(s, i).conn.mark && m < |SocketOf(s, i).conn.handed| ==>
         !SocketOf(s, i).conn.handed[m].Event?
  }

  /** The page is connected as the repository promises convergence for. */
  ghost predicate Following(s: System, i: nat) {
    CaughtUp(s, i) && SubscribedBeforeRead(s, i)
  }

  /** A task of the page's project. */
  predicate OnBoard(s: System, i: nat, t: int) {
    i in s.browsers && t in s.db.tasks && s.db.tasks[t].projectId == s.browsers[i].project
  }

  predicate Shows(s: System, i: nat, t: int) {
    i in s.browsers && t in s.db.tasks && t in s.browsers[i].tasks && s.browsers[i].tasks[t] == s.db.tasks[t]
  }

  /** The installed snapshot holds the task's current version. */
  ghost predicate InSnapshot(s: System, i: nat, t: int)
    requires OnBoard(s, i, t) && s.browsers[i].loaded.Some?
  {
    Merge.Covers(s.browsers[i].loaded.value.reply.tasks, t, s.db.tasks[t].version)
  }

  predicate IsCall(m: H.Msg, j: nat) {
    m.Event? && m.tag == j
  }

  /** The j-th Broadcast call is among the first n messages. */
  ghost predicate AmongFirst(msgs: seq<H.Msg>, n: nat, j: nat) {
    exists m :: 0 <= m < n && m < |msgs| && IsCall(msgs[m], j)
  }

  /** The page received the j-th Broadcast call on its current socket before it installed its snapshot. */
  ghost predicate DeliveredEarly(s: System, i: nat, j: nat)
    requires CaughtUp(s, i)
  {
    AmongFirst(SocketOf(s, i).conn.handed, s.browsers[i].loaded.value.before, j)
  }

  /** The j-th Broadcast call carried the task's current version. */
  predicate Carries(s: System, j: nat, t: int)
    requires t in s.db.tasks
  {
    j < |s.consumer.broadcasts| && s.consumer.broadcasts[j].event.task == s.db.tasks[t]
  }

  /** The current version came with the snapshot or as the response to the page's own write. */
  ghost predicate Fetched(s: System, i: nat, t: int)
    requires OnBoard(s, i, t) && s.browsers[i].loaded.Some?
  {
    InSnapshot(s, i, t) || s.db.tasks[t] in s.browsers[i].loaded.value.own
  }

  /** ... or with an event received since the install. */
  ghost predicate Arrived(s: System, i: nat, t: int)
    requires OnBoard(s, i, t) && s.browsers[i].loaded.Some?
  {
    Fetched(s, i, t) || exists j :: j in ReceivedSince(s.sockets, s.browsers[i]) && Carries(s, j, t)
  }

  /** ... or, for a page that follows, was broadcast and not received, and overwritten, before the install. */
  ghost predicate Arrives(s: System, i: nat, t: int)
    requires CaughtUp(s, i) && OnBoard(s, i, t)
  {
    Fetched(s, i, t) || exists j :: Carries(s, j, t) && !DeliveredEarly(s, i, j)
  }

  /** ... or, without regard to when the page subscribed, was broadcast since and not received before the install. */
  ghost predicate ArrivesSince(s: System, i: nat, t: int)
    requires CaughtUp(s, i) && OnBoard(s, i, t)
  {
    Fetched(s, i, t) || exists j :: Carries(s, j, t) && SocketOf(s, i).conn.since <= j && !DeliveredEarly(s, i, j)
  }

  /** Every entry of a loaded board is a committed row of the selected project, under its own id. */
  lemma {:induction false} EntriesAreCommitted(p: R.Params, s: System, i: nat, t: int)
    requires Inv(p, s) && i in s.browsers && s.browsers[i].loaded.Some? && t in s.browsers[i].tasks
    ensures var x := s.browsers[i].tasks[t];
            x.id == t && x.projectId == s.browsers[i].project && Committed(s.db.history, x)
  {
    hide BackInv;
    var b := s.browsers[i];
    assert LoadedOk(s.db.history, s.consumer.broadcasts, b);
    Merge.ApplyAllIsJoin(b.project, b.loaded.value.reply.tasks, b.applied);
  }

  /** ... with the name of its assigned user. */
  lemma {:induction false} EntriesAreNamed(
    p: R.Params, states: seq<System>, steps: seq<Step>, k: nat, i: nat, t: int)
    requires IsRun(p, states, steps) && k < |states| && i in states[k].browsers
    requires states[k].browsers[i].loaded.Some? && t in states[k].browsers[i].tasks
    ensures W.Named(states[0].db.users, states[k].browsers[i].tasks[t])
  {
    RunInv(p, states, steps, k);
    hide Inv, IsRun;
    EntriesAreCommitted(p, states[k], i, t);
    EveryRunKeepsContent(p, states, steps, k, states[k].browsers[i].tasks[t]);
  }

  /** A loaded board shows the database row of a task of its project if and only if the row was in the snapshot or was
      handed to applyTask since the install. */
  lemma {:induction false} ShowsNewestIff(p: R.Params, s: System, i: nat, t: int)
    requires Inv(p, s) && OnBoard(s, i, t) && s.browsers[i].loaded.Some?
    ensures Shows(s, i, t) <==> InSnapshot(s, i, t) || s.db.tasks[t] in s.browsers[i].applied
  {
    var b, row := s.browsers[i], s.db.tasks[t];
    var snapshot := b.loaded.value.reply.tasks;
    RowIsCommitted(s.db, t);
    assert LoadedOk(s.db.history, s.consumer.broadcasts, b);
    Merge.ApplyAllIsJoin(b.project, snapshot, b.applied);
    if InSnapshot(s, i, t) || row in b.applied {
      assert Merge.Covers(b.tasks, t, row.version);
      EntriesAreCommitted(p, s, i, t);
      NewestIsRow(s.db, b.tasks[t]);
    }
  }

  /** The same in terms of Broadcast calls, for every loaded page in every reachable state, connected or not. */
  lemma {:induction false} ShowsIffArrived(p: R.Params, s: System, i: nat, t: int)
    requires Inv(p, s) && SourcesInv(s) && OnBoard(s, i, t) && s.browsers[i].loaded.Some?
    ensures Shows(s, i, t) <==> Arrived(s, i, t)
  {
    hide BackInv;
    ShowsNewestIff(p, s, i, t);
    hide Inv;
    var b, row, calls := s.browsers[i], s.db.tasks[t], s.consumer.broadcasts;
    assert SourcesOk(calls, s.sockets, b);
    var received := ReceivedSince(s.sockets, b);
    assert CarriedBy(calls, received, row) <==> exists j :: j in received && Carries(s, j, t);
  }

  // ---------- caught up pages ----------

  /** What was received early is not received since. */
  lemma {:induction false} EarlyIsNotSince(p: R.Params, s: System, i: nat, j: nat)
    requires Inv(p, s) && SourcesInv(s) && CaughtUp(s, i) && j in ReceivedSince(s.sockets, s.browsers[i])
    ensures !DeliveredEarly(s, i, j)
  {
    hide BackInv, BrowsersInv;
    var b, k := s.browsers[i], SocketOf(s, i);
    assert SourcesOk(s.consumer.broadcasts, s.sockets, b) && SocketOk(s.consumer.broadcasts, k);
    if b.loaded.value.before > 0 {
      var m :| b.loaded.value.before <= m < k.received && k.conn.handed[m].Event? && k.conn.handed[m].tag == j;
      forall n | 0 <= n < b.loaded.value.before
        ensures !IsCall(k.conn.handed[n], j)
      {
        assert n < m;
      }
    }
  }

  /** A call made since the subscription has been received, before the install or since. */
  lemma {:induction false} CallIsReceived(p: R.Params, s: System, i: nat, t: int, j: nat)
    requires Inv(p, s) && CaughtUp(s, i) && OnBoard(s, i, t) && Carries(s, j, t)
    requires SocketOf(s, i).conn.since <= j && !DeliveredEarly(s, i, j)
    ensures j in ReceivedSince(s.sockets, s.browsers[i])
  {
    var q := CallIsCommitted(p, s, j);
    hide BackInv, BrowsersInv;
    var b, k := s.browsers[i], SocketOf(s, i);
    assert SocketOk(s.consumer.broadcasts, k);
    H.BroadcastWasHanded(k.conn, s.consumer.broadcasts, b.project, j);
    var m :| k.conn.mark <= m < |k.conn.handed| && k.conn.handed[m] == H.Event(j, s.consumer.broadcasts[j].payload);
    assert IsCall(k.conn.handed[m], j);
    assert k.conn.handed[m].tag in ReceivedBetween(k, b.loaded.value.before);
  }

  /** Whenever the page subscribed: what was broadcast since then, and not received before the install, is shown. */
  lemma {:induction false} SubscribedShows(p: R.Params, s: System, i: nat, t: int)
    requires Inv(p, s) && SourcesInv(s) && CaughtUp(s, i) && OnBoard(s, i, t) && ArrivesSince(s, i, t)
    ensures Shows(s, i, t)
  {
    ShowsIffArrived(p, s, i, t);
    if !Fetched(s, i, t) {
      var j :| Carries(s, j, t) && SocketOf(s, i).conn.since <= j && !DeliveredEarly(s, i, j);
      CallIsReceived(p, s, i, t, j);
    }
  }

  /** On a socket's first subscription nothing that was broadcast before it is ever received. */
  lemma {:induction false} NothingBeforeSubscription(p: R.Params, s: System, i: nat, j: nat)
    requires Inv(p, s) && CaughtUp(s, i) && FirstSubscription(s, i) && j in ReceivedSince(s.sockets, s.browsers[i])
    ensures SocketOf(s, i).conn.since <= j
  {
    hide BackInv, BrowsersInv;
    var b, k := s.browsers[i], SocketOf(s, i);
    assert SocketOk(s.consumer.broadcasts, k);
    var m :| b.loaded.value.before <= m < k.received && k.conn.handed[m].Event? && k.conn.handed[m].tag == j;
    assert H.Gapless(k.conn, s.consumer.broadcasts, b.project);
    assert k.conn.handed[k.conn.mark..][m - k.conn.mark] == k.conn.handed[m];
    H.TagsHave(k.conn.handed[k.conn.mark..], m - k.conn.mark);
    H.MatchingFrom(s.consumer.broadcasts, k.conn.since, b.project, j);
  }

  /** Without the promise that the page subscribed before its snapshot was read: on its socket's first subscription a
      caught up page shows the row if and only if it was fetched, or broadcast since the subscription and not received
      before the install. So it misses the row exactly when every call that carried it came before the subscription or
      was overwritten. */
  lemma {:induction false} FirstSubscriptionIff(p: R.Params, s: System, i: nat, t: int)
    requires Inv(p, s) && SourcesInv(s) && CaughtUp(s, i) && FirstSubscription(s, i) && OnBoard(s, i, t)
    ensures Shows(s, i, t) <==> ArrivesSince(s, i, t)
  {
    ShowsIffArrived(p, s, i, t);
    if ArrivesSince(s, i, t) {
      SubscribedShows(p, s, i, t);
    } else if j :| j in ReceivedSince(s.sockets, s.browsers[i]) && Carries(s, j, t) {
      EarlyIsNotSince(p, s, i, j);
      NothingBeforeSubscription(p, s, i, j);
    }
  }

  /** With that promise, and any number of subscriptions: over every interleaving of writers, crashing relays, consumer
      restarts and broadcasts, a following page shows the row if and only if it was fetched, or broadcast at any time
      and not received before the install. */
  lemma {:induction false} ConvergesIff(p: R.Params, s: System, i: nat, t: int)
    requires Inv(p, s) && SourcesInv(s) && Following(s, i) && OnBoard(s, i, t)
    ensures Shows(s, i, t) <==> Arrives(s, i, t)
  {
    ShowsIffArrived(p, s, i, t);
    if j :| j in ReceivedSince(s.sockets, s.browsers[i]) && Carries(s, j, t) {
      EarlyIsNotSince(p, s, i, j);
    }
    if j :| Carries(s, j, t) && !DeliveredEarly(s, i, j) {
      CallReaches(p, s, i, t, j);
    }
  }

  /** A call for the current version either precedes the snapshot read, which then has it, or is received. */
  lemma {:induction false} CallReaches(p: R.Params, s: System, i: nat, t: int, j: nat)
    requires Inv(p, s) && Following(s, i) && OnBoard(s, i, t) && Carries(s, j, t)
    requires j < s.browsers[i].loaded.value.reply.calls || !DeliveredEarly(s, i, j)
    ensures InSnapshot(s, i, t) || j in ReceivedSince(s.sockets, s.browsers[i])
  {
    if j < s.browsers[i].loaded.value.reply.calls {
      CallPrecedesRead(p, s, i, t, j);
    } else {
      CallIsReceived(p, s, i, t, j);
    }
  }

  lemma {:induction false} CallPrecedesRead(p: R.Params, s: System, i: nat, t: int, j: nat)
    requires Inv(p, s) && OnBoard(s, i, t) && s.browsers[i].loaded.Some? && Carries(s, j, t)
    requires j < s.browsers[i].loaded.value.reply.calls
    ensures InSnapshot(s, i, t)
  {
    var q := CallIsCommitted(p, s, j);
    RowIsCommitted(s.db, t);
    hide BackInv, SocketsInv;
    assert LoadedOk(s.db.history, s.consumer.broadcasts, s.browsers[i]);
  }

  // ---------- whole boards, whole runs ----------

  lemma {:induction false} AllShown(s: System, i: nat)
    requires i in s.browsers && forall t :: t in s.browsers[i].tasks ==> OnBoard(s, i, t)
    ensures s.browsers[i].tasks == TasksOf(s.db.tasks, s.browsers[i].project)
       <==> forall t :: OnBoard(s, i, t) ==> Shows(s, i, t)
  {
    var b, rows := s.browsers[i], TasksOf(s.db.tasks, s.browsers[i].project);
    assert forall t :: t in rows <==> OnBoard(s, i, t);
    if forall t :: OnBoard(s, i, t) ==> Shows(s, i, t) {
      forall t | t in rows
        ensures t in b.tasks && b.tasks[t] == rows[t]
      {
        assert OnBoard(s, i, t) && Shows(s, i, t);
      }
      forall t | t in b.tasks
        ensures t in rows
      {
        assert OnBoard(s, i, t);
      }
    }
  }

  /** The whole board of a loaded page is the project's part of the task table if and only if each row is shown. */
  lemma {:induction false} BoardIsRows(p: R.Params, s: System, i: nat)
    requires Inv(p, s) && i in s.browsers && s.browsers[i].loaded.Some?
    ensures s.browsers[i].tasks == TasksOf(s.db.tasks, s.browsers[i].project)
       <==> forall t :: OnBoard(s, i, t) ==> Shows(s, i, t)
  {
    hide W.Inv, R.Inv, C.Inv, SocketsInv, BrowsersInv;
    var b := s.browsers[i];
    forall t | t in b.tasks
      ensures OnBoard(s, i, t)
    {
      EntriesAreCommitted(p, s, i, t);
      NewestIsRow(s.db, b.tasks[t]);
    }
    AllShown(s, i);
  }

  /** At every point of every run, and for every loaded page: its board is the project's part of the task table if and
      only if the current version of each of these tasks has arrived. */
  lemma {:induction false} EveryRunShows(p: R.Params, states: seq<System>, steps: seq<Step>, k: nat, i: nat)
    requires IsRun(p, states, steps) && k < |states| && i in states[k].browsers && states[k].browsers[i].loaded.Some?
    ensures states[k].browsers[i].tasks == TasksOf(states[k].db.tasks, states[k].browsers[i].project)
       <==> forall t :: OnBoard(states[k], i, t) ==> Arrived(states[k], i, t)
  {
    RunSources(p, states, steps, k);
    hide IsRun, Inv, SourcesInv, Arrived;
    BoardIsRows(p, states[k], i);
    forall t | OnBoard(states[k], i, t)
      ensures Shows(states[k], i, t) <==> Arrived(states[k], i, t)
    {
      ShowsIffArrived(p, states[k], i, t);
    }
  }

  /** Convergence at every point of every run: for a page that subscribed before its snapshot was read, and for a page
      on its socket's first subscription. */
  lemma {:induction false} EveryRunConverges(p: R.Params, states: seq<System>, steps: seq<Step>, k: nat, i: nat)
    requires IsRun(p, states, steps) && k < |states| && CaughtUp(states[k], i)
    ensures var s := states[k];
            SubscribedBeforeRead(s, i) ==>
              (s.browsers[i].tasks == TasksOf(s.db.tasks, s.browsers[i].project)
               <==> forall t :: OnBoard(s, i, t) ==> Arrives(s, i, t))
    ensures var s := states[k];
            FirstSubscription(s, i) ==>
              (s.browsers[i].tasks == TasksOf(s.db.tasks, s.browsers[i].project)
               <==> forall t :: OnBoard(s, i, t) ==> ArrivesSince(s, i, t))
  {
    RunSources(p, states, steps, k);
    var s := states[k];
    hide IsRun, Inv, SourcesInv, Arrives, ArrivesSince, FirstSubscription, SubscribedBeforeRead;
    BoardIsRows(p, s, i);
    forall t | OnBoard(s, i, t)
      ensures SubscribedBeforeRead(s, i) ==> (Shows(s, i, t) <==> Arrives(s, i, t))
      ensures FirstSubscription(s, i) ==> (Shows(s, i, t) <==> ArrivesSince(s, i, t))
    {
      if SubscribedBeforeRead(s, i) { ConvergesIff(p, s, i, t); }
      if FirstSubscription(s, i) { FirstSubscriptionIff(p, s, i, t); }
    }
  }

  // ---------- conditions on the pipeline alone ----------

  /** Some Broadcast call carried the task's current version, or it is a seeded version, which has no event. */
  ghost predicate NewestBroadcast(s: System, t: int)
    requires t in s.db.tasks
  {
    || s.db.tasks[t].version <= W.BaseVersion(s.db, t)
    || exists j :: Carries(s, j, t)
  }

  /** The outbox row of the task's current version, if it has one, is in the log below the committed offset. */
  ghost predicate NewestConsumed(s: System, t: int)
    requires t in s.db.tasks
  {
    forall q :: W.RowFor(s.db, q, t, s.db.tasks[t].version) ==>
      && q in s.relay.rows && q in s.relay.placed
      && s.relay.placed[q].offset < C.Offset(s.consumer.committed, s.relay.placed[q].partition)
  }

  ghost predicate CarriesNewest(s: System, m: H.Msg, t: int)
    requires t in s.db.tasks
  {
    m.Event? && m.payload.Encoded? && m.payload.event.task == s.db.tasks[t]
  }

  /** The snapshot already holds the current version, or no event of it was received after the snapshot was read and
      before it was installed. */
  ghost predicate NotOverwritten(s: System, i: nat, t: int)
    requires Following(s, i) && OnBoard(s, i, t)
  {
    var loaded, conn := s.browsers[i].loaded.value, SocketOf(s, i).conn;
    || InSnapshot(s, i, t)
    || forall m :: 0 <= m < loaded.before && m < |conn.handed| && CarriesNewest(s, conn.handed[m], t) ==>
         conn.handed[m].tag < loaded.reply.calls
  }

  /** Consumed is broadcast, whether or not the row was marked published or even died. */
  lemma {:induction false} ConsumedIsBroadcast(p: R.Params, s: System, t: int)
    requires Inv(p, s) && t in s.db.tasks && NewestConsumed(s, t)
    ensures NewestBroadcast(s, t)
  {
    hide BackInv, SocketsInv, BrowsersInv, NewestConsumed;
    if W.BaseVersion(s.db, t) < s.db.tasks[t].version {
      var j := NewestWasBroadcast(p, s, t);
      assert Carries(s, j, t);
    }
  }

  lemma {:induction false} NewestWasBroadcast(p: R.Params, s: System, t: int) returns (j: nat)
    requires BackInv(p, s) && t in s.db.tasks && NewestConsumed(s, t)
    requires W.BaseVersion(s.db, t) < s.db.tasks[t].version
    ensures j < |s.consumer.broadcasts| && s.consumer.broadcasts[j].event.task == s.db.tasks[t]
  {
    W.Agreement(s.db, t);
    assert W.HasRow(s.db, t, s.db.tasks[t].version);
    var q :| W.RowFor(s.db, q, t, s.db.tasks[t].version);
    var place := s.relay.placed[q];
    assert W.EventOk(s.db, q);
    hide W.Inv;
    PlacedRecord(p, s, q);
    RecordIsEvent(p, s, place);
    hide R.Inv, C.Inv;
    C.CommittedIsHandled(s.relay.log, s.consumer, place);
    j := s.consumer.heard[place];
  }

  /** A task still at its seeded version is in every snapshot of its project. */
  lemma {:induction false} SeedIsInSnapshot(p: R.Params, s: System, i: nat, t: int)
    requires Inv(p, s) && OnBoard(s, i, t) && s.browsers[i].loaded.Some?
    requires s.db.tasks[t].version <= W.BaseVersion(s.db, t)
    ensures InSnapshot(s, i, t)
  {
    hide R.Inv, C.Inv, SocketsInv;
    W.CommittedRow(s.db, t);
    assert LoadedOk(s.db.history, s.consumer.broadcasts, s.browsers[i]);
    assert Seeded(s.db.history[t], s.browsers[i].project);
    hide W.Inv;
  }

  /** Convergence as the repository promises it: the newest event was broadcast, and it was not received between the
      snapshot read and the install unless the snapshot has that version itself. */
  lemma {:induction false} Convergence(p: R.Params, s: System, i: nat, t: int)
    requires Inv(p, s) && SourcesInv(s) && Following(s, i) && OnBoard(s, i, t)
    requires NewestBroadcast(s, t) && NotOverwritten(s, i, t)
    ensures Shows(s, i, t)
  {
    ShowsIffArrived(p, s, i, t);
    if s.db.tasks[t].version <= W.BaseVersion(s.db, t) {
      SeedIsInSnapshot(p, s, i, t);
    } else if !InSnapshot(s, i, t) {
      var j :| Carries(s, j, t);
      var q := CallIsCommitted(p, s, j);
      NotReceivedEarly(s, i, t, j);
      CallReaches(p, s, i, t, j);
    }
  }

  lemma {:induction false} NotReceivedEarly(s: System, i: nat, t: int, j: nat)
    requires SocketsInv(s) && Following(s, i) && OnBoard(s, i, t) && NotOverwritten(s, i, t) && Carries(s, j, t)
    requires s.consumer.broadcasts[j].payload == Encoded(s.consumer.broadcasts[j].event)
    ensures InSnapshot(s, i, t) || j < s.browsers[i].loaded.value.reply.calls || !DeliveredEarly(s, i, j)
  {
    var b, k := s.browsers[i], SocketOf(s, i);
    assert SocketOk(s.consumer.broadcasts, k);
    if DeliveredEarly(s, i, j) {
      var m :| 0 <= m < b.loaded.value.before && m < |k.conn.handed| && IsCall(k.conn.handed[m], j);
      assert H.MsgOk(k.conn.handed[m], s.consumer.broadcasts);
      assert CarriesNewest(s, k.conn.handed[m], t);
    }
  }

  /** In every run, once the newest event of every task of the project is consumed, and none was overwritten, the board
      is exactly the project's part of the task table. */
  lemma {:induction false} ConsumedBoardConverges(p: R.Params, states: seq<System>, steps: seq<Step>, k: nat, i: nat)
    requires IsRun(p, states, steps) && k < |states| && Following(states[k], i)
    requires forall t :: OnBoard(states[k], i, t) ==> NewestConsumed(states[k], t) && NotOverwritten(states[k], i, t)
    ensures states[k].browsers[i].tasks == TasksOf(states[k].db.tasks, states[k].browsers[i].project)
  {
    var s := states[k];
    RunSources(p, states, steps, k);
    hide IsRun, Inv, SourcesInv, NewestConsumed, NotOverwritten, NewestBroadcast;
    forall t | OnBoard(s, i, t)
      ensures Shows(s, i, t)
    {
      ConsumedIsBroadcast(p, s, t);
      Convergence(p, s, i, t);
    }
    BoardIsRows(p, s, i);
  }
}
