/** Where the tasks a page has applied came from, in every reachable state: exactly from its own writes and from the
    Broadcast calls it has received since the install. */
module Sources {
  import opened Base
  import opened Events
  import opened Pipeline
  import opened PipelineProof
  import W = Writers
  import R = RelayProtocol
  import C = Consumer
  import H = Hub

  /** The Broadcast calls the page has received since its last install, on this socket and on earlier ones. */
  function ReceivedSince(sockets: map<nat, Socket>, b: Browser): set<nat>
    requires b.loaded.Some?
  {
    b.loaded.value.heard
    + if b.socket.Some? && b.socket.value in sockets
      then ReceivedBetween(sockets[b.socket.value], b.loaded.value.before) else {}
  }

  /** One of these calls carried the task. */
  ghost predicate CarriedBy(calls: seq<C.Broadcast>, received: set<nat>, x: Task) {
    exists j :: j in received && j < |calls| && calls[j].event.task == x
  }

  ghost predicate SourcesOk(calls: seq<C.Broadcast>, sockets: map<nat, Socket>, b: Browser) {
    b.loaded.Some? ==>
      && (b.loaded.value.heard != {} ==> b.loaded.value.before == 0)
      && (forall j :: j in ReceivedSince(sockets, b) ==> j < |calls|)
      && forall x :: x in b.applied <==> x in b.loaded.value.own || CarriedBy(calls, ReceivedSince(sockets, b), x)
  }

  ghost predicate SourcesInv(s: System) {
    forall i :: i in s.browsers ==> SourcesOk(s.consumer.broadcasts, s.sockets, s.browsers[i])
  }

  /** The page's socket exists, and what was received on it had been handed to it. */
  ghost predicate Anchored(sockets: map<nat, Socket>, b: Browser) {
    b.loaded.Some? && b.socket.Some? ==>
      && b.socket.value in sockets
      && b.loaded.value.before <= sockets[b.socket.value].received <= |sockets[b.socket.value].conn.handed|
  }

  lemma {:induction false} PagesAreAnchored(p: R.Params, s: System, i: nat)
    requires Inv(p, s) && i in s.browsers
    ensures Anchored(s.sockets, s.browsers[i])
  {
    hide BackInv;
    assert LinkOk(s.sockets, i, s.browsers[i]);
  }

  /** Further messages on a socket do not change what was received on it. */
  ghost predicate SameReceived(sockets: map<nat, Socket>, sockets': map<nat, Socket>, b: Browser) {
    b.socket.Some? && b.socket.value in sockets ==>
      && b.socket.value in sockets'
      && sockets'[b.socket.value].received == sockets[b.socket.value].received
      && sockets[b.socket.value].conn.handed <= sockets'[b.socket.value].conn.handed
  }

  lemma {:induction false} ReceivedKept(sockets: map<nat, Socket>, sockets': map<nat, Socket>, b: Browser)
    requires b.loaded.Some? && Anchored(sockets, b) && SameReceived(sockets, sockets', b)
    ensures ReceivedSince(sockets', b) == ReceivedSince(sockets, b)
  {
    if b.socket.Some? && b.socket.value in sockets {
      var k, k' := sockets[b.socket.value], sockets'[b.socket.value];
      assert forall m :: 0 <= m < k.received ==> k'.conn.handed[m] == k.conn.handed[m];
      assert ReceivedBetween(k', b.loaded.value.before) == ReceivedBetween(k, b.loaded.value.before);
    }
  }

  /** More calls, and the same calls received. */
  lemma {:induction false} CarriedKept(calls: seq<C.Broadcast>, calls': seq<C.Broadcast>, received: set<nat>, x: Task)
    requires calls <= calls' && forall j :: j in received ==> j < |calls|
    ensures CarriedBy(calls', received, x) <==> CarriedBy(calls, received, x)
  {
    if CarriedBy(calls', received, x) {
      var j :| j in received && j < |calls'| && calls'[j].event.task == x;
      assert calls[j] == calls'[j];
    }
    if CarriedBy(calls, received, x) {
      var j :| j in received && j < |calls| && calls[j].event.task == x;
      assert calls[j] == calls'[j];
    }
  }

  /** Further calls and messages, and changes of the page that keep or end its load, do not spoil the sources. */
  lemma {:induction false} SourcesKept(
    calls: seq<C.Broadcast>, calls': seq<C.Broadcast>, sockets: map<nat, Socket>, sockets': map<nat, Socket>,
    b: Browser, b': Browser)
    requires SourcesOk(calls, sockets, b) && calls <= calls'
    requires Anchored(sockets, b) && SameReceived(sockets, sockets', b)
    requires b'.loaded.Some? ==> b'.loaded == b.loaded && b'.socket == b.socket && b'.applied == b.applied
    ensures SourcesOk(calls', sockets', b')
  {
    if b'.loaded.Some? {
      ReceivedKept(sockets, sockets', b);
      assert ReceivedSince(sockets', b') == ReceivedSince(sockets', b);
      forall x
        ensures CarriedBy(calls', ReceivedSince(sockets', b'), x) <==> CarriedBy(calls, ReceivedSince(sockets, b), x)
      {
        CarriedKept(calls, calls', ReceivedSince(sockets, b), x);
      }
    }
  }

  // ---------- receiving ----------

  /** One more call received, one more task applied. */
  lemma {:induction false} SourcesGrow(
    calls: seq<C.Broadcast>, sockets: map<nat, Socket>, sockets': map<nat, Socket>, b: Browser, b': Browser, tag: nat)
    requires SourcesOk(calls, sockets, b) && b.loaded.Some? && tag < |calls|
    requires b'.loaded == b.loaded && b'.socket == b.socket && b'.applied == b.applied + [calls[tag].event.task]
    requires ReceivedSince(sockets', b') == ReceivedSince(sockets, b) + {tag}
    ensures SourcesOk(calls, sockets', b')
  {
    var received := ReceivedSince(sockets, b);
    forall x
      ensures CarriedBy(calls, received + {tag}, x) <==> CarriedBy(calls, received, x) || x == calls[tag].event.task
    {
      if CarriedBy(calls, received, x) {
        var j :| j in received && j < |calls| && calls[j].event.task == x;
        assert j in received + {tag};
      }
      if x == calls[tag].event.task { assert tag in received + {tag}; }
    }
  }

  /** What receiving a message adds. */
  lemma {:induction false} ReceivedSnoc(k: Socket, from: nat, k': Socket)
    requires from <= k.received < |k.conn.handed| && k'.conn == k.conn && k'.received == k.received + 1
    ensures var m := k.conn.handed[k.received];
            ReceivedBetween(k', from) == ReceivedBetween(k, from) + if m.Event? then {m.tag} else {}
  {
    var m, old_, new_ := k.conn.handed[k.received], ReceivedBetween(k, from), ReceivedBetween(k', from);
    forall j | j in old_
      ensures j in new_
    {
      var n :| from <= n < k.received && n < |k.conn.handed| && k.conn.handed[n].Event? && k.conn.handed[n].tag == j;
      assert k'.conn.handed[n].tag == j;
    }
    if m.Event? { assert k'.conn.handed[k.received].tag in new_; }
  }

  /** What the page makes of a message: an event of a task is applied, and nothing else is. */
  lemma {:induction false} HandleSources(b: Browser, m: H.Msg, get: nat)
    ensures var b' := Handle(b, m, get);
            && b'.socket == b.socket
            && (b'.loaded.Some? ==> b'.loaded == b.loaded)
            && (!m.Event? && b'.loaded.Some? ==> b'.applied == b.applied)
            && (m.Event? && m.payload.Encoded? && !m.payload.event.eventType.OtherType? ==>
                  b'.loaded == b.loaded && b'.applied == b.applied + [m.payload.event.task])
  {
  }

  /** A message with a tag carries the task of that Broadcast call. */
  lemma {:induction false} MessageIsCall(p: R.Params, s: System, c: nat, n: nat)
    requires Inv(p, s) && c in s.sockets && n < |s.sockets[c].conn.handed| && s.sockets[c].conn.handed[n].Event?
    ensures var m, calls := s.sockets[c].conn.handed[n], s.consumer.broadcasts;
            && m.payload.Encoded? && !m.payload.event.eventType.OtherType?
            && m.tag < |calls| && m.payload.event == calls[m.tag].event
  {
    assert SocketOk(s.consumer.broadcasts, s.sockets[c]);
    assert H.MsgOk(s.sockets[c].conn.handed[n], s.consumer.broadcasts);
    hide SocketsInv, BrowsersInv;
    var q := CallIsCommitted(p, s, s.sockets[c].conn.handed[n].tag);
  }

  lemma {:induction false} SocketIsCurrent(p: R.Params, s: System, c: nat)
    requires Inv(p, s) && c in s.sockets && s.sockets[c].owner in s.browsers
    ensures var b := s.browsers[s.sockets[c].owner];
            s.sockets[c].generation == b.generation <==> b.socket == Some(c)
  {
    hide BackInv, SocketsInv;
    CurrentSocket(s.sockets, c, s.browsers[s.sockets[c].owner]);
  }

  /** What a received message changes at most. */
  lemma {:induction false} ReceiveShape(s: System, c: nat, get: nat, open: bool)
    requires SocketEnabled(s, c, Receive(get, open))
    ensures var s', k := NextReceive(s, c, get, open), s.sockets[c];
            && s'.consumer == s.consumer && s'.browsers.Keys == s.browsers.Keys
            && (forall i :: i in s.browsers && i != k.owner ==> s'.browsers[i] == s.browsers[i])
            && (forall o :: o in s.sockets && o != c ==> o in s'.sockets && s'.sockets[o] == s.sockets[o])
            && c in s'.sockets && s'.sockets[c].conn == k.conn && s'.sockets[c].received == k.received + 1
            && s'.browsers[k.owner] == (if k.generation != s.browsers[k.owner].generation then s.browsers[k.owner]
                                        else Handle(s.browsers[k.owner], k.conn.handed[k.received], get))
  {
    hide Handle;
  }

  /** The page that handles the message. */
  lemma {:induction false} HandlerSources(p: R.Params, s: System, c: nat, get: nat, open: bool)
    requires Inv(p, s) && SourcesInv(s) && Enabled(p, s, OnSocket(c, Receive(get, open)))
    requires s.browsers[s.sockets[c].owner].socket == Some(c)
    requires s.sockets[c].generation == s.browsers[s.sockets[c].owner].generation
    ensures var s', i := NextReceive(s, c, get, open), s.sockets[c].owner;
            i in s'.browsers && SourcesOk(s.consumer.broadcasts, s'.sockets, s'.browsers[i])
  {
    var s', k := NextReceive(s, c, get, open), s.sockets[c];
    var b, m := s.browsers[k.owner], k.conn.handed[k.received];
    PagesAreAnchored(p, s, k.owner);
    ReceiveShape(s, c, get, open);
    HandleSources(b, m, get);
    var b' := s'.browsers[k.owner];
    if m.Event? { MessageIsCall(p, s, c, k.received); }
    hide Inv, Handle, NextReceive, SourcesOk, Enabled;
    SourcesSnoc(s.consumer.broadcasts, s.sockets, s'.sockets, b, b', c, m);
  }

  /** One more message received on the page's socket. */
  lemma {:induction false} SourcesSnoc(
    calls: seq<C.Broadcast>, sockets: map<nat, Socket>, sockets': map<nat, Socket>, b: Browser, b': Browser,
    c: nat, m: H.Msg)
    requires SourcesOk(calls, sockets, b) && Anchored(sockets, b) && b.socket == b'.socket == Some(c)
    requires c in sockets && c in sockets' && sockets'[c].conn == sockets[c].conn
    requires sockets'[c].received == sockets[c].received + 1
    requires sockets[c].received < |sockets[c].conn.handed| && m == sockets[c].conn.handed[sockets[c].received]
    requires b'.loaded.Some? ==> b'.loaded == b.loaded
    requires m.Event? ==> m.tag < |calls| && b'.applied == b.applied + [calls[m.tag].event.task]
    requires b'.loaded.Some? && !m.Event? ==> b'.applied == b.applied
    ensures SourcesOk(calls, sockets', b')
  {
    hide SourcesOk;
    if b'.loaded.Some? {
      ReceivedSnoc(sockets[c], b.loaded.value.before, sockets'[c]);
      if m.Event? {
        SourcesGrow(calls, sockets, sockets', b, b', m.tag);
      } else {
        SameSources(calls, sockets, sockets', b, b');
      }
    } else {
      NothingLoaded(calls, sockets', b');
    }
  }

  lemma {:induction false} NothingLoaded(calls: seq<C.Broadcast>, sockets: map<nat, Socket>, b: Browser)
    requires b.loaded.None?
    ensures SourcesOk(calls, sockets, b)
  {
  }

  lemma {:induction false} SameSources(
    calls: seq<C.Broadcast>, sockets: map<nat, Socket>, sockets': map<nat, Socket>, b: Browser, b': Browser)
    requires SourcesOk(calls, sockets, b) && b.loaded.Some? && b'.loaded.Some? && b'.applied == b.applied
    requires b'.loaded.value.own == b.loaded.value.own && ReceivedSince(sockets', b') == ReceivedSince(sockets, b)
    requires b'.loaded.value.heard == b.loaded.value.heard || b'.loaded.value.before == 0
    requires b'.loaded.value.before == b.loaded.value.before || b'.loaded.value.before == 0
    ensures SourcesOk(calls, sockets', b')
  {
  }

  lemma {:induction false} ReceiveKeepsSources(p: R.Params, s: System, c: nat, get: nat, open: bool)
    requires Inv(p, s) && SourcesInv(s) && Enabled(p, s, OnSocket(c, Receive(get, open)))
    ensures SourcesInv(NextReceive(s, c, get, open))
  {
    var s', k := NextReceive(s, c, get, open), s.sockets[c];
    ReceiveShape(s, c, get, open);
    SocketIsCurrent(p, s, c);
    forall i | i in s.browsers
      ensures SourcesOk(s.consumer.broadcasts, s'.sockets, s'.browsers[i])
    {
      PagesAreAnchored(p, s, i);
      hide Inv, NextReceive, SourcesOk;
      if s.browsers[i].socket == Some(c) {
        NotTheirSocket(p, s, c, i);
        HandlerSources(p, s, c, get, open);
      } else {
        SourcesKept(s.consumer.broadcasts, s.consumer.broadcasts, s.sockets, s'.sockets, s.browsers[i], s.browsers[i]);
      }
    }
  }

  /** A socket is the current one of at most its owner. */
  lemma {:induction false} NotTheirSocket(p: R.Params, s: System, c: nat, i: nat)
    requires Inv(p, s) && c in s.sockets && i in s.browsers && s.browsers[i].socket == Some(c)
    ensures s.sockets[c].owner == i
  {
    hide BackInv, SocketsInv;
    assert LinkOk(s.sockets, i, s.browsers[i]);
  }

  // ---------- the page's own steps ----------

  lemma {:induction false} BrowserKeepsSources(p: R.Params, s: System, i: nat, step: BrowserStep)
    requires Inv(p, s) && SourcesInv(s) && Enabled(p, s, OnBrowser(i, step))
    ensures SourcesInv(NextBrowser(s, i, step))
  {
    hide Inv, BackInv;
    var s' := NextBrowser(s, i, step);
    BrowserTouchesFront(s, i, step);
    SocketsStay(s, i, step);
    forall o | o in s.browsers
      ensures SourcesOk(s'.consumer.broadcasts, s'.sockets, s'.browsers[o])
    {
      PagesAreAnchored(p, s, o);
      if o != i {
        hide NextBrowser;
        SourcesKept(s.consumer.broadcasts, s.consumer.broadcasts, s.sockets, s'.sockets, s.browsers[o], s.browsers[o]);
      } else {
        OwnSources(s, i, step);
      }
    }
  }

  lemma {:induction false} SocketsStay(s: System, i: nat, step: BrowserStep)
    requires BrowserEnabled(s, i, step)
    ensures forall b :: SameReceived(s.sockets, NextBrowser(s, i, step).sockets, b)
  {
  }

  lemma {:induction false} OwnSources(s: System, i: nat, step: BrowserStep)
    requires BrowserEnabled(s, i, step) && SourcesInv(s) && Anchored(s.sockets, s.browsers[i])
    ensures var s' := NextBrowser(s, i, step);
            i in s'.browsers && SourcesOk(s.consumer.broadcasts, s'.sockets, s'.browsers[i])
  {
    hide SourcesOk;
    var b, s', calls := s.browsers[i], NextBrowser(s, i, step), s.consumer.broadcasts;
    var b' := s'.browsers[i];
    SocketsStay(s, i, step);
    if b'.loaded.None? {
      NothingLoaded(calls, s'.sockets, b');
    } else if step.Connect? {
      assert ReceivedBetween(s'.sockets[step.socket], 0) == {};
      SameSources(calls, s.sockets, s'.sockets, b, b');
    } else if step.LocalApply? {
      LocalSources(calls, s.sockets, b, step.task);
    } else if step.FinishGet? && b.gets[step.get].project == b.project {
      InstallSources(calls, s'.sockets, b');
    } else {
      SourcesKept(calls, calls, s.sockets, s'.sockets, b, b');
    }
  }

  /** At the install nothing has been applied, and nothing received since. */
  lemma {:induction false} InstallSources(calls: seq<C.Broadcast>, sockets: map<nat, Socket>, b: Browser)
    requires b.loaded.Some? && b.applied == [] && b.loaded.value.own == {} && b.loaded.value.heard == {}
    requires b.socket.Some? && b.socket.value in sockets ==>
               b.loaded.value.before == sockets[b.socket.value].received
    ensures SourcesOk(calls, sockets, b)
  {
    assert ReceivedSince(sockets, b) == {};
  }

  lemma {:induction false} LocalSources(calls: seq<C.Broadcast>, sockets: map<nat, Socket>, b: Browser, task: Task)
    requires SourcesOk(calls, sockets, b) && b.loaded.Some?
    ensures SourcesOk(calls, sockets, AppliedOwn(b, task))
  {
    var b' := AppliedOwn(b, task);
    assert ReceivedSince(sockets, b') == ReceivedSince(sockets, b);
  }

  // ---------- all other steps ----------

  /** A step that leaves the pages alone and lets calls and messages only grow. */
  lemma {:induction false} GrowthKeepsSources(p: R.Params, s: System, s': System)
    requires Inv(p, s) && SourcesInv(s) && s'.browsers == s.browsers
    requires s.consumer.broadcasts <= s'.consumer.broadcasts && forall b :: SameReceived(s.sockets, s'.sockets, b)
    ensures SourcesInv(s')
  {
    hide Inv;
    forall i | i in s.browsers
      ensures SourcesOk(s'.consumer.broadcasts, s'.sockets, s.browsers[i])
    {
      PagesAreAnchored(p, s, i);
      SourcesKept(s.consumer.broadcasts, s'.consumer.broadcasts, s.sockets, s'.sockets, s.browsers[i], s.browsers[i]);
    }
  }

  lemma {:induction false} OthersOnlyGrow(p: R.Params, s: System, step: Step)
    requires Enabled(p, s, step) && !step.OnBrowser? && !(step.OnSocket? && step.socketStep.Receive?)
    ensures var s' := Next(p, s, step);
            && s'.browsers == s.browsers && s.consumer.broadcasts <= s'.consumer.broadcasts
            && forall b :: SameReceived(s.sockets, s'.sockets, b)
  {
    hide W.Next, W.Enabled, R.Next, R.Enabled;
    if step.ConsumeStep? { ConsumeAddsOneCall(s, step.consume); }
  }

  lemma {:induction false} StepSources(p: R.Params, s: System, step: Step)
    requires Inv(p, s) && SourcesInv(s) && Enabled(p, s, step)
    ensures SourcesInv(Next(p, s, step))
  {
    hide Inv, SourcesInv;
    if step.OnBrowser? {
      BrowserKeepsSources(p, s, step.browser, step.browserStep);
    } else if step.OnSocket? && step.socketStep.Receive? {
      ReceiveKeepsSources(p, s, step.socket, step.socketStep.get, step.socketStep.open);
    } else {
      OthersOnlyGrow(p, s, step);
      GrowthKeepsSources(p, s, Next(p, s, step));
    }
  }

  lemma {:induction false} RunSources(p: R.Params, states: seq<System>, steps: seq<Step>, k: nat)
    requires IsRun(p, states, steps) && k < |states|
    ensures Inv(p, states[k]) && SourcesInv(states[k])
  {
    hide Inv, Enabled, Next;
    RunInv(p, states, steps, k);
    if k > 0 {
      hide Initial, SourcesInv;
      RunSources(p, states, steps, k - 1);
      StepSources(p, states[k - 1], steps[k - 1]);
    }
  }
}
