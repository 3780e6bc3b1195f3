/** The WebSocket hub of internal/realtime/hub.go: subscriptions, bounded client queues, and the rule that a full
    queue cancels the client instead of skipping a message. */
module Hub {
  import opened Base
  import opened Events
  import opened Consumer

  const CAPACITY := 64

  /** What the server sends. `tag` is not in the message: it says which Broadcast call enqueued it. */
  datatype Msg = Ready | Control | Event(tag: nat, payload: Payload)

  /** One client. `handed` is everything ever put in its queue, of which `written` messages have left it again, so
      the queue is the rest. `since` and `mark` remember how many Broadcast calls there had been, and how many
      messages had been enqueued, when the current subscription began. `full` says that a Broadcast call found no room:
      the call cancels such clients only after it has offered to all. */
  datatype Conn = Conn(
    registered: bool, cancelled: bool, subscriptions: set<int>, since: nat, mark: nat, handed: seq<Msg>, written: nat,
    full: bool)

  const NEW_CONN := Conn(false, false, {}, 0, 0, [], 0, false)

  function QueueLength(c: Conn): int {
    |c.handed| - c.written
  }

  /** Enqueue, or cancel when the queue is full: the select of sendJSON. */
  function Offer(c: Conn, m: Msg): Conn {
    if QueueLength(c) < CAPACITY then c.(handed := c.handed + [m]) else c.(cancelled := true)
  }

  predicate Receives(c: Conn, project: int) {
    c.registered && project in c.subscriptions
  }

  predicate Takes(c: Conn, project: int) {
    Receives(c, project) && QueueLength(c) < CAPACITY
  }

  /** What the first loop of the tag-th Broadcast call does to one client. */
  function Deliver(c: Conn, b: Broadcast, tag: nat): Conn {
    if Takes(c, b.event.projectId) then c.(handed := c.handed + [Event(tag, b.payload)])
    else if Receives(c, b.event.projectId) then c.(full := true)
    else c
  }

  /** The second loop of Broadcast, for one client. */
  function Drop(c: Conn): Conn {
    if c.full then Cancel(c) else c
  }

  /** The current Broadcast call still has to cancel this client; the next call waits for that. */
  predicate Doomed(c: Conn) {
    c.full && !c.cancelled
  }

  /** subscribe replaces the whole set. Subscribing again to the same project changes nothing. */
  function Subscribe(c: Conn, project: int, calls: nat): Conn {
    if project in c.subscriptions then c.(subscriptions := {project})
    else c.(subscriptions := {project}, since := calls, mark := |c.handed|)
  }

  function Unsubscribe(c: Conn, project: int): Conn {
    c.(subscriptions := c.subscriptions - {project})
  }

  /** add, then the ready message. */
  function Register(c: Conn): Conn {
    Offer(c.(registered := true), Ready)
  }

  /** writeLoop takes one message off the queue. */
  function Write(c: Conn): Conn {
    if QueueLength(c) > 0 then c.(written := c.written + 1) else c
  }

  function Cancel(c: Conn): Conn {
    c.(cancelled := true)
  }

  /** The deferred cancel and remove. */
  function Remove(c: Conn): Conn {
    c.(cancelled := true, registered := false)
  }

  // ---------- no silent gap ----------

  /** The Broadcast calls among some messages, in order. */
  ghost function Tags(msgs: seq<Msg>): seq<nat> {
    if msgs == [] then []
    else
      var last := msgs[|msgs| - 1];
      Tags(msgs[..|msgs| - 1]) + if last.Event? then [last.tag] else []
  }

  /** The Broadcast calls for a project from the from-th call on, in order. */
  ghost function Matching(calls: seq<Broadcast>, from: nat, project: int): seq<nat> {
    if |calls| <= from then []
    else
      var last := |calls| - 1;
      Matching(calls[..last], from, project) + if calls[last].event.projectId == project then [last] else []
  }

  ghost predicate MsgOk(m: Msg, calls: seq<Broadcast>) {
    m.Event? ==> m.tag < |calls| && m.payload == calls[m.tag].payload
  }

  /** Nothing is missing: what was enqueued for a project since its subscription is exactly what was broadcast. */
  ghost predicate Gapless(c: Conn, calls: seq<Broadcast>, project: int) {
    c.mark <= |c.handed| && Tags(c.handed[c.mark..]) == Matching(calls, c.since, project)
  }

  /** A client is handed each call at most once, in the order of the calls. */
  ghost predicate Ascending(msgs: seq<Msg>) {
    forall i, j :: 0 <= i < j < |msgs| && msgs[i].Event? && msgs[j].Event? ==> msgs[i].tag < msgs[j].tag
  }

  ghost predicate ConnOk(c: Conn, calls: seq<Broadcast>) {
    && 0 <= QueueLength(c) <= CAPACITY
    && c.mark <= |c.handed| && c.since <= |calls| && Ascending(c.handed)
    && (forall p, q :: p in c.subscriptions && q in c.subscriptions ==> p == q)
    && (forall i :: 0 <= i < |c.handed| ==> MsgOk(c.handed[i], calls))
    && (c.registered && !c.cancelled ==>
          forall p :: p in c.subscriptions ==> Gapless(c, calls, p) || MissesLast(c, calls, p))
  }

  /** Only a doomed client misses a call, and only the last one. */
  ghost predicate MissesLast(c: Conn, calls: seq<Broadcast>, project: int) {
    c.full && c.since < |calls| && Gapless(c, calls[..|calls| - 1], project)
  }

  lemma {:induction false} TagsSnoc(msgs: seq<Msg>, m: Msg)
    ensures Tags(msgs + [m]) == Tags(msgs) + if m.Event? then [m.tag] else []
  {
    assert (msgs + [m])[..|msgs|] == msgs;
  }

  lemma {:induction false} MatchingSnoc(calls: seq<Broadcast>, from: nat, project: int, b: Broadcast)
    requires from <= |calls|
    ensures Matching(calls + [b], from, project)
         == Matching(calls, from, project) + if b.event.projectId == project then [|calls|] else []
  {
    assert (calls + [b])[..|calls|] == calls;
  }

  lemma {:induction false} MatchingEmpty(calls: seq<Broadcast>, project: int)
    ensures Matching(calls, |calls|, project) == []
  {
  }

  lemma {:induction false} HandedSnoc(c: Conn, m: Msg)
    requires c.mark <= |c.handed|
    ensures Tags((c.handed + [m])[c.mark..]) == Tags(c.handed[c.mark..]) + if m.Event? then [m.tag] else []
  {
    assert (c.handed + [m])[c.mark..] == c.handed[c.mark..] + [m];
    TagsSnoc(c.handed[c.mark..], m);
  }

  lemma {:induction false} NewConnOk(calls: seq<Broadcast>)
    ensures ConnOk(NEW_CONN, calls)
  {
  }

  /** Every Broadcast call keeps the agreement for every client, whatever its queue looks like. */
  lemma {:induction false} DeliverOk(c: Conn, calls: seq<Broadcast>, b: Broadcast)
    requires ConnOk(c, calls) && !Doomed(c)
    ensures ConnOk(Deliver(c, b, |calls|), calls + [b])
  {
    var c' := Deliver(c, b, |calls|);
    assert (calls + [b])[..|calls|] == calls;
    assert forall m :: MsgOk(m, calls) ==> MsgOk(m, calls + [b]);
    if c'.registered && !c'.cancelled {
      forall p | p in c'.subscriptions
        ensures Gapless(c', calls + [b], p) || MissesLast(c', calls + [b], p)
      {
        DeliverGapless(c, calls, b, p);
      }
    }
  }

  /** A client that had everything has the new message too, or only that one is missing. */
  lemma {:induction false} DeliverGapless(c: Conn, calls: seq<Broadcast>, b: Broadcast, project: int)
    requires c.registered && project in c.subscriptions && Gapless(c, calls, project) && c.since <= |calls|
    requires forall p :: p in c.subscriptions ==> p == project
    ensures var c' := Deliver(c, b, |calls|);
            Gapless(c', calls + [b], project) || MissesLast(c', calls + [b], project)
  {
    assert (calls + [b])[..|calls|] == calls;
    MatchingSnoc(calls, c.since, project, b);
    HandedSnoc(c, Event(|calls|, b.payload));
  }

  lemma {:induction false} ControlOk(c: Conn, calls: seq<Broadcast>, m: Msg)
    requires ConnOk(c, calls) && !m.Event?
    ensures ConnOk(Offer(c, m), calls)
  {
    var c' := Offer(c, m);
    if c'.registered && !c'.cancelled {
      forall p | p in c'.subscriptions
        ensures Gapless(c', calls, p) || MissesLast(c', calls, p)
      {
        assert Gapless(c, calls, p) || MissesLast(c, calls, p);
        HandedSnoc(c, m);
      }
    }
  }

  lemma {:induction false} RegisterOk(c: Conn, calls: seq<Broadcast>)
    requires ConnOk(c, calls) && c.subscriptions == {}
    ensures ConnOk(Register(c), calls)
  {
    ControlOk(c.(registered := true), calls, Ready);
  }

  lemma {:induction false} SubscribeOk(c: Conn, calls: seq<Broadcast>, project: int)
    requires ConnOk(c, calls)
    ensures ConnOk(Subscribe(c, project, |calls|), calls)
  {
    var c' := Subscribe(c, project, |calls|);
    if project in c.subscriptions {
      assert c' == c.(subscriptions := {project});
      assert Gapless(c, calls, project) ==> Gapless(c', calls, project);
      assert MissesLast(c, calls, project) ==> MissesLast(c', calls, project);
    } else {
      assert c'.handed[c'.mark..] == [];
      MatchingEmpty(calls, project);
      assert Gapless(c', calls, project);
    }
  }

  /** Subscribing makes the project the one and only subscription. A new one starts an account of its own, the same one
      goes on with the old account, and nothing else about the client changes. */
  lemma {:induction false} SubscribeReplaces(c: Conn, project: int, calls: nat, q: int)
    ensures var c' := Subscribe(c, project, calls);
            && c'.subscriptions == {project} && (Receives(c', q) <==> c.registered && q == project)
            && (if project in c.subscriptions then c'.since == c.since && c'.mark == c.mark
                else c'.since == calls && c'.mark == |c.handed|)
            && c'.(subscriptions := c.subscriptions, since := c.since, mark := c.mark) == c
  {
  }

  /** ... so the next call with room in the queue hands the client exactly the events of the new project. */
  lemma {:induction false} SubscriptionDecides(c: Conn, project: int, calls: nat, b: Broadcast, tag: nat)
    requires c.registered && |c.handed| - c.written < 64
    ensures Deliver(Subscribe(c, project, calls), b, tag).handed
         == if b.event.projectId == project then c.handed + [Event(tag, b.payload)] else c.handed
    ensures Deliver(Unsubscribe(c, project), b, tag).handed
         == if b.event.projectId in c.subscriptions && b.event.projectId != project
            then c.handed + [Event(tag, b.payload)] else c.handed
  {
  }

  /** Unsubscribing takes away this project and nothing else. */
  lemma {:induction false} UnsubscribeRemoves(c: Conn, project: int, q: int)
    ensures var c' := Unsubscribe(c, project);
            && (Receives(c', q) <==> Receives(c, q) && q != project)
            && c'.(subscriptions := c.subscriptions) == c
  {
  }

  /** A client enters the hub with the ready message, and without a subscription. */
  lemma {:induction false} RegisterGreets(q: int)
    ensures Register(NEW_CONN) == NEW_CONN.(registered := true, handed := [Ready]) && !Receives(Register(NEW_CONN), q)
  {
  }

  /** A client that has left receives nothing and is cancelled. */
  lemma {:induction false} RemoveEnds(c: Conn, b: Broadcast, tag: nat)
    ensures Remove(c).cancelled && !Remove(c).registered && Deliver(Remove(c), b, tag) == Remove(c)
    ensures Cancel(c) == c.(cancelled := true)
  {
  }

  /** A message other than an event goes to the end of a queue with room; otherwise it is the client that goes. */
  lemma {:induction false} OfferOrCancel(c: Conn, m: Msg)
    ensures if |c.handed| - c.written < 64 then Offer(c, m) == c.(handed := c.handed + [m])
            else Offer(c, m) == c.(cancelled := true)
    ensures if |c.handed| - c.written > 0 then Write(c) == c.(written := c.written + 1) else Write(c) == c
  {
  }

  lemma {:induction false} OtherStepsOk(c: Conn, calls: seq<Broadcast>, project: int)
    requires ConnOk(c, calls)
    ensures ConnOk(Unsubscribe(c, project), calls) && ConnOk(Write(c), calls)
    ensures ConnOk(Cancel(c), calls) && ConnOk(Remove(c), calls) && ConnOk(Drop(c), calls)
  {
    var w, u := Write(c), Unsubscribe(c, project);
    forall p | p in c.subscriptions && c.registered && !c.cancelled
      ensures Gapless(w, calls, p) || MissesLast(w, calls, p)
      ensures Gapless(u, calls, p) || MissesLast(u, calls, p)
    {
      assert Gapless(c, calls, p) || MissesLast(c, calls, p);
      if MissesLast(c, calls, p) { assert MissesLast(w, calls, p) && MissesLast(u, calls, p); }
    }
  }

  /** The first message a subscribed client does not get dooms it, and the same call cancels it. */
  lemma {:induction false} OmissionCancels(c: Conn, b: Broadcast, tag: nat)
    requires Receives(c, b.event.projectId) && !Doomed(c)
    ensures var c' := Deliver(c, b, tag);
            || (c'.handed == c.handed + [Event(tag, b.payload)] && Drop(c').cancelled == c.cancelled)
            || (c'.handed == c.handed && Drop(c').cancelled && QueueLength(c) >= CAPACITY)
  {
  }

  lemma {:induction false} DeliverHands(c: Conn, b: Broadcast, tag: nat)
    ensures Deliver(c, b, tag).handed == c.handed + [Event(tag, b.payload)] <==> Takes(c, b.event.projectId)
    ensures Drop(Deliver(c, b, tag)).handed == Deliver(c, b, tag).handed && !Doomed(Drop(Deliver(c, b, tag)))
    ensures Receives(c, b.event.projectId) && !Takes(c, b.event.projectId) ==> Drop(Deliver(c, b, tag)).cancelled
  {
  }

  /** Membership form of the same fact: each call for the project since the subscription was enqueued after it. */
  lemma {:induction false} BroadcastWasHanded(c: Conn, calls: seq<Broadcast>, project: int, j: nat)
    requires ConnOk(c, calls) && Receives(c, project) && !c.cancelled && !c.full
    requires c.since <= j < |calls| && calls[j].event.projectId == project
    ensures exists i :: c.mark <= i < |c.handed| && c.handed[i] == Event(j, calls[j].payload)
  {
    assert Gapless(c, calls, project);
    MatchingHas(calls, c.since, project, j);
    var k := TagAt(c.handed[c.mark..], j);
    assert c.handed[c.mark + k] == c.handed[c.mark..][k];
    assert MsgOk(c.handed[c.mark + k], calls);
  }

  lemma {:induction false} MatchingHas(calls: seq<Broadcast>, from: nat, project: int, j: nat)
    requires from <= j < |calls| && calls[j].event.projectId == project
    ensures j in Matching(calls, from, project)
  {
    if j < |calls| - 1 {
      MatchingHas(calls[..|calls| - 1], from, project, j);
    }
  }

  lemma {:induction false} MatchingFrom(calls: seq<Broadcast>, from: nat, project: int, j: nat)
    requires j in Matching(calls, from, project)
    ensures from <= j < |calls|
  {
    if j in Matching(calls[..|calls| - 1], from, project) {
      MatchingFrom(calls[..|calls| - 1], from, project, j);
    }
  }

  lemma {:induction false} TagsHave(msgs: seq<Msg>, k: nat)
    requires k < |msgs| && msgs[k].Event?
    ensures msgs[k].tag in Tags(msgs)
  {
    if k < |msgs| - 1 { TagsHave(msgs[..|msgs| - 1], k); }
  }

  lemma {:induction false} TagAt(msgs: seq<Msg>, j: nat) returns (k: nat)
    requires j in Tags(msgs)
    ensures k < |msgs| && msgs[k].Event? && msgs[k].tag == j
  {
    var last := |msgs| - 1;
    if msgs[last].Event? && msgs[last].tag == j {
      k := last;
    } else {
      k := TagAt(msgs[..last], j);
    }
  }

  // ---------- the hub object ----------

  class Client {
    var queue: seq<Msg>
    var subscriptions: set<int>
    var cancelled: bool
    ghost var since: nat
    ghost var mark: nat
    ghost var handed: seq<Msg>
    ghost var full: bool  // in the list of clients to be cancelled, or cancelled from it

    ghost predicate Valid()
      reads this
    {
      |queue| <= |handed| && queue == handed[|handed| - |queue|..]
    }

    /** The client as the protocol sees it. */
    ghost function View(registered: bool): Conn
      reads this
      requires Valid()
    {
      Conn(registered, cancelled, subscriptions, since, mark, handed, |handed| - |queue|, full)
    }

    constructor ()
      ensures Valid() && View(false) == NEW_CONN
    {
      queue, subscriptions, cancelled := [], {}, false;
      since, mark, handed, full := 0, 0, [], false;
    }

    /** select { case c.send <- m: default: }; reports whether the message was enqueued. */
    method TrySend(m: Msg) returns (sent: bool)
      requires Valid()
      modifies this
      ensures Valid() && sent == (|old(queue)| < 64)
      ensures queue == (if sent then old(queue) + [m] else old(queue))
      ensures cancelled == old(cancelled) && subscriptions == old(subscriptions)
      ensures forall r :: View(r) == if sent then old(View(true)).(registered := r, handed := old(handed) + [m])
                                     else old(View(true)).(registered := r)
    {
      sent := |queue| < CAPACITY;
      if sent {
        queue := queue + [m];
        handed := handed + [m];
      }
    }

    method SendJson(m: Msg)
      requires Valid()
      modifies this
      ensures Valid() && View(true) == Offer(old(View(true)), m)
      ensures if |old(queue)| < 64 then queue == old(queue) + [m] && cancelled == old(cancelled)
              else queue == old(queue) && cancelled
    {
      var sent := TrySend(m);
      if !sent { cancelled := true; }
    }

    /** writeLoop: the oldest queued message goes out. */
    method WriteOne() returns (m: Option<Msg>)
      requires Valid()
      modifies this
      ensures Valid() && View(true) == Write(old(View(true)))
      ensures old(queue) == (if m.Some? then [m.value] + queue else []) && (m.None? ==> queue == [])
      ensures handed == old(handed) && cancelled == old(cancelled) && subscriptions == old(subscriptions)
    {
      if queue == [] { return None; }
      m := Some(queue[0]);
      queue := queue[1..];
    }
  }

  class Hub {
    var clients: set<Client>

    ghost predicate Valid()
      reads this, clients
    {
      forall c :: c in clients ==> c.Valid()
    }

    constructor ()
      ensures clients == {} && Valid()
    {
      clients := {};
    }

    method Add(c: Client)
      requires Valid() && c.Valid()
      modifies this
      ensures clients == old(clients) + {c} && Valid()
    {
      clients := clients + {c};
    }

    method RemoveClient(c: Client)
      requires Valid() && c.Valid()
      modifies this, c
      ensures clients == old(clients) - {c} && c.Valid() && c.View(false) == Remove(old(c.View(true))) && Valid()
      ensures c.cancelled && c.queue == old(c.queue) && c.subscriptions == old(c.subscriptions)
    {
      c.cancelled := true;
      clients := clients - {c};
    }

    method SubscribeClient(c: Client, project: int, ghost calls: nat)
      requires c.Valid()
      modifies c
      ensures c.Valid() && c.View(true) == Subscribe(old(c.View(true)), project, calls)
      ensures c.subscriptions == {project} && c.queue == old(c.queue) && c.cancelled == old(c.cancelled)
      ensures if project in old(c.subscriptions) then c.since == old(c.since) && c.mark == old(c.mark)
              else c.since == calls && c.mark == |c.handed|
    {
      if project !in c.subscriptions {
        c.since, c.mark := calls, |c.handed|;
      }
      c.subscriptions := {project};
    }

    method UnsubscribeClient(c: Client, project: int)
      requires c.Valid()
      modifies c
      ensures c.Valid() && c.View(true) == Unsubscribe(old(c.View(true)), project)
      ensures c.subscriptions == old(c.subscriptions) - {project}
      ensures c.queue == old(c.queue) && c.cancelled == old(c.cancelled)
    {
      c.subscriptions := c.subscriptions - {project};
    }

    /** The subscribed clients with room in their queue. */
    ghost function Takers(project: int): set<Client>
      reads this, clients
      requires Valid()
    {
      set c | c in clients && project in c.subscriptions && |c.queue| < 64
    }

    /** How far the first loop of Broadcast has come with one client that was `was` before the call. */
    ghost predicate Progress(c: Client, was: Conn, b: Broadcast, tag: nat, todo: bool, dropped: bool, served: bool)
      reads c
      requires c.Valid()
    {
      if todo then c.View(true) == was && !dropped && !served
      else
        && served == Takes(was, b.event.projectId) && c.View(true) == Deliver(was, b, tag)
        && dropped == (Receives(was, b.event.projectId) && !served)
    }

    /** One pass of the first loop of Broadcast: skip a client that is not subscribed, else offer the payload. */
    method OfferOne(c: Client, b: Broadcast, tag: nat, ghost was: Conn) returns (sent: bool, full: bool)
      requires c.Valid() && Progress(c, was, b, tag, true, false, false)
      modifies c
      ensures c.Valid() && Progress(c, was, b, tag, false, full, sent)
    {
      if b.event.projectId !in c.subscriptions { return false, false; }
      sent := c.TrySend(Event(tag, b.payload));
      full := !sent;
      if full { c.full := true; }
    }

    lemma {:induction false} ProgressFacts(
      c: Client, was: Conn, b: Broadcast, tag: nat, todo: bool, dropped: bool, served: bool)
      requires c.Valid() && Progress(c, was, b, tag, todo, dropped, served)
      ensures todo ==> !dropped && !served
      ensures !todo ==> served == Takes(was, b.event.projectId)
      ensures !todo ==> c.View(true) == Deliver(was, b, tag)
      ensures !todo && !Doomed(was) ==> Drop(c.View(true)) == if dropped then Cancel(c.View(true)) else c.View(true)
    {
    }

    ghost predicate AllProgress(
      was: map<Client, Conn>, b: Broadcast, tag: nat, todo: set<Client>, dropped: set<Client>, served: set<Client>)
      reads this, clients
    {
      && clients <= was.Keys && todo <= clients && dropped <= clients && served <= clients
      && forall c :: c in clients ==> c.Valid() && Progress(c, was[c], b, tag, c in todo, c in dropped, c in served)
    }

    /** The loop body of the first loop of Broadcast. */
    method OfferNext(c: Client, b: Broadcast, tag: nat, ghost was: map<Client, Conn>,
                     ghost todo: set<Client>, ghost dropped: set<Client>, ghost served: set<Client>)
      returns (sent: bool, full: bool)
      requires c in todo && AllProgress(was, b, tag, todo, dropped, served)
      modifies c
      ensures c !in dropped && c !in served
      ensures AllProgress(was, b, tag, todo - {c},
                          if full then dropped + {c} else dropped, if sent then served + {c} else served)
    {
      hide Progress;
      ProgressFacts(c, was[c], b, tag, true, c in dropped, c in served);
      sent, full := OfferOne(c, b, tag, was[c]);
    }

    /** The first loop of Broadcast: offer the payload to every subscribed client, count those that took it and collect
        the full ones. */
    method OfferAll(b: Broadcast, tag: nat) returns (deliveries: nat, dropped: set<Client>)
      requires Valid()
      modifies clients
      ensures Valid() && dropped <= clients && deliveries == |old(Takers(b.event.projectId))|
      ensures forall c :: c in clients ==>
                Progress(c, old(c.View(true)), b, tag, false, c in dropped, c in old(Takers(b.event.projectId)))
    {
      deliveries, dropped := 0, {};
      ghost var was := map c | c in clients :: c.View(true);
      ghost var served: set<Client> := {};
      var todo := clients;
      while todo != {}
        invariant AllProgress(was, b, tag, todo, dropped, served)
        invariant deliveries == |served|
        decreases todo
      {
        var c: Client :| c in todo;
        assert c in clients;
        hide AllProgress;
        var sent, full := OfferNext(c, b, tag, was, todo, dropped, served);
        if sent { deliveries, served := deliveries + 1, served + {c}; }
        if full { dropped := dropped + {c}; }
        todo := todo - {c};
      }
      hide Progress;
      forall c | c in clients
        ensures c in served <==> c in old(Takers(b.event.projectId))
      {
        ProgressFacts(c, was[c], b, tag, false, c in dropped, c in served);
      }
      assert served == old(Takers(b.event.projectId));
    }

    /** The second loop: cancel the collected clients. */
    method CancelAll(dropped: set<Client>)
      requires forall c :: c in dropped ==> c.Valid()
      modifies dropped
      ensures forall c :: c in dropped ==> c.Valid() && c.View(true) == Cancel(old(c.View(true)))
    {
      var todo := dropped;
      while todo != {}
        invariant todo <= dropped
        invariant forall c :: c in dropped ==> c.Valid()
        invariant forall c :: c in todo ==> c.View(true) == old(c.View(true))
        invariant forall c :: c in dropped && c !in todo ==> c.View(true) == Cancel(old(c.View(true)))
        decreases todo
      {
        var c :| c in todo;
        c.cancelled := true;
        todo := todo - {c};
      }
    }

    /** Offer the payload to every subscribed client, then cancel those whose queue was full. When the call returns,
        each client has either the message or its cancellation, and the count is of those that have the message. */
    method BroadcastAll(b: Broadcast, tag: nat) returns (deliveries: nat)
      requires Valid() && forall c :: c in clients ==> !Doomed(c.View(true))
      modifies clients
      ensures Valid() && deliveries == |old(Takers(b.event.projectId))|
      ensures forall c :: c in clients ==>
                c.View(true) == Drop(Deliver(old(c.View(true)), b, tag)) && !Doomed(c.View(true))
      ensures forall c :: c in clients ==>
                (c in old(Takers(b.event.projectId)) <==> c.handed == old(c.handed) + [Event(tag, b.payload)])
      ensures forall c :: c in clients && b.event.projectId in old(c.subscriptions) && |old(c.queue)| >= 64 ==>
                c.cancelled
    {
      hide Deliver, Progress, Drop, Cancel;
      var dropped: set<Client>;
      deliveries, dropped := OfferAll(b, tag);
      forall c | c in clients
        ensures c.View(true) == Deliver(old(c.View(true)), b, tag)
        ensures Drop(c.View(true)) == (if c in dropped then Cancel(c.View(true)) else c.View(true))
      {
        ProgressFacts(c, old(c.View(true)), b, tag, false, c in dropped, c in old(Takers(b.event.projectId)));
      }
      CancelAll(dropped);
      forall c | c in clients
        ensures c in old(Takers(b.event.projectId)) <==> c.handed == old(c.handed) + [Event(tag, b.payload)]
        ensures !Doomed(c.View(true))
        ensures b.event.projectId in old(c.subscriptions) && |old(c.queue)| >= 64 ==> c.cancelled
      {
        DeliverHands(old(c.View(true)), b, tag);
      }
    }
  }
}
