/** From the page's map to what is drawn: at convergence every column is the project's rows of that status, sorted, and
    pages that saw the same things look the same. */
module Screens {
  import opened Base
  import opened Events
  import opened Pipeline
  import opened PipelineProof
  import opened Convergence
  import Merge
  import B = BoardView
  import W = Writers
  import R = RelayProtocol

  // ---------- the listing ----------

  /** The response body: the rows of the map in some order. */
  ghost predicate Lists(listing: seq<Task>, m: map<int, Task>) {
    && (forall x :: x in listing ==> x.id in m && m[x.id] == x)
    && (forall t :: t in m ==> m[t] in listing && m[t].id == t)
  }

  /** The map the page builds from a listing of a task map is that map. */
  lemma {:induction false} FromListingIs(listing: seq<Task>, m: map<int, Task>)
    requires Lists(listing, m)
    ensures B.FromListing(listing).byId == m
  {
    ListedIds(listing, m);
    var got := B.FromListing(listing).byId;
    hide B.FromListing;
    assert forall t :: t in got ==> t in m && got[t] == m[t];
    assert forall t :: t in m ==> m[t] in listing && t in got;
  }

  lemma {:induction false} ListedIds(listing: seq<Task>, m: map<int, Task>)
    requires forall x :: x in listing ==> x.id in m && m[x.id] == x
    ensures var got := B.FromListing(listing).byId;
            && (forall t :: t in got ==> t in m && got[t] == m[t])
            && (forall x :: x in listing ==> x.id in got)
  {
    if listing != [] {
      var front, last := listing[..|listing| - 1], listing[|listing| - 1];
      assert listing == front + [last];
      ListedIds(front, m);
    }
  }

  // ---------- what is in a column ----------

  lemma {:induction false} InsertCounts(sorted: seq<Task>, x: Task)
    ensures multiset(B.InsertByCreated(sorted, x)) == multiset(sorted) + multiset{x}
  {
    if sorted != [] {
      var front, last := sorted[..|sorted| - 1], sorted[|sorted| - 1];
      assert sorted == front + [last];
      InsertCounts(front, x);
    }
  }

  lemma {:induction false} SortCounts(xs: seq<Task>)
    ensures multiset(B.SortByCreated(xs)) == multiset(xs)
  {
    if xs != [] {
      var front, last := xs[..|xs| - 1], xs[|xs| - 1];
      assert xs == front + [last];
      SortCounts(front);
      InsertCounts(B.SortByCreated(front), last);
    }
  }

  lemma {:induction false} FilterCounts(xs: seq<Task>, status: Status, x: Task)
    ensures multiset(B.WithStatus(xs, status))[x] == if x.status == status then multiset(xs)[x] else 0
  {
    if xs != [] {
      var front, last := xs[..|xs| - 1], xs[|xs| - 1];
      assert xs == front + [last];
      FilterCounts(front, status, x);
    }
  }

  /** Going through the map meets each entry once. */
  lemma {:induction false} ValuesCounts(order: seq<int>, byId: map<int, Task>, x: Task)
    requires NoDup(order) && forall t :: t in byId ==> byId[t].id == t
    ensures multiset(B.Values(order, byId))[x] == if x.id in order && x.id in byId && byId[x.id] == x then 1 else 0
  {
    if order != [] {
      var front, last := order[..|order| - 1], order[|order| - 1];
      assert order == front + [last] && last !in front;
      ValuesCounts(front, byId, x);
    }
  }

  /** A column is sorted by creation and holds exactly the map's tasks of its status, each once. */
  lemma {:induction false} ColumnHolds(t: B.Tasks, status: Status)
    requires B.WellFormed(t)
    ensures B.Sorted(B.ColumnOf(t, status)) && B.OldestFirst(B.ColumnOf(t, status))
    ensures B.TiesByInsertion(t, B.ColumnOf(t, status))
    ensures forall x :: multiset(B.ColumnOf(t, status))[x]
                        == if x.id in t.byId && t.byId[x.id] == x && x.status == status then 1 else 0
  {
    var values := B.Values(t.order, t.byId);
    B.SortIsStable(B.WithStatus(values, status));
    B.ColumnOrder(t, status);
    hide B.OldestFirst, B.TiesByInsertion;
    SortCounts(B.WithStatus(values, status));
    forall x
      ensures multiset(B.ColumnOf(t, status))[x]
              == if x.id in t.byId && t.byId[x.id] == x && x.status == status then 1 else 0
    {
      FilterCounts(values, status, x);
      ValuesCounts(t.order, t.byId, x);
      assert x.id in t.byId <==> x.id in ToSet(t.order);
    }
  }

  // ---------- the page's view ----------

  /** What the page shows after its last install: the snapshot's listing drawn over whatever was there, then every task
      applied since. */
  function ViewOf(b: Browser, listing: seq<Task>, before: B.View): B.View {
    B.ApplyTasks(B.Install(before, listing), b.applied)
  }

  /** The drawn view and the page's map agree. */
  lemma {:induction false} ViewIsPage(p: R.Params, s: System, i: nat, listing: seq<Task>, before: B.View)
    requires Inv(p, s) && i in s.browsers && s.browsers[i].loaded.Some?
    requires before.project == s.browsers[i].project && Lists(listing, s.browsers[i].loaded.value.reply.tasks)
    ensures var v := ViewOf(s.browsers[i], listing, before);
            B.Current(v) && v.tasks.byId == s.browsers[i].tasks && v == B.RenderBoard(v)
  {
    hide BackInv, B.Current, B.ColumnOf, B.ApplyTask;
    var b := s.browsers[i];
    assert LoadedOk(s.db.history, s.consumer.broadcasts, b);
    FromListingIs(listing, b.loaded.value.reply.tasks);
    B.InstallCurrent(before, listing);
    B.IncrementalEqualsFull(B.Install(before, listing), b.applied);
    B.IncrementalKeys(B.Install(before, listing), b.applied);
  }

  /** x is the database row of a task of the project, with this status. */
  predicate IsRow(s: System, project: int, status: Status, x: Task) {
    x.id in s.db.tasks && s.db.tasks[x.id] == x && x.projectId == project && x.status == status
  }

  /** The column shows exactly the project's rows of this status, each once, by creation time. */
  ghost predicate ShowsRows(s: System, project: int, status: Status, column: seq<Task>) {
    && B.Sorted(column)
    && (forall i, j :: 0 <= i < j < |column| ==> column[i].createdAt / 1_000_000 <= column[j].createdAt / 1_000_000)
    && forall x :: multiset(column)[x] == if IsRow(s, project, status, x) then 1 else 0
  }

  lemma {:induction false} RenderedColumn(v: B.View, status: Status)
    requires v == B.RenderBoard(v) && status in B.STATUSES
    ensures status in v.columns && v.columns[status] == B.ColumnOf(v.tasks, status)
  {
    hide B.ColumnOf;
  }

  /** A drawn view whose map is the project's part of the table shows its rows. */
  lemma {:induction false} ViewShowsRows(s: System, project: int, v: B.View, status: Status)
    requires B.WellFormed(v.tasks) && v.tasks.byId == TasksOf(s.db.tasks, project)
    requires v == B.RenderBoard(v) && status in B.STATUSES
    ensures status in v.columns && ShowsRows(s, project, status, v.columns[status])
  {
    hide B.ColumnOf, B.Sorted, B.RenderBoard, B.WellFormed;
    RenderedColumn(v, status);
    ColumnHolds(v.tasks, status);
    forall x: Task
      ensures x.id in v.tasks.byId && v.tasks.byId[x.id] == x && x.status == status <==> IsRow(s, project, status, x)
    {
    }
  }

  /** End to end: in every run, at every point, a loaded page to which every task of its project has arrived has on
      screen exactly the database rows of each status, in order of creation. */
  lemma {:induction false} ScreenConverges(
    p: R.Params, states: seq<System>, steps: seq<Step>, k: nat, i: nat, listing: seq<Task>, before: B.View,
    status: Status)
    requires IsRun(p, states, steps) && k < |states| && status in B.STATUSES
    requires i in states[k].browsers && states[k].browsers[i].loaded.Some?
    requires forall t :: OnBoard(states[k], i, t) ==> Arrived(states[k], i, t)
    requires before.project == states[k].browsers[i].project
    requires Lists(listing, states[k].browsers[i].loaded.value.reply.tasks)
    ensures var v := ViewOf(states[k].browsers[i], listing, before);
            status in v.columns && ShowsRows(states[k], states[k].browsers[i].project, status, v.columns[status])
  {
    EveryRunShows(p, states, steps, k, i);
    RunInv(p, states, steps, k);
    var b := states[k].browsers[i];
    hide IsRun, Inv, Arrived, OnBoard, ViewOf, B.RenderBoard, ShowsRows;
    ViewIsPage(p, states[k], i, listing, before);
    ViewShowsRows(states[k], b.project, ViewOf(b, listing, before), status);
  }

  /** ... and displays the number of the project's tasks if and only if the count was the snapshot's size at the
      install. */
  lemma {:induction false} CountConverges(
    p: R.Params, states: seq<System>, steps: seq<Step>, k: nat, i: nat, listing: seq<Task>, before: B.View)
    requires IsRun(p, states, steps) && k < |states|
    requires i in states[k].browsers && states[k].browsers[i].loaded.Some?
    requires forall t :: OnBoard(states[k], i, t) ==> Arrived(states[k], i, t)
    requires before.project == states[k].browsers[i].project
    requires Lists(listing, states[k].browsers[i].loaded.value.reply.tasks)
    requires B.CountOf(before.projects, before.project).Some? && B.CountOf(before.projects, before.project).value >= 0
    ensures var b := states[k].browsers[i];
            var shown := B.CountOf(ViewOf(b, listing, before).projects, b.project);
            shown == Some(|TasksOf(states[k].db.tasks, b.project)|)
            <==> B.CountOf(before.projects, b.project) == Some(|b.loaded.value.reply.tasks|)
  {
    hide Inv, Arrived, OnBoard, ViewOf, B.CountOf, Lists, TasksOf;
    EveryRunShows(p, states, steps, k, i);
    RunInv(p, states, steps, k);
    hide IsRun;
    CountOfPage(p, states[k], i, listing, before);
  }

  /** The displayed count of a loaded page, on any board. */
  lemma {:induction false} CountOfPage(p: R.Params, s: System, i: nat, listing: seq<Task>, before: B.View)
    requires Inv(p, s) && i in s.browsers && s.browsers[i].loaded.Some? && before.project == s.browsers[i].project
    requires Lists(listing, s.browsers[i].loaded.value.reply.tasks)
    requires B.CountOf(before.projects, before.project).Some? && B.CountOf(before.projects, before.project).value >= 0
    ensures var b := s.browsers[i];
            B.CountOf(ViewOf(b, listing, before).projects, b.project)
              == Some(B.CountOf(before.projects, b.project).value + |b.tasks| - |b.loaded.value.reply.tasks|)
  {
    hide Inv, Lists, B.CountOf, B.ApplyTasks, B.Install, B.FromListing, B.RenderBoard, B.Current;
    ViewIsPage(p, s, i, listing, before);
    FromListingIs(listing, s.browsers[i].loaded.value.reply.tasks);
    CountFromInstall(listing, before, s.browsers[i].applied);
  }

  lemma {:induction false} CountFromInstall(listing: seq<Task>, before: B.View, applied: seq<Task>)
    requires B.CountOf(before.projects, before.project).Some? && B.CountOf(before.projects, before.project).value >= 0
    ensures var v := B.ApplyTasks(B.Install(before, listing), applied);
            B.CountOf(v.projects, before.project)
              == Some(B.CountOf(before.projects, before.project).value + |v.tasks.byId| - |B.FromListing(listing).byId|)
  {
    hide B.ApplyTasks, B.Install, B.Current;
    InstallKeepsCounts(before, listing);
    B.CountConservation(B.Install(before, listing), applied);
  }

  lemma {:induction false} InstallKeepsCounts(v: B.View, listing: seq<Task>)
    ensures var w := B.Install(v, listing);
            B.Current(w) && w.project == v.project && w.projects == v.projects && w.tasks == B.FromListing(listing)
  {
    hide B.ColumnOf;
    B.InstallCurrent(v, listing);
  }

  lemma {:induction false} SortedLast(xs: seq<Task>, z: Task)
    requires B.Sorted(xs) && z in xs
    ensures B.CreatedMillis(z) <= B.CreatedMillis(xs[|xs| - 1])
  {
  }

  lemma {:induction false} FrontCounts(xs: seq<Task>)
    requires xs != []
    ensures multiset(xs[..|xs| - 1]) == multiset(xs) - multiset{xs[|xs| - 1]}
    ensures forall x :: x in xs[..|xs| - 1] ==> x in xs
  {
    assert xs == xs[..|xs| - 1] + [xs[|xs| - 1]];
  }

  lemma {:induction false} SameMembers(xs: seq<Task>, ys: seq<Task>)
    requires multiset(xs) == multiset(ys)
    ensures |xs| == |ys| && forall x :: x in xs <==> x in ys
  {
    assert |multiset(xs)| == |xs| && |multiset(ys)| == |ys|;
    assert forall x :: x in xs <==> x in multiset(xs);
    assert forall x :: x in ys <==> x in multiset(ys);
  }

  /** Sorted columns with the same tasks are equal if no two of them were created in the same millisecond. */
  lemma {:induction false} SortedUnique(xs: seq<Task>, ys: seq<Task>)
    requires B.Sorted(xs) && B.Sorted(ys) && multiset(xs) == multiset(ys)
    requires forall a, b :: a in xs && b in xs && B.CreatedMillis(a) == B.CreatedMillis(b) ==> a == b
    ensures xs == ys
  {
    SameMembers(xs, ys);
    if xs != [] {
      var x, y := xs[|xs| - 1], ys[|ys| - 1];
      SortedLast(ys, x);
      SortedLast(xs, y);
      assert x == y;
      FrontCounts(xs);
      FrontCounts(ys);
      SortedUnique(xs[..|xs| - 1], ys[..|ys| - 1]);
      assert xs == xs[..|xs| - 1] + [x] && ys == ys[..|ys| - 1] + [y];
    }
  }

  /** Two screens of a project that show exactly its rows draw the same columns, whatever order the events took, if no
      two of its tasks were created in the same millisecond. */
  lemma {:induction false} ScreensAgree(s: System, project: int, status: Status, xs: seq<Task>, ys: seq<Task>)
    requires ShowsRows(s, project, status, xs) && ShowsRows(s, project, status, ys)
    requires forall a, b :: IsRow(s, project, status, a) && IsRow(s, project, status, b) && a != b ==>
               B.CreatedMillis(a) != B.CreatedMillis(b)
    ensures xs == ys
  {
    assert forall x :: x in xs ==> multiset(xs)[x] == 1;
    assert multiset(xs) == multiset(ys);
    SortedUnique(xs, ys);
  }

  // ---------- pages that saw the same things ----------

  /** Committed tasks with the same id and version are the same. */
  lemma {:induction false} CommittedIsCoherent(history: map<int, seq<W.Revision>>, m: map<int, Task>, xs: set<Task>)
    requires forall x :: x in xs ==> Committed(history, x)
    requires forall t :: t in m ==> m[t].id == t && Committed(history, m[t])
    ensures Merge.Coherent(m, xs)
  {
    forall x, y | Committed(history, x) && Committed(history, y) && x.id == y.id && x.version == y.version
      ensures x == y
    {
      W.RevisionsCoherent(history, x, y, history[x.id][x.version - 1].outbox, history[y.id][y.version - 1].outbox);
    }
  }

  /** Two pages of a run, or one page at two points, that hold the same snapshot of the same project and have been
      handed the same set of tasks since hold the same map, whatever the order and the repetitions. */
  lemma {:induction false} SameEventsSamePage(
    p: R.Params, states: seq<System>, steps: seq<Step>, k1: nat, i1: nat, k2: nat, i2: nat)
    requires IsRun(p, states, steps) && k1 < |states| && k2 < |states|
    requires i1 in states[k1].browsers && i2 in states[k2].browsers
    requires states[k1].browsers[i1].loaded.Some? && states[k2].browsers[i2].loaded.Some?
    requires states[k1].browsers[i1].project == states[k2].browsers[i2].project
    requires states[k1].browsers[i1].loaded.value.reply.tasks == states[k2].browsers[i2].loaded.value.reply.tasks
    requires ToSet(states[k1].browsers[i1].applied) == ToSet(states[k2].browsers[i2].applied)
    ensures states[k1].browsers[i1].tasks == states[k2].browsers[i2].tasks
  {
    RunInv(p, states, steps, k1);
    RunInv(p, states, steps, k2);
    hide IsRun, BackInv;
    var b1, b2, history := states[k1].browsers[i1], states[k2].browsers[i2], states[k2].db.history;
    assert LoadedOk(states[k1].db.history, states[k1].consumer.broadcasts, b1);
    assert LoadedOk(history, states[k2].consumer.broadcasts, b2);
    hide Inv;
    var m := b2.loaded.value.reply.tasks;
    assert forall x :: x in ToSet(b2.applied) ==> x in b2.applied;
    CommittedIsCoherent(history, m, ToSet(b2.applied));
    Merge.OrderAndRepetitionDoNotMatter(b1.project, m, b1.applied, b2.applied);
  }
}
