/** When the tasks on the board determine how they are drawn: exactly when no two of a column were created in the same
    millisecond. Otherwise the order in which the page learned of them decides. */
module DrawnOrder {
  import opened Base
  import opened Events
  import opened Screens
  import B = BoardView

  /** The tasks of a project, by id. */
  ghost predicate IsTable(m: map<int, Task>, project: int) {
    forall t :: t in m ==> m[t].id == t && m[t].projectId == project
  }

  /** No two tasks of the status were created in the same millisecond. */
  ghost predicate NoTies(m: map<int, Task>, status: Status) {
    forall s, t :: s in m && t in m && s != t && m[s].status == status && m[t].status == status ==>
      B.CreatedMillis(m[s]) != B.CreatedMillis(m[t])
  }

  /** A response of the server: different tasks of the project, in order of creation. */
  ghost predicate IsListing(listing: seq<Task>, project: int) {
    && DistinctIds(listing)
    && (forall x :: x in listing ==> x.projectId == project)
    && forall i, j :: 0 <= i < j < |listing| ==> listing[i].createdAt <= listing[j].createdAt
  }

  ghost predicate DistinctIds(xs: seq<Task>) {
    forall i, j :: 0 <= i < j < |xs| ==> xs[i].id != xs[j].id
  }

  /** A view a page can have: a listing installed over whatever was there, then applyTask calls; it holds the table. */
  ghost predicate CanShow(v: B.View, project: int, m: map<int, Task>) {
    exists before: B.View, listing, xs ::
      && before.project == project && IsListing(listing, project)
      && v == B.ApplyTasks(B.Install(before, listing), xs) && v.tasks.byId == m
  }

  predicate SameColumn(v: B.View, w: B.View, status: Status) {
    status in v.columns && status in w.columns && v.columns[status] == w.columns[status]
  }

  /** The table determines a column, over all ways a page can have come to hold it, if and only if it has no ties. */
  lemma {:induction false} ColumnDeterminedIff(m: map<int, Task>, project: int, status: Status)
    requires IsTable(m, project) && status in B.STATUSES
    ensures NoTies(m, status)
       <==> forall v, w :: CanShow(v, project, m) && CanShow(w, project, m) ==> SameColumn(v, w, status)
  {
    if NoTies(m, status) {
      forall v, w | CanShow(v, project, m) && CanShow(w, project, m)
        ensures SameColumn(v, w, status)
      {
        NoTiesSameColumn(v, w, m, project, status);
      }
    } else {
      var s, t :| s in m && t in m && s != t && m[s].status == status && m[t].status == status
                  && B.CreatedMillis(m[s]) == B.CreatedMillis(m[t]);
      var v, w := TieTwoColumns(m, project, s, t);
    }
  }

  // ---------- without ties ----------

  lemma {:induction false} ShownIsDrawn(v: B.View, project: int, m: map<int, Task>, status: Status)
    requires CanShow(v, project, m) && status in B.STATUSES
    ensures B.WellFormed(v.tasks) && v.tasks.byId == m
    ensures status in v.columns && v.columns[status] == B.ColumnOf(v.tasks, status)
  {
    var before: B.View, listing, xs :|
      && before.project == project && IsListing(listing, project)
      && v == B.ApplyTasks(B.Install(before, listing), xs) && v.tasks.byId == m;
    hide B.ColumnOf, B.ApplyTask;
    B.InstallCurrent(before, listing);
    B.IncrementalEqualsFull(B.Install(before, listing), xs);
    B.IncrementalKeys(B.Install(before, listing), xs);
    RenderedColumn(v, status);
  }

  lemma {:induction false} ColumnMember(t: B.Tasks, status: Status, x: Task)
    requires B.WellFormed(t) && x in B.ColumnOf(t, status)
    ensures x.id in t.byId && t.byId[x.id] == x && x.status == status
  {
    ColumnHolds(t, status);
    hide B.ColumnOf;
    assert multiset(B.ColumnOf(t, status))[x] > 0;
  }

  lemma {:induction false} SameTableSameTasks(t: B.Tasks, u: B.Tasks, status: Status)
    requires B.WellFormed(t) && B.WellFormed(u) && t.byId == u.byId
    ensures multiset(B.ColumnOf(t, status)) == multiset(B.ColumnOf(u, status))
    ensures B.Sorted(B.ColumnOf(t, status)) && B.Sorted(B.ColumnOf(u, status))
  {
    ColumnHolds(t, status);
    ColumnHolds(u, status);
    hide B.ColumnOf, B.Sorted, B.WellFormed;
  }

  lemma {:induction false} NoTiesSameColumn(v: B.View, w: B.View, m: map<int, Task>, project: int, status: Status)
    requires CanShow(v, project, m) && CanShow(w, project, m) && NoTies(m, status) && status in B.STATUSES
    requires IsTable(m, project)
    ensures SameColumn(v, w, status)
  {
    ShownIsDrawn(v, project, m, status);
    ShownIsDrawn(w, project, m, status);
    hide CanShow, B.ColumnOf, B.WellFormed, B.Sorted;
    SameTableSameTasks(v.tasks, w.tasks, status);
    var xs := v.columns[status];
    forall x, y | x in xs && y in xs && B.CreatedMillis(x) == B.CreatedMillis(y)
      ensures x == y
    {
      ColumnMember(v.tasks, status, x);
      ColumnMember(v.tasks, status, y);
    }
    SortedUnique(xs, w.columns[status]);
  }

  // ---------- with a tie ----------

  lemma {:induction false} Pick<T>(ids: set<T>) returns (t: T)
    requires ids != {}
    ensures t in ids
  {
    t :| t in ids;
  }

  /** Any finite table can be enumerated. */
  lemma {:induction false} Enumerate(m: map<int, Task>, ids: set<int>) returns (xs: seq<Task>)
    requires ids == m.Keys && forall t :: t in m ==> m[t].id == t
    ensures Lists(xs, m) && DistinctIds(xs)
    decreases ids
  {
    if ids == {} {
      xs := [];
    } else {
      var t := Pick(ids);
      var less := m - {t};
      var rest := Enumerate(less, ids - {t});
      xs := rest + [m[t]];
      assert xs[|rest|] == m[t];
      forall s | s in m
        ensures m[s] in xs
      {
        if s in less { assert less[s] in rest; }
      }
    }
  }

  /** New tasks of the project are put in the map one after the other. */
  lemma {:induction false} ApplyNew(v: B.View, xs: seq<Task>)
    requires v.tasks == B.Tasks([], map[]) && DistinctIds(xs) && forall x :: x in xs ==> x.projectId == v.project
    ensures B.ApplyTasks(v, xs).tasks == B.FromListing(xs) && B.ApplyTasks(v, xs).project == v.project
    ensures forall t :: t in B.FromListing(xs).byId ==> exists i :: 0 <= i < |xs| && xs[i].id == t
  {
    if xs != [] {
      var front, last := xs[..|xs| - 1], xs[|xs| - 1];
      assert forall i :: 0 <= i < |front| ==> front[i] == xs[i];
      ApplyNew(v, front);
      hide B.ColumnOf;
      B.ApplyTaskShape(B.ApplyTasks(v, front), last);
    }
  }

  lemma {:induction false} ValuesPut(t: B.Tasks, x: Task)
    requires B.WellFormed(t) && x.id !in t.byId
    ensures B.Values(B.Put(t, x).order, B.Put(t, x).byId) == B.Values(t.order, t.byId) + [x]
  {
    assert x.id !in ToSet(t.order);
    assert B.Put(t, x).order[..|t.order|] == t.order;
    B.ValuesFrame(t.order, t.byId, x);
  }

  lemma {:induction false} ValuesOfTwoMore(rest: seq<Task>, a: Task, b: Task)
    requires a.id != b.id && a.id !in B.FromListing(rest).byId && b.id !in B.FromListing(rest).byId
    ensures var t, u := B.FromListing(rest), B.FromListing(rest + [a, b]);
            B.Values(u.order, u.byId) == B.Values(t.order, t.byId) + [a] + [b]
  {
    var t, xs := B.FromListing(rest), rest + [a, b];
    assert xs[..|xs| - 1] == rest + [a] && (rest + [a])[..|rest|] == rest;
    assert B.FromListing(xs) == B.Put(B.Put(t, a), b);
    B.FromListingWellFormed(rest);
    hide B.FromListing, B.Values;
    B.PutWellFormed(t, a);
    ValuesPut(t, a);
    ValuesPut(B.Put(t, a), b);
  }

  /** Two tasks of one column and one millisecond that come last keep their own order in the sorted column. */
  lemma {:induction false} TieIsKept(values: seq<Task>, a: Task, b: Task)
    requires a.status == b.status && B.CreatedMillis(a) == B.CreatedMillis(b)
    ensures var sorted, key := B.SortByCreated(B.WithStatus(values + [a] + [b], a.status)), B.CreatedMillis(a);
            B.WithKey(sorted, key) == B.WithKey(B.WithStatus(values, a.status), key) + [a] + [b]
  {
    hide B.SortByCreated, B.WithStatus, B.WithKey;
    var matching, key := B.WithStatus(values, a.status), B.CreatedMillis(a);
    B.WithStatusSnoc(values, a, a.status);
    B.WithStatusSnoc(values + [a], b, a.status);
    B.WithKeySnoc(matching, a, key);
    B.WithKeySnoc(matching + [a], b, key);
    B.SortIsStable(matching + [a] + [b]);
  }

  /** ... so the column of a page that learned of these two last ends this millisecond with them, in that order. */
  lemma {:induction false} TieAtTheEnd(rest: seq<Task>, a: Task, b: Task) returns (ks: seq<Task>)
    requires a.id != b.id && a.id !in B.FromListing(rest).byId && b.id !in B.FromListing(rest).byId
    requires a.status == b.status && B.CreatedMillis(a) == B.CreatedMillis(b)
    ensures B.WithKey(B.ColumnOf(B.FromListing(rest + [a, b]), a.status), B.CreatedMillis(a)) == ks + [a] + [b]
  {
    var t := B.FromListing(rest);
    ks := B.WithKey(B.WithStatus(B.Values(t.order, t.byId), a.status), B.CreatedMillis(a));
    ValuesOfTwoMore(rest, a, b);
    TieIsKept(B.Values(t.order, t.byId), a, b);
  }

  lemma {:induction false} DifferentEnds(ks: seq<Task>, ls: seq<Task>, a: Task, b: Task)
    requires a != b
    ensures ks + [a] + [b] != ls + [b] + [a]
  {
    var xs, ys := ks + [a] + [b], ls + [b] + [a];
    assert xs[|xs| - 1] == b && ys[|ys| - 1] == a;
  }

  /** The page learns of the rest in any order, and of the two last, one way or the other. */
  lemma {:induction false} TieTwoColumns(m: map<int, Task>, project: int, s: int, t: int) returns (v: B.View, w: B.View)
    requires IsTable(m, project) && s in m && t in m && s != t && m[s].status == m[t].status
    requires B.CreatedMillis(m[s]) == B.CreatedMillis(m[t])
    ensures CanShow(v, project, m) && CanShow(w, project, m) && !SameColumn(v, w, m[s].status)
  {
    var a, b := m[s], m[t];
    var less := m - {s, t};
    var rest := Enumerate(less, less.Keys);
    FromListingIs(rest, less);
    assert m - {b.id, a.id} == less == m - {a.id, b.id};
    hide CanShow, B.ColumnOf, B.WithKey, B.FromListing, Lists, DistinctIds;
    v := LearnedLast(m, project, rest, a, b);
    w := LearnedLast(m, project, rest, b, a);
    var ks := TieAtTheEnd(rest, a, b);
    var ls := TieAtTheEnd(rest, b, a);
    DifferentEnds(ks, ls, a, b);
  }

  lemma {:induction false} LearnedLast(m: map<int, Task>, project: int, rest: seq<Task>, a: Task, b: Task)
    returns (v: B.View)
    requires IsTable(m, project) && a.id in m && b.id in m && m[a.id] == a && m[b.id] == b && a.id != b.id
    requires Lists(rest, m - {a.id, b.id}) && DistinctIds(rest)
    ensures CanShow(v, project, m) && v.tasks == B.FromListing(rest + [a, b])
    ensures a.status in v.columns ==> v.columns[a.status] == B.ColumnOf(v.tasks, a.status)
  {
    var before := B.View(project, B.Tasks([], map[]), map[], []);
    var xs := rest + [a, b];
    ListsMore(m, rest, a, b);
    FromListingIs(xs, m);
    v := LearnedFromEvents(before, xs, m);
  }

  /** An empty project, and every task by an event. */
  lemma {:induction false} LearnedFromEvents(before: B.View, xs: seq<Task>, m: map<int, Task>) returns (v: B.View)
    requires DistinctIds(xs) && B.FromListing(xs).byId == m && forall x :: x in xs ==> x.projectId == before.project
    ensures CanShow(v, before.project, m) && v.tasks == B.FromListing(xs)
    ensures forall status :: status in v.columns ==> v.columns[status] == B.ColumnOf(v.tasks, status)
  {
    hide B.ColumnOf, B.ApplyTasks;
    var installed := B.Install(before, []);
    assert installed.tasks == B.Tasks([], map[]) && installed.project == before.project;
    ApplyNew(installed, xs);
    B.InstallCurrent(before, []);
    B.IncrementalEqualsFull(installed, xs);
    v := B.ApplyTasks(installed, xs);
    assert IsListing([], before.project);
  }

  lemma {:induction false} ListsMore(m: map<int, Task>, rest: seq<Task>, a: Task, b: Task)
    requires forall t :: t in m ==> m[t].id == t
    requires a.id in m && b.id in m && m[a.id] == a && m[b.id] == b && a.id != b.id
    requires Lists(rest, m - {a.id, b.id}) && DistinctIds(rest)
    ensures Lists(rest + [a, b], m) && DistinctIds(rest + [a, b])
  {
    var xs, less := rest + [a, b], m - {a.id, b.id};
    assert xs[|rest|] == a && xs[|rest| + 1] == b;
    assert forall i :: 0 <= i < |rest| ==> xs[i] == rest[i] && rest[i] in rest;
    forall t | t in m
      ensures m[t] in xs
    {
      if t in less { assert less[t] in rest; }
    }
  }
}
