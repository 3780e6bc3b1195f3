/** The browser's board of internal/app/web/app.js: the insertion-ordered task map, the rendered columns that
    applyTask keeps up to date one or two at a time, and the displayed task counts. */
module BoardView {
  import opened Base
  import opened Events
  import Merge

  /** A JavaScript Map from task id to task. */
  datatype Tasks = Tasks(order: seq<int>, byId: map<int, Task>)

  datatype Entry = Entry(id: int, count: int)

  /** `project` is 0 while none is selected; `columns` is empty while no board is drawn. */
  datatype View = View(project: int, tasks: Tasks, columns: map<Status, seq<Task>>, projects: seq<Entry>)

  const STATUSES: seq<Status> := [Todo, InProgress, Done]

  /** Every status the server accepts has a column, and no other. */
  lemma {:induction false} StatusesHaveColumns(s: Status)
    ensures ValidStatus(s) <==> s in STATUSES
  {
  }

  // ---------- the task map ----------

  ghost predicate WellFormed(t: Tasks) {
    && NoDup(t.order) && ToSet(t.order) == t.byId.Keys
    && forall id :: id in t.byId ==> t.byId[id].id == id
  }

  /** Map.set keeps the place of an existing key and appends a new one. */
  function Put(t: Tasks, x: Task): Tasks {
    Tasks(if x.id in t.byId then t.order else t.order + [x.id], t.byId[x.id := x])
  }

  function Values(order: seq<int>, byId: map<int, Task>): seq<Task> {
    if order == [] then []
    else
      var last := order[|order| - 1];
      var front := Values(order[..|order| - 1], byId);
      if last in byId then front + [byId[last]] else front
  }

  /** new Map(listing.map(task => [task.id, task])) */
  function FromListing(listing: seq<Task>): Tasks {
    if listing == [] then Tasks([], map[])
    else Put(FromListing(listing[..|listing| - 1]), listing[|listing| - 1])
  }

  lemma {:induction false} PutWellFormed(t: Tasks, x: Task)
    requires WellFormed(t)
    ensures WellFormed(Put(t, x))
  {
    if x.id !in t.byId {
      assert x.id !in ToSet(t.order);
      ToSetSnoc(t.order, x.id);
    }
  }

  /** Setting a task keeps the place of every key; a new one goes to the end. */
  lemma {:induction false} PutKeepsPlaces(t: Tasks, x: Task)
    ensures Put(t, x).byId == t.byId[x.id := x]
    ensures x.id in t.byId ==> Put(t, x).order == t.order
    ensures x.id !in t.byId ==> Put(t, x).order == t.order + [x.id]
  {
  }

  /** Exactly the listed ids, each with a listed task. */
  lemma {:induction false} FromListingMembers(listing: seq<Task>)
    ensures forall x :: x in listing ==> x.id in FromListing(listing).byId
    ensures forall t :: t in FromListing(listing).byId ==> FromListing(listing).byId[t] in listing
  {
    if listing != [] {
      var front, last := listing[..|listing| - 1], listing[|listing| - 1];
      assert listing == front + [last];
      FromListingMembers(front);
    }
  }

  /** A map built from a listing without repetition has its order. */
  lemma {:induction false} FromListingOrder(listing: seq<Task>)
    requires forall i, j :: 0 <= i < j < |listing| ==> listing[i].id != listing[j].id
    ensures |FromListing(listing).order| == |listing|
    ensures forall i :: 0 <= i < |listing| ==> FromListing(listing).order[i] == listing[i].id
    ensures forall t :: t in FromListing(listing).byId ==> exists i :: 0 <= i < |listing| && listing[i].id == t
  {
    if listing != [] {
      var front := listing[..|listing| - 1];
      FromListingOrder(front);
      assert forall i :: 0 <= i < |front| ==> front[i] == listing[i];
    }
  }

  lemma {:induction false} FromListingWellFormed(listing: seq<Task>)
    ensures WellFormed(FromListing(listing))
  {
    if listing != [] {
      FromListingWellFormed(listing[..|listing| - 1]);
      PutWellFormed(FromListing(listing[..|listing| - 1]), listing[|listing| - 1]);
    }
  }

  // ---------- columns ----------

  function WithStatus(xs: seq<Task>, status: Status): seq<Task> {
    if xs == [] then []
    else
      var last := xs[|xs| - 1];
      var front := WithStatus(xs[..|xs| - 1], status);
      if last.status == status then front + [last] else front
  }

  /** Date values have millisecond resolution. */
  function CreatedMillis(t: Task): int {
    t.createdAt / 1_000_000
  }

  function InsertByCreated(sorted: seq<Task>, x: Task): seq<Task> {
    if sorted == [] then [x]
    else
      var last := sorted[|sorted| - 1];
      if CreatedMillis(last) <= CreatedMillis(x) then sorted + [x]
      else InsertByCreated(sorted[..|sorted| - 1], x) + [last]
  }

  function SortByCreated(xs: seq<Task>): seq<Task> {
    if xs == [] then [] else InsertByCreated(SortByCreated(xs[..|xs| - 1]), xs[|xs| - 1])
  }

  /** What renderColumn draws: the tasks of one status, stably sorted by creation over the map's insertion order. */
  function ColumnOf(t: Tasks, status: Status): seq<Task> {
    SortByCreated(WithStatus(Values(t.order, t.byId), status))
  }

  // ---------- the sort is the stable sort ----------

  ghost predicate Sorted(xs: seq<Task>) {
    forall i, j :: 0 <= i < j < |xs| ==> CreatedMillis(xs[i]) <= CreatedMillis(xs[j])
  }

  ghost function WithKey(xs: seq<Task>, key: int): seq<Task> {
    if xs == [] then []
    else
      var last := xs[|xs| - 1];
      var front := WithKey(xs[..|xs| - 1], key);
      if CreatedMillis(last) == key then front + [last] else front
  }

  /** ys is xs sorted, and tasks with equal keys keep their order. */
  ghost predicate StablySorted(xs: seq<Task>, ys: seq<Task>) {
    Sorted(ys) && forall key :: WithKey(ys, key) == WithKey(xs, key)
  }

  lemma {:induction false} WithKeySnoc(xs: seq<Task>, x: Task, key: int)
    ensures WithKey(xs + [x], key) == if CreatedMillis(x) == key then WithKey(xs, key) + [x] else WithKey(xs, key)
  {
    assert (xs + [x])[..|xs|] == xs;
  }

  lemma {:induction false} WithKeyAbove(xs: seq<Task>, key: int)
    requires forall i :: 0 <= i < |xs| ==> CreatedMillis(xs[i]) < key
    ensures WithKey(xs, key) == []
  {
    if xs != [] { WithKeyAbove(xs[..|xs| - 1], key); }
  }

  lemma {:induction false} InsertSorted(sorted: seq<Task>, x: Task)
    requires Sorted(sorted)
    ensures Sorted(InsertByCreated(sorted, x)) && |InsertByCreated(sorted, x)| == |sorted| + 1
    ensures forall i :: 0 <= i <= |sorted| ==>
        InsertByCreated(sorted, x)[i] == x || InsertByCreated(sorted, x)[i] in sorted
  {
    if sorted != [] && CreatedMillis(sorted[|sorted| - 1]) > CreatedMillis(x) {
      InsertSorted(sorted[..|sorted| - 1], x);
    }
  }

  lemma {:induction false} InsertKeys(sorted: seq<Task>, x: Task, key: int)
    requires Sorted(sorted)
    ensures WithKey(InsertByCreated(sorted, x), key)
              == if CreatedMillis(x) == key then WithKey(sorted, key) + [x] else WithKey(sorted, key)
  {
    if sorted == [] || CreatedMillis(sorted[|sorted| - 1]) <= CreatedMillis(x) {
      WithKeySnoc(sorted, x, key);
    } else {
      var front, last := sorted[..|sorted| - 1], sorted[|sorted| - 1];
      InsertKeys(front, x, key);
      WithKeySnoc(InsertByCreated(front, x), last, key);
    }
  }

  lemma {:induction false} SortIsStable(xs: seq<Task>)
    ensures StablySorted(xs, SortByCreated(xs))
  {
    if xs != [] {
      var front, last := xs[..|xs| - 1], xs[|xs| - 1];
      SortIsStable(front);
      InsertSorted(SortByCreated(front), last);
      forall key
        ensures WithKey(SortByCreated(xs), key) == WithKey(xs, key)
      {
        InsertKeys(SortByCreated(front), last, key);
      }
    }
  }

  /** There is only one stable sort, so any correct Array.prototype.sort draws the same column. */
  lemma {:induction false} StableSortUnique(xs: seq<Task>, ys: seq<Task>, zs: seq<Task>)
    requires StablySorted(xs, ys) && StablySorted(xs, zs)
    ensures ys == zs
  {
    SameKeysSameOrder(ys, zs);
  }

  lemma {:induction false} SameKeysSameOrder(ys: seq<Task>, zs: seq<Task>)
    requires Sorted(ys) && Sorted(zs) && forall key :: WithKey(ys, key) == WithKey(zs, key)
    ensures ys == zs
  {
    if ys == [] || zs == [] {
      LastKeyBound(ys, zs);
      LastKeyBound(zs, ys);
    } else {
      var ys', zs' := ys[..|ys| - 1], zs[..|zs| - 1];
      SameLast(ys, zs);
      var y := ys[|ys| - 1];
      assert ys == ys' + [y] && zs == zs' + [y];
      forall key
        ensures WithKey(ys', key) == WithKey(zs', key)
      {
        assert WithKey(ys, key) == WithKey(zs, key);
        WithKeySnoc(ys', y, key);
        WithKeySnoc(zs', y, key);
        if CreatedMillis(y) == key {
          assert (WithKey(ys', key) + [y])[..|WithKey(ys', key)|] == WithKey(ys', key);
          assert (WithKey(zs', key) + [y])[..|WithKey(zs', key)|] == WithKey(zs', key);
        }
      }
      SameKeysSameOrder(ys', zs');
    }
  }

  lemma {:induction false} SameLast(ys: seq<Task>, zs: seq<Task>)
    requires Sorted(ys) && Sorted(zs) && ys != [] && zs != []
    requires forall key :: WithKey(ys, key) == WithKey(zs, key)
    ensures ys[|ys| - 1] == zs[|zs| - 1]
  {
    LastKeyBound(ys, zs);
    LastKeyBound(zs, ys);
    var y, z := ys[|ys| - 1], zs[|zs| - 1];
    var key := CreatedMillis(y);
    assert WithKey(ys, key)[|WithKey(ys, key)| - 1] == y && WithKey(zs, key)[|WithKey(zs, key)| - 1] == z;
  }

  lemma {:induction false} LastKeyBound(ys: seq<Task>, zs: seq<Task>)
    requires Sorted(zs) && forall key :: WithKey(ys, key) == WithKey(zs, key)
    ensures ys != [] ==> zs != [] && CreatedMillis(ys[|ys| - 1]) <= CreatedMillis(zs[|zs| - 1])
  {
    if ys != [] {
      var key := CreatedMillis(ys[|ys| - 1]);
      assert WithKey(ys, key) != [];
      if zs == [] || CreatedMillis(zs[|zs| - 1]) < key {
        WithKeyAbove(zs, key);
      }
    }
  }

  // ---------- the order of a column, in the tasks' own terms ----------

  ghost predicate Precedes<T(!new)>(xs: seq<T>, a: T, b: T) {
    exists p, q :: 0 <= p < q < |xs| && xs[p] == a && xs[q] == b
  }

  /** By creation, oldest first, to the millisecond. */
  ghost predicate OldestFirst(xs: seq<Task>) {
    forall i, j :: 0 <= i < j < |xs| ==> xs[i].createdAt / 1_000_000 <= xs[j].createdAt / 1_000_000
  }

  /** Tasks of one millisecond are in ys as they are in xs. */
  ghost predicate TiesInOrder(xs: seq<Task>, ys: seq<Task>) {
    forall i, j :: 0 <= i < j < |ys| && ys[i].createdAt / 1_000_000 == ys[j].createdAt / 1_000_000 ==>
      Precedes(xs, ys[i], ys[j])
  }

  lemma {:induction false} PrecedesMore<T(!new)>(xs: seq<T>, x: T, a: T, b: T)
    requires Precedes(xs, a, b) || (a in xs && b == x)
    ensures Precedes(xs + [x], a, b)
  {
    var more := xs + [x];
    if Precedes(xs, a, b) {
      var p, q :| 0 <= p < q < |xs| && xs[p] == a && xs[q] == b;
      assert more[p] == a && more[q] == b;
    } else {
      var p :| 0 <= p < |xs| && xs[p] == a;
      assert more[p] == a && more[|xs|] == b;
    }
  }

  /** A new element goes behind all that are not younger, and before all that are. */
  lemma {:induction false} InsertPlace(sorted: seq<Task>, x: Task) returns (k: nat)
    requires OldestFirst(sorted)
    ensures k <= |sorted| && InsertByCreated(sorted, x) == sorted[..k] + [x] + sorted[k..]
    ensures forall i :: 0 <= i < k ==> sorted[i].createdAt / 1_000_000 <= x.createdAt / 1_000_000
    ensures forall i :: k <= i < |sorted| ==> x.createdAt / 1_000_000 < sorted[i].createdAt / 1_000_000
  {
    var n := |sorted|;
    if n == 0 || sorted[n - 1].createdAt / 1_000_000 <= x.createdAt / 1_000_000 {
      k := n;
      assert sorted[..n] == sorted && sorted[n..] == [];
    } else {
      k := InsertPlace(sorted[..n - 1], x);
      assert sorted[..n - 1][..k] == sorted[..k] && sorted[..n - 1][k..] + [sorted[n - 1]] == sorted[k..];
    }
  }

  lemma {:induction false} SortOrder(xs: seq<Task>)
    ensures OldestFirst(SortByCreated(xs)) && TiesInOrder(xs, SortByCreated(xs))
    ensures forall y :: y in SortByCreated(xs) ==> y in xs
  {
    if xs != [] {
      var front, x := xs[..|xs| - 1], xs[|xs| - 1];
      SortOrder(front);
      var k := InsertPlace(SortByCreated(front), x);
      assert xs == front + [x];
      InsertOrder(front, SortByCreated(front), x, k, SortByCreated(xs));
    }
  }

  lemma {:induction false} InsertOrder(front: seq<Task>, sorted: seq<Task>, x: Task, k: nat, ys: seq<Task>)
    requires OldestFirst(sorted) && TiesInOrder(front, sorted) && forall y :: y in sorted ==> y in front
    requires k <= |sorted| && ys == sorted[..k] + [x] + sorted[k..]
    requires forall i :: 0 <= i < k ==> sorted[i].createdAt / 1_000_000 <= x.createdAt / 1_000_000
    requires forall i :: k <= i < |sorted| ==> x.createdAt / 1_000_000 < sorted[i].createdAt / 1_000_000
    ensures OldestFirst(ys) && TiesInOrder(front + [x], ys) && forall y :: y in ys ==> y in front + [x]
  {
    forall i, j | 0 <= i < j < |ys| && ys[i].createdAt / 1_000_000 == ys[j].createdAt / 1_000_000
      ensures Precedes(front + [x], ys[i], ys[j])
    {
      if j != k { assert Precedes(front, ys[i], ys[j]); }
      PrecedesMore(front, x, ys[i], ys[j]);
    }
  }

  lemma {:induction false} FilterOrder(xs: seq<Task>, status: Status, a: Task, b: Task)
    requires Precedes(WithStatus(xs, status), a, b)
    ensures Precedes(xs, a, b)
  {
    var front, last := xs[..|xs| - 1], xs[|xs| - 1];
    assert xs == front + [last];
    var ys := WithStatus(xs, status);
    var p, q :| 0 <= p < q < |ys| && ys[p] == a && ys[q] == b;
    FilterMembers(front, status);
    if q < |WithStatus(front, status)| {
      assert Precedes(WithStatus(front, status), a, b);
      FilterOrder(front, status, a, b);
    }
    PrecedesMore(front, last, a, b);
  }

  lemma {:induction false} FilterMembers(xs: seq<Task>, status: Status)
    ensures forall x :: x in WithStatus(xs, status) ==> x in xs && x.status == status
  {
    if xs != [] { FilterMembers(xs[..|xs| - 1], status); }
  }

  lemma {:induction false} ValuesMembers(order: seq<int>, byId: map<int, Task>)
    requires forall t :: t in byId ==> byId[t].id == t
    ensures forall x :: x in Values(order, byId) ==> x.id in order && x.id in byId && byId[x.id] == x
  {
    if order != [] { ValuesMembers(order[..|order| - 1], byId); }
  }

  lemma {:induction false} ValuesOrder(order: seq<int>, byId: map<int, Task>, a: Task, b: Task)
    requires Precedes(Values(order, byId), a, b) && forall t :: t in byId ==> byId[t].id == t
    ensures Precedes(order, a.id, b.id)
  {
    var front, last := order[..|order| - 1], order[|order| - 1];
    assert order == front + [last];
    var ys := Values(order, byId);
    var p, q :| 0 <= p < q < |ys| && ys[p] == a && ys[q] == b;
    ValuesMembers(front, byId);
    if q < |Values(front, byId)| {
      assert Precedes(Values(front, byId), a, b);
      ValuesOrder(front, byId, a, b);
    }
    PrecedesMore(front, last, a.id, b.id);
  }

  /** Tasks of one millisecond stand in the map's insertion order. */
  ghost predicate TiesByInsertion(t: Tasks, column: seq<Task>) {
    forall i, j :: 0 <= i < j < |column| && column[i].createdAt / 1_000_000 == column[j].createdAt / 1_000_000 ==>
      Precedes(t.order, column[i].id, column[j].id)
  }

  /** What renderColumn draws: a task created at least a millisecond before another stands above it, and tasks created
      in the same millisecond stand in the order in which they came into the map. */
  lemma {:induction false} ColumnOrder(t: Tasks, status: Status)
    requires WellFormed(t)
    ensures OldestFirst(ColumnOf(t, status))
    ensures TiesByInsertion(t, ColumnOf(t, status))
  {
    var values := Values(t.order, t.byId);
    var column := ColumnOf(t, status);
    SortOrder(WithStatus(values, status));
    forall i, j | 0 <= i < j < |column| && column[i].createdAt / 1_000_000 == column[j].createdAt / 1_000_000
      ensures Precedes(t.order, column[i].id, column[j].id)
    {
      FilterOrder(values, status, column[i], column[j]);
      ValuesOrder(t.order, t.byId, column[i], column[j]);
    }
  }

  // ---------- which columns applyTask may leave alone ----------

  lemma {:induction false} ValuesFrame(order: seq<int>, byId: map<int, Task>, x: Task)
    requires x.id !in order
    ensures Values(order, byId[x.id := x]) == Values(order, byId)
  {
    if order != [] {
      assert order[|order| - 1] in order;
      ValuesFrame(order[..|order| - 1], byId, x);
    }
  }

  lemma {:induction false} WithStatusSnoc(xs: seq<Task>, x: Task, status: Status)
    ensures WithStatus(xs + [x], status)
              == if x.status == status then WithStatus(xs, status) + [x] else WithStatus(xs, status)
  {
    assert (xs + [x])[..|xs|] == xs;
  }

  /** Replacing a task in place does not change the tasks of a status that neither the old nor the new one has. */
  lemma {:induction false} ReplacedElsewhere(order: seq<int>, byId: map<int, Task>, x: Task, status: Status)
    requires x.id in byId && byId[x.id].status != status && x.status != status
    ensures WithStatus(Values(order, byId[x.id := x]), status) == WithStatus(Values(order, byId), status)
  {
    if order != [] {
      var front, last := order[..|order| - 1], order[|order| - 1];
      ReplacedElsewhere(front, byId, x, status);
      var byId' := byId[x.id := x];
      if last in byId {
        WithStatusSnoc(Values(front, byId'), byId'[last], status);
        WithStatusSnoc(Values(front, byId), byId[last], status);
      }
    }
  }

  lemma {:induction false} ColumnUntouched(t: Tasks, x: Task, status: Status)
    requires WellFormed(t) && x.status != status
    requires x.id in t.byId ==> t.byId[x.id].status != status
    ensures ColumnOf(Put(t, x), status) == ColumnOf(t, status)
  {
    if x.id in t.byId {
      ReplacedElsewhere(t.order, t.byId, x, status);
    } else {
      assert x.id !in ToSet(t.order);
      assert Put(t, x).order[..|t.order|] == t.order;
      ValuesFrame(t.order, t.byId, x);
      assert Values(Put(t, x).order, Put(t, x).byId) == Values(t.order, t.byId) + [x];
      WithStatusSnoc(Values(t.order, t.byId), x, status);
    }
  }

  // ---------- applyTask on the view ----------

  predicate Drawn(v: View) {
    v.columns != map[]
  }

  /** renderColumn: nothing to draw into when the status has no column. */
  function RenderColumn(v: View, status: Status): View {
    if status in v.columns then v.(columns := v.columns[status := ColumnOf(v.tasks, status)]) else v
  }

  function RenderBoard(v: View): View {
    v.(columns := map[Todo := ColumnOf(v.tasks, Todo), InProgress := ColumnOf(v.tasks, InProgress),
                      Done := ColumnOf(v.tasks, Done)])
  }

  /** updateProjectTaskCount: the first listed project with this id. */
  function AddToCount(projects: seq<Entry>, id: int, delta: int): seq<Entry> {
    if projects == [] then []
    else if projects[0].id == id then [projects[0].(count := Max(0, projects[0].count + delta))] + projects[1..]
    else [projects[0]] + AddToCount(projects[1..], id, delta)
  }

  function CountOf(projects: seq<Entry>, id: int): Option<int> {
    if projects == [] then None
    else if projects[0].id == id then Some(projects[0].count)
    else CountOf(projects[1..], id)
  }

  predicate Accepts(v: View, x: Task) {
    x.projectId == v.project && !(x.id in v.tasks.byId && v.tasks.byId[x.id].version >= x.version)
  }

  function ApplyTask(v: View, x: Task): View {
    if !Accepts(v, x) then v
    else
      var previous := if x.id in v.tasks.byId then Some(v.tasks.byId[x.id]) else None;
      var v1 := v.(tasks := Put(v.tasks, x));
      var v2 := if previous.Some? && previous.value.status != Other("") && previous.value.status != x.status
                then RenderColumn(v1, previous.value.status) else v1;
      var v3 := RenderColumn(v2, x.status);
      if previous.None? then v3.(projects := AddToCount(v3.projects, x.projectId, 1)) else v3
  }

  function ApplyTasks(v: View, xs: seq<Task>): View {
    if xs == [] then v else ApplyTask(ApplyTasks(v, xs[..|xs| - 1]), xs[|xs| - 1])
  }

  /** The end of loadBoard: replace the map, draw everything. */
  function Install(v: View, listing: seq<Task>): View {
    RenderBoard(v.(tasks := FromListing(listing)))
  }

  /** loadBoard without a selected project. */
  function Clear(v: View): View {
    v.(tasks := Tasks([], map[]), columns := map[])
  }

  /** Every drawn column equals a full recomputation. */
  ghost predicate Current(v: View) {
    && WellFormed(v.tasks)
    && (Drawn(v) ==> v.columns.Keys == {Todo, InProgress, Done})
    && (forall s :: s in v.columns ==> v.columns[s] == ColumnOf(v.tasks, s))
  }

  lemma {:induction false} InstallCurrent(v: View, listing: seq<Task>)
    ensures Current(Install(v, listing)) && Drawn(Install(v, listing)) && Current(Clear(v))
  {
    hide ColumnOf;
    FromListingWellFormed(listing);
  }

  /** One accepted applyTask call redraws the columns that may have changed: the others are already right. */
  lemma {:induction false} RedrawIsEnough(v: View, x: Task, s: Status)
    requires Current(v) && Accepts(v, x) && s in v.columns
    ensures s in ApplyTask(v, x).columns && ApplyTask(v, x).columns[s] == ColumnOf(Put(v.tasks, x), s)
  {
    hide ColumnOf;
    if s != x.status && (x.id in v.tasks.byId ==> v.tasks.byId[x.id].status != s) {
      ColumnUntouched(v.tasks, x, s);
    }
  }

  lemma {:induction false} ApplyTaskShape(v: View, x: Task)
    ensures ApplyTask(v, x).columns.Keys == v.columns.Keys && ApplyTask(v, x).project == v.project
    ensures ApplyTask(v, x).tasks == if Accepts(v, x) then Put(v.tasks, x) else v.tasks
    ensures ApplyTask(v, x).tasks.byId == Merge.Apply(v.project, v.tasks.byId, x)
  {
    hide ColumnOf;
  }

  /** One applyTask call: redrawing at most two columns leaves every column equal to a full redraw, and the map
      changes as the version guard says. */
  lemma {:induction false} ApplyTaskCurrent(v: View, x: Task)
    requires Current(v)
    ensures Current(ApplyTask(v, x)) && ApplyTask(v, x).columns.Keys == v.columns.Keys
    ensures ApplyTask(v, x).tasks.byId == Merge.Apply(v.project, v.tasks.byId, x)
    ensures ApplyTask(v, x).project == v.project
  {
    hide ColumnOf;
    ApplyTaskShape(v, x);
    if Accepts(v, x) {
      PutWellFormed(v.tasks, x);
      forall s | s in v.columns
        ensures ApplyTask(v, x).columns[s] == ColumnOf(Put(v.tasks, x), s)
      {
        RedrawIsEnough(v, x, s);
      }
      hide ApplyTask;
    }
  }

  /** After any sequence of applyTask calls the incrementally drawn board is the fully drawn one. */
  lemma {:induction false} IncrementalEqualsFull(v: View, xs: seq<Task>)
    requires Current(v)
    ensures Current(ApplyTasks(v, xs)) && ApplyTasks(v, xs).project == v.project
    ensures ApplyTasks(v, xs).tasks.byId == Merge.ApplyAll(v.project, v.tasks.byId, xs)
    ensures Drawn(v) ==> ApplyTasks(v, xs) == RenderBoard(ApplyTasks(v, xs))
  {
    hide ColumnOf, ApplyTask, Current, RenderBoard, Merge.Apply;
    if xs != [] {
      IncrementalEqualsFull(v, xs[..|xs| - 1]);
      ApplyTaskCurrent(ApplyTasks(v, xs[..|xs| - 1]), xs[|xs| - 1]);
    }
    IncrementalKeys(v, xs);
    if Drawn(v) { CurrentIsFull(ApplyTasks(v, xs)); }
  }

  lemma {:induction false} CurrentIsFull(v: View)
    requires Current(v) && Drawn(v)
    ensures v == RenderBoard(v)
  {
    hide ColumnOf;
  }

  lemma {:induction false} IncrementalKeys(v: View, xs: seq<Task>)
    ensures ApplyTasks(v, xs).columns.Keys == v.columns.Keys
  {
    hide ColumnOf;
    if xs != [] { IncrementalKeys(v, xs[..|xs| - 1]); }
  }

  // ---------- the displayed task count ----------

  lemma {:induction false} CountAfterAdd(projects: seq<Entry>, id: int, delta: int)
    ensures CountOf(AddToCount(projects, id, delta), id)
              == match CountOf(projects, id) { case None => None case Some(n) => Some(Max(0, n + delta)) }
  {
    if projects != [] && projects[0].id != id {
      CountAfterAdd(projects[1..], id, delta);
    }
  }

  lemma {:induction false} AddToCountAt(projects: seq<Entry>, id: int, delta: int, i: nat)
    requires i <= |projects| && forall k :: 0 <= k < i ==> projects[k].id != id
    requires i < |projects| ==> projects[i].id == id
    ensures AddToCount(projects, id, delta)
              == if i == |projects| then projects
                 else projects[i := projects[i].(count := Max(0, projects[i].count + delta))]
  {
    if i > 0 { AddToCountAt(projects[1..], id, delta, i - 1); }
  }

  lemma {:induction false} CountStep(w: View, x: Task)
    requires CountOf(w.projects, w.project).Some? && CountOf(w.projects, w.project).value >= 0
    ensures CountOf(ApplyTask(w, x).projects, w.project)
              == Some(CountOf(w.projects, w.project).value + |ApplyTask(w, x).tasks.byId| - |w.tasks.byId|)
    ensures |w.tasks.byId| <= |ApplyTask(w, x).tasks.byId|
  {
    hide ColumnOf;
    CountAfterAdd(w.projects, w.project, 1);
    var m := w.tasks.byId[x.id := x];
    if x.id in w.tasks.byId {
      assert m.Keys == w.tasks.byId.Keys;
      assert |m| == |m.Keys| == |w.tasks.byId.Keys| == |w.tasks.byId|;
    }
  }

  /** However often events repeat or arrive late, the displayed count of the selected project grows by exactly the
      number of task ids that entered the map. */
  lemma {:induction false} CountConservation(v: View, xs: seq<Task>)
    requires Current(v) && CountOf(v.projects, v.project).Some? && CountOf(v.projects, v.project).value >= 0
    ensures var w := ApplyTasks(v, xs);
            CountOf(w.projects, v.project) ==
              Some(CountOf(v.projects, v.project).value + |w.tasks.byId| - |v.tasks.byId|)
    ensures |v.tasks.byId| <= |ApplyTasks(v, xs).tasks.byId|
  {
    hide ColumnOf;
    hide ApplyTask;
    if xs != [] {
      var front, x := xs[..|xs| - 1], xs[|xs| - 1];
      CountConservation(v, front);
      IncrementalEqualsFull(v, front);
      CountStep(ApplyTasks(v, front), x);
    }
  }

  /** When the displayed count is right: after applyTask calls `early` before an install and `late` after it, it is the
      number of tasks on the board if and only if the count before, with the ids that entered early, was the number of
      tasks in the listing. */
  lemma {:induction false} CountRightIff(v: View, early: seq<Task>, listing: seq<Task>, late: seq<Task>)
    requires Current(v) && CountOf(v.projects, v.project).Some? && CountOf(v.projects, v.project).value >= 0
    ensures var was := CountOf(v.projects, v.project).value;
            var entered := |ApplyTasks(v, early).tasks.byId| - |v.tasks.byId|;
            var w := ApplyTasks(Install(ApplyTasks(v, early), listing), late);
            CountOf(w.projects, v.project) == Some(|w.tasks.byId|) <==> was + entered == |FromListing(listing).byId|
  {
    hide ColumnOf, ApplyTask;
    CountConservation(v, early);
    IncrementalEqualsFull(v, early);
    var installed := Install(ApplyTasks(v, early), listing);
    InstallCurrent(ApplyTasks(v, early), listing);
    assert installed.projects == ApplyTasks(v, early).projects && installed.project == v.project;
    CountConservation(installed, late);
  }

  /** The drift after a selection: the map still holds the old project's tasks, so an event of a task that the count
      already includes adds one, and the install does not take it back. */
  lemma {:induction false} SelectionDrift(v: View, listing: seq<Task>, x: Task)
    requires Current(v) && CountOf(v.projects, v.project) == Some(|FromListing(listing).byId|)
    requires x.projectId == v.project && x.id !in v.tasks.byId && x.id in FromListing(listing).byId
    ensures var w := Install(ApplyTask(v, x), listing);
            CountOf(w.projects, v.project) == Some(|w.tasks.byId| + 1)
  {
    hide ColumnOf;
    CountStep(v, x);
    assert x.id !in v.tasks.byId && ApplyTask(v, x).tasks.byId == v.tasks.byId[x.id := x];
    assert |v.tasks.byId[x.id := x]| == |v.tasks.byId| + 1;
  }

  // ---------- the state object ----------

  lemma {:induction false} EmptyColumn(byId: map<int, Task>, status: Status)
    ensures ColumnOf(Tasks([], byId), status) == []
  {
  }

  lemma {:induction false} ColumnStep(order: seq<int>, byId: map<int, Task>, i: nat, status: Status)
    requires i < |order| && order[i] in byId
    ensures ColumnOf(Tasks(order[..i + 1], byId), status)
              == if byId[order[i]].status == status
                then InsertByCreated(ColumnOf(Tasks(order[..i], byId), status), byId[order[i]])
                 else ColumnOf(Tasks(order[..i], byId), status)
  {
    assert order[..i + 1][..i] == order[..i];
    var before := Values(order[..i], byId);
    assert Values(order[..i + 1], byId) == before + [byId[order[i]]];
    WithStatusSnoc(before, byId[order[i]], status);
    var matching := WithStatus(before, status);
    assert (matching + [byId[order[i]]])[..|matching|] == matching;
  }

  class Board {
    var project: int
    var order: seq<int>
    var byId: map<int, Task>
    var columns: map<Status, seq<Task>>
    var projects: seq<Entry>

    ghost function V(): View
      reads this
    {
      View(project, Tasks(order, byId), columns, projects)
    }

    constructor (projects: seq<Entry>)
      ensures V() == View(0, Tasks([], map[]), map[], projects) && Current(V())
    {
      project, order, byId, columns := 0, [], map[], map[];
      this.projects := projects;
    }

    /** renderColumn: collect the matching tasks in map order, each placed after those not created later. */
    method Render(status: Status)
      requires WellFormed(V().tasks)
      modifies this`columns
      ensures V() == RenderColumn(old(V()), status)
    {
      if status !in columns { return; }
      hide ColumnOf;
      EmptyColumn(byId, status);
      var matching: seq<Task> := [];
      var i := 0;
      assert order[..0] == [];
      while i < |order|
        invariant 0 <= i <= |order|
        invariant matching == ColumnOf(Tasks(order[..i], byId), status) && columns == old(columns)
      {
        hide ColumnOf;
        assert order[i] in ToSet(order);
        var task := byId[order[i]];
        ColumnStep(order, byId, i, status);
        if task.status == status { matching := InsertByCreated(matching, task); }
        i := i + 1;
      }
      assert order[..|order|] == order;
      assert matching == ColumnOf(V().tasks, status);
      columns := columns[status := matching];
    }

    /** renderBoard: fresh columns for all statuses, then each is filled. */
    method RenderAll()
      requires WellFormed(V().tasks)
      modifies this`columns
      ensures V() == RenderBoard(old(V()))
    {
      hide ColumnOf;
      columns := map[Todo := [], InProgress := [], Done := []];
      var i := 0;
      while i < |STATUSES|
        invariant 0 <= i <= |STATUSES|
        invariant columns.Keys == {Todo, InProgress, Done}
        invariant forall j :: 0 <= j < i ==> columns[STATUSES[j]] == ColumnOf(V().tasks, STATUSES[j])
      {
        Render(STATUSES[i]);
        i := i + 1;
      }
      assert columns[STATUSES[0]] == ColumnOf(V().tasks, Todo);
      assert columns[STATUSES[1]] == ColumnOf(V().tasks, InProgress);
      assert columns[STATUSES[2]] == ColumnOf(V().tasks, Done);
    }

    method UpdateProjectTaskCount(id: int, delta: int)
      modifies this`projects
      ensures projects == AddToCount(old(projects), id, delta)
      ensures |projects| == |old(projects)|
      ensures forall k :: 0 <= k < |projects| ==>
                if old(projects)[k].id == id && (forall j :: 0 <= j < k ==> old(projects)[j].id != id)
                then projects[k].id == id && projects[k].count == Max(0, old(projects)[k].count + delta)
                else projects[k] == old(projects)[k]
    {
      var i := 0;
      while i < |projects| && projects[i].id != id
        invariant 0 <= i <= |projects|
        invariant forall k :: 0 <= k < i ==> projects[k].id != id
      {
        i := i + 1;
      }
      AddToCountAt(projects, id, delta, i);
      if i < |projects| {
        projects := projects[i := projects[i].(count := Max(0, projects[i].count + delta))];
      }
    }

    method Apply(x: Task) returns (applied: bool, created: bool)
      requires Current(V())
      modifies this
      ensures V() == ApplyTask(old(V()), x) && Current(V())
      ensures byId == Merge.Apply(old(project), old(byId), x)
      ensures applied
           == (x.projectId == old(project) && (x.id in old(byId) ==> old(byId)[x.id].version < x.version))
      ensures created == (applied && x.id !in old(byId))
      ensures byId == if applied then old(byId)[x.id := x] else old(byId)
      ensures order == if created then old(order) + [x.id] else old(order)
      ensures !created ==> projects == old(projects)
    {
      ApplyTaskCurrent(V(), x);
      if x.projectId != project { return false, false; }
      var previous := if x.id in byId then Some(byId[x.id]) else None;
      if previous.Some? && previous.value.version >= x.version { return false, false; }
      PutWellFormed(V().tasks, x);
      if x.id !in byId { order := order + [x.id]; }
      byId := byId[x.id := x];
      if previous.Some? && previous.value.status != Other("") && previous.value.status != x.status {
        Render(previous.value.status);
      }
      Render(x.status);
      if previous.None? { UpdateProjectTaskCount(x.projectId, 1); }
      return true, previous.None?;
    }

    /** The end of loadBoard: the response is installed only if its project is still the selected one. */
    method FinishLoad(requested: int, listing: seq<Task>)
      requires Current(V())
      modifies this
      ensures V() == if requested == old(project) then Install(old(V()), listing) else old(V())
      ensures Current(V()) && project == old(project) && projects == old(projects)
      ensures requested == project ==>
                && columns.Keys == {Todo, InProgress, Done}
                && (forall x :: x in listing ==> x.id in byId) && (forall t :: t in byId ==> byId[t] in listing)
    {
      if requested != project { return; }
      InstallCurrent(V(), listing);
      order, byId := [], map[];
      var i := 0;
      while i < |listing|
        invariant 0 <= i <= |listing|
        invariant Tasks(order, byId) == FromListing(listing[..i])
        invariant project == old(project) && projects == old(projects)
      {
        assert listing[..i + 1][..i] == listing[..i];
        var x := listing[i];
        if x.id !in byId { order := order + [x.id]; }
        byId := byId[x.id := x];
        i := i + 1;
      }
      assert listing[..|listing|] == listing;
      FromListingWellFormed(listing);
      FromListingMembers(listing);
      RenderAll();
    }

    /** loadBoard up to its await: without a selection the board is emptied, otherwise the selected project's tasks are
        requested. */
    method StartLoad() returns (request: Option<int>)
      requires Current(V())
      modifies this
      ensures V() == (if old(project) == 0 then Clear(old(V())) else old(V())) && Current(V())
      ensures request == if old(project) == 0 then None else Some(old(project))
      ensures project == old(project) && projects == old(projects)
      ensures if project == 0 then order == [] && byId == map[] && columns == map[]
              else order == old(order) && byId == old(byId) && columns == old(columns)
    {
      if project == 0 {
        order, byId, columns := [], map[], map[];
        return None;
      }
      return Some(project);
    }

    /** The change handler of the project list: subscribe on an open socket, then load. The map keeps the old project's
        tasks until the next install, but no task of the old project is accepted any more. */
    method Select(id: int, open: bool) returns (command: Option<int>, request: Option<int>)
      requires Current(V())
      modifies this
      ensures Current(V()) && project == id && V().projects == old(V()).projects
      ensures if id == 0 then V() == Clear(V()) && command == None && request == None
              else request == Some(id) && byId == old(byId) && order == old(order) && columns == old(columns)
      ensures command == if id != 0 && open then Some(id) else None
      ensures forall x :: Accepts(V(), x) ==> x.projectId == id
    {
      project := id;
      command := if open && project != 0 then Some(project) else None;
      request := StartLoad();
    }
  }
}
