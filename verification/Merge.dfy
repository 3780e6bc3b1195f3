/** The version guard of applyTask (internal/app/web/app.js) as an operation on the task map,
    and what any sequence of such operations computes. */
module Merge {
  import opened Base
  import opened Events

  /** applyTask on the map alone: ignore other projects and versions that are not newer. */
  function Apply(project: int, m: map<int, Task>, x: Task): map<int, Task> {
    if x.projectId != project then m
    else if x.id in m && m[x.id].version >= x.version then m
    else m[x.id := x]
  }

  /** A task of the project is taken exactly when nothing at its version or above is held, and only its entry
      changes. */
  lemma {:induction false} TakenIff(project: int, m: map<int, Task>, x: Task)
    ensures Apply(project, m, x) == (if x.projectId == project && !Covers(m, x.id, x.version) then m[x.id := x] else m)
    ensures x.projectId == project ==> Covers(Apply(project, m, x), x.id, x.version)
  {
  }

  function ApplyAll(project: int, m: map<int, Task>, xs: seq<Task>): map<int, Task> {
    if xs == [] then m
    else Apply(project, ApplyAll(project, m, xs[..|xs| - 1]), xs[|xs| - 1])
  }

  /** The map holds the task at this version or a later one. */
  ghost predicate Covers(m: map<int, Task>, id: int, version: int) {
    id in m && version <= m[id].version
  }

  /** The reference: r holds, per task id, a highest version among the starting map and the tasks in xs. */
  ghost predicate IsJoin(project: int, m: map<int, Task>, xs: set<Task>, r: map<int, Task>) {
    && (forall t :: t in r ==> (t in m && r[t] == m[t]) || (r[t] in xs && r[t].projectId == project && r[t].id == t))
    && (forall t :: t in m ==> Covers(r, t, m[t].version))
    && (forall x :: x in xs && x.projectId == project ==> Covers(r, x.id, x.version))
  }

  /** A task id and a version determine the content. */
  ghost predicate Coherent(m: map<int, Task>, xs: set<Task>) {
    && (forall x, y :: x in xs && y in xs && x.id == y.id && x.version == y.version ==> x == y)
    && (forall x :: x in xs && x.id in m && m[x.id].version == x.version ==> m[x.id] == x)
  }

  /** Every sequence of applyTask calls computes a per-task highest-version join. */
  lemma {:induction false} ApplyAllIsJoin(project: int, m: map<int, Task>, xs: seq<Task>)
    ensures IsJoin(project, m, ToSet(xs), ApplyAll(project, m, xs))
  {
    if xs != [] {
      var front, x := xs[..|xs| - 1], xs[|xs| - 1];
      ApplyAllIsJoin(project, m, front);
      assert xs == front + [x];
      ToSetSnoc(front, x);
      JoinStep(project, m, ToSet(front), ApplyAll(project, m, front), x);
    }
  }

  lemma {:induction false} JoinStep(project: int, m: map<int, Task>, xs: set<Task>, r: map<int, Task>, x: Task)
    requires IsJoin(project, m, xs, r)
    ensures IsJoin(project, m, xs + {x}, Apply(project, r, x))
  {
    var r' := Apply(project, r, x);
    assert forall t, v :: Covers(r, t, v) ==> Covers(r', t, v);
    assert x.projectId == project ==> Covers(r', x.id, x.version);
  }

  /** Coherent inputs have only one join, so the reference above pins the map down. */
  lemma {:induction false} JoinUnique(
    project: int, m: map<int, Task>, xs: set<Task>, r1: map<int, Task>, r2: map<int, Task>)
    requires Coherent(m, xs)
    requires IsJoin(project, m, xs, r1) && IsJoin(project, m, xs, r2)
    ensures r1 == r2
  {
    forall t | t in r1
      ensures t in r2 && r1[t] == r2[t]
    {
      assert Covers(r2, t, r1[t].version);
      assert Covers(r1, t, r2[t].version);
    }
    assert r1.Keys == r2.Keys by {
      forall t | t in r2
        ensures t in r1
      {
        assert Covers(r1, t, r2[t].version);
      }
    }
  }

  /** Delivery is idempotent and order-free: two event sequences with the same set of events,
      in any order and with any repetition, leave the same map. */
  lemma {:induction false} OrderAndRepetitionDoNotMatter(project: int, m: map<int, Task>, xs: seq<Task>, ys: seq<Task>)
    requires ToSet(xs) == ToSet(ys)
    requires Coherent(m, ToSet(xs))
    ensures ApplyAll(project, m, xs) == ApplyAll(project, m, ys)
  {
    ApplyAllIsJoin(project, m, xs);
    ApplyAllIsJoin(project, m, ys);
    JoinUnique(project, m, ToSet(xs), ApplyAll(project, m, xs), ApplyAll(project, m, ys));
  }

  /** Per task id, versions never go down across applyTask calls. */
  lemma {:induction false} ApplyAllMonotone(project: int, m: map<int, Task>, xs: seq<Task>, t: int)
    requires t in m
    ensures Covers(ApplyAll(project, m, xs), t, m[t].version)
  {
    ApplyAllIsJoin(project, m, xs);
  }

  /** The map or one of the tasks in xs has the task x at its version or a later one. */
  ghost predicate CoveredBy(project: int, m: map<int, Task>, xs: seq<Task>, x: Task) {
    || Covers(m, x.id, x.version)
    || exists y :: y in xs && y.projectId == project && y.id == x.id && x.version <= y.version
  }

  /** Installing a snapshot replaces the whole map, so events applied while the request was in flight can be
      lost. With `early` applied before the install and `late` after it, nothing is lost exactly when, for every
      early event of the project, the snapshot or a late event has its task at its version or above. */
  lemma {:induction false} InstallLosesNothingIff(
    project: int, snapshot: map<int, Task>, early: seq<Task>, late: seq<Task>)
    requires Coherent(snapshot, ToSet(early + late))
    ensures ApplyAll(project, snapshot, late) == ApplyAll(project, snapshot, early + late)
       <==> forall x :: x in early && x.projectId == project ==> CoveredBy(project, snapshot, late, x)
  {
    var got, want := ApplyAll(project, snapshot, late), ApplyAll(project, snapshot, early + late);
    var all := ToSet(early + late);
    ApplyAllIsJoin(project, snapshot, early + late);
    ApplyAllIsJoin(project, snapshot, late);
    forall x | x in early
      ensures CoveredBy(project, snapshot, late, x) <==> Covers(got, x.id, x.version)
    {
      JoinCovers(project, snapshot, late, got, x);
    }
    assert forall x :: x in all <==> x in early || x in ToSet(late);
    if forall x :: x in early && x.projectId == project ==> CoveredBy(project, snapshot, late, x) {
      assert IsJoin(project, snapshot, all, got);
      JoinUnique(project, snapshot, all, got, want);
    }
  }

  /** What a join covers can be read off its inputs. */
  lemma {:induction false} JoinCovers(project: int, m: map<int, Task>, xs: seq<Task>, r: map<int, Task>, x: Task)
    requires IsJoin(project, m, ToSet(xs), r)
    ensures CoveredBy(project, m, xs, x) <==> Covers(r, x.id, x.version)
  {
    if Covers(m, x.id, x.version) {
      assert Covers(r, x.id, m[x.id].version);
    } else if y :| y in xs && y.projectId == project && y.id == x.id && x.version <= y.version {
      assert y in ToSet(xs) && Covers(r, y.id, y.version);
    }
  }

  /** The check a page could make before it installs: every event it holds of the project is in the snapshot at its
      version or above. Then, and only then, the install itself loses nothing. */
  lemma {:induction false} InstallGuard(project: int, snapshot: map<int, Task>, early: seq<Task>)
    requires Coherent(snapshot, ToSet(early))
    ensures snapshot == ApplyAll(project, snapshot, early)
       <==> forall x :: x in early && x.projectId == project ==> Covers(snapshot, x.id, x.version)
  {
    assert early + [] == early;
    InstallLosesNothingIff(project, snapshot, early, []);
  }
}
