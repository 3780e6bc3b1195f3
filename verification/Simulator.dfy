/** The simulator engine of internal/simulator/engine.go: the life of a run as a goroutine that takes the mutex
    section by section, interleaved with Start and Stop calls and with failing API calls. */
module Simulator {
  import opened Base

  const WORKFORCE := 50
  const TEAMS := 5
  const MAX_PROJECTS := 10
  const RECENT := 30

  datatype Team = Team(workers: seq<int>, projects: seq<int>)

  datatype Project = Project(id: int, team: nat)

  datatype Record = Record(action: string, success: bool)

  datatype Phase = Stopped | Initializing | Running | Stopping

  datatype Stats = Stats(total: nat, errors: nat, actions: map<string, nat>)

  /** Where a run goroutine is between two mutex sections. Creating holds the team it found eligible. */
  datatype Stage =
    | Entering | Hiring(i: nat) | Founding(i: nat) | Seeding(i: nat, left: nat) | Ready | Acting | Creating(team: nat)
    | Leaving

  /** `pending` is the record the goroutine is about to write. */
  datatype Run = Run(session: nat, cancelled: bool, stage: Stage, pending: Option<Record>)

  /** The engine's fields; the live run goroutines; which of them was started last; and, as history, everything
      recorded since the last Start. */
  datatype State = State(
    running: bool, phase: Phase, session: nat, teams: seq<Team>, projects: seq<Project>, stats: Stats,
    recent: seq<Record>, runs: map<nat, Run>, owner: nat, log: seq<Record>)

  datatype Step =
    | Start(run: nat, session: nat)
    | Stop
    | Note(run: nat)                      // record
    | Enter(run: nat)
    | Hire(run: nat, user: Option<int>)
    | Found(run: nat, project: Option<int>)
    | Seed(run: nat, outcome: Option<bool>)
    | Advance(run: nat)
    | Abort(run: nat)
    | Act(run: nat, action: string, outcome: Option<bool>)
    | Choose(run: nat, team: nat)
    | Create(run: nat, project: Option<int>)
    | Finish(run: nat)

  /** What runAction records besides new projects. */
  const ACTIONS := {"view_board", "create_task", "start_task", "complete_task"}

  const NO_STATS := Stats(0, 0, map[])

  /** NewEngine */
  const NEW_ENGINE := State(false, Stopped, 0, [], [], NO_STATS, [], map[], 0, [])

  // ---------- the mutex sections ----------

  function AfterStart(st: State, run: nat, session: nat): State {
    if st.running then st
    else State(true, Initializing, session, [], [], NO_STATS, [],
               st.runs[run := Run(session, false, Entering, None)], run, [])
  }

  /** Stop cancels the context of the run that Start made last. */
  function AfterStop(st: State): State {
    if st.running && st.owner in st.runs
    then st.(phase := Stopping, runs := st.runs[st.owner := st.runs[st.owner].(cancelled := true)])
    else st
  }

  function Count(actions: map<string, nat>, action: string): nat {
    if action in actions then actions[action] else 0
  }

  function Recorded(st: State, r: Record): State {
    var all := [r] + st.recent;
    st.(stats := Stats(st.stats.total + 1, if r.success then st.stats.errors else st.stats.errors + 1,
                       st.stats.actions[r.action := Count(st.stats.actions, r.action) + 1]),
        recent := if |all| > RECENT then all[..RECENT] else all,
        log := st.log + [r])
  }

  function EmptyTeams(): seq<Team> {
    seq(TEAMS, _ => Team([], []))
  }

  function WithWorker(teams: seq<Team>, team: nat, user: int): seq<Team> {
    if team < |teams| then teams[team := teams[team].(workers := teams[team].workers + [user])] else teams
  }

  function WithProject(st: State, team: nat, id: int): State {
    if team < |st.teams| then
      st.(projects := st.projects + [Project(id, team)],
          teams := st.teams[team := st.teams[team].(projects := st.teams[team].projects + [id])])
    else st
  }

  function Moved(st: State, run: nat, stage: Stage, pending: Option<Record>): State {
    if run in st.runs then st.(runs := st.runs[run := st.runs[run].(stage := stage, pending := pending)]) else st
  }

  /** The deferred section at the end of run. */
  function Finished(st: State, run: nat): State {
    if run in st.runs then
      var ended := st.(runs := st.runs - {run});
      if st.session == st.runs[run].session then ended.(running := false, phase := Stopped) else ended
    else st
  }

  // ---------- steps ----------

  predicate Free(st: State, run: nat) {
    run in st.runs && st.runs[run].pending.None?
  }

  predicate Enabled(st: State, s: Step) {
    match s
    case Start(run, session) => run !in st.runs
    case Stop => true
    case Note(run) => run in st.runs && st.runs[run].pending.Some?
    case Enter(run) => Free(st, run) && st.runs[run].stage.Entering?
    case Hire(run, user) =>
      Free(st, run) && st.runs[run].stage.Hiring? && st.runs[run].stage.i < WORKFORCE && !st.runs[run].cancelled
    case Found(run, project) =>
      Free(st, run) && st.runs[run].stage.Founding? && st.runs[run].stage.i < TEAMS && !st.runs[run].cancelled
    case Seed(run, outcome) => Free(st, run) && st.runs[run].stage.Seeding? && st.runs[run].stage.left > 0
    case Advance(run) =>
      Free(st, run) &&
      (match st.runs[run].stage
       case Hiring(i) => i == WORKFORCE
       case Seeding(_, left) => left == 0
       case Founding(i) => i == TEAMS && !st.runs[run].cancelled
       case Ready => true
       case _ => false)
    case Abort(run) =>
      && Free(st, run) && st.runs[run].cancelled
      && (st.runs[run].stage.Hiring? || st.runs[run].stage.Founding? || st.runs[run].stage.Acting?)
    case Act(run, action, outcome) => Free(st, run) && st.runs[run].stage.Acting? && action in ACTIONS
    case Choose(run, team) =>
      && Free(st, run) && st.runs[run].stage.Acting?
      && |st.projects| < MAX_PROJECTS && team < |st.teams| && |st.teams[team].projects| < 2
      && st.teams[team].workers != []
    case Create(run, project) => Free(st, run) && st.runs[run].stage.Creating?
    case Finish(run) => Free(st, run) && st.runs[run].stage.Leaving?
  }

  /** createProject for a team, then the next stage. */
  function Founded(st: State, run: nat, team: nat, project: Option<int>, ok: Stage, failed: Stage): State {
    match project
    case Some(id) => Moved(WithProject(st, team, id), run, ok, Some(Record("create_project", true)))
    case None => Moved(st, run, failed, Some(Record("create_project", false)))
  }

  function Outcome(action: string, outcome: Option<bool>): Option<Record> {
    match outcome
    case None => None
    case Some(ok) => Some(Record(action, ok))
  }

  function Next(st: State, s: Step): State
    requires Enabled(st, s)
  {
    match s
    case Start(run, session) => AfterStart(st, run, session)
    case Stop => AfterStop(st)
    case Note(run) => Moved(Recorded(st, st.runs[run].pending.value), run, st.runs[run].stage, None)
    case Enter(run) => Moved(st.(teams := EmptyTeams()), run, Hiring(0), None)
    case Hire(run, user) =>
      var i := st.runs[run].stage.i;
      var st1 := match user
                 case Some(id) => st.(teams := WithWorker(st.teams, i % TEAMS, id))
                 case None => st;
      Moved(st1, run, Hiring(i + 1), Some(Record("create_user", user.Some?)))
    case Found(run, project) =>
      var i := st.runs[run].stage.i;
      Founded(st, run, i, project, Seeding(i, 2), Founding(i + 1))
    case Seed(run, outcome) =>
      var stage := st.runs[run].stage;
      Moved(st, run, Seeding(stage.i, stage.left - 1), Outcome("create_task", outcome))
    case Advance(run) =>
      (match st.runs[run].stage
       case Hiring(_) => Moved(st, run, Founding(0), None)
       case Seeding(i, _) => Moved(st, run, Founding(i + 1), None)
       case Founding(_) => Moved(st, run, Ready, None)
       case _ => Moved(if st.session == st.runs[run].session then st.(phase := Running) else st, run, Acting, None))
    case Abort(run) => Moved(st, run, Leaving, None)
    case Act(run, action, outcome) => Moved(st, run, Acting, Outcome(action, outcome))
    case Choose(run, team) => Moved(st, run, Creating(team), None)
    case Create(run, project) => Founded(st, run, st.runs[run].stage.team, project, Acting, Acting)
    case Finish(run) => Finished(st, run)
  }

  // ---------- the invariant ----------

  ghost function ProjectCount(teams: seq<Team>): nat {
    if teams == [] then 0 else ProjectCount(teams[..|teams| - 1]) + |teams[|teams| - 1].projects|
  }

  function Names(log: seq<Record>): seq<string> {
    if log == [] then [] else Names(log[..|log| - 1]) + [log[|log| - 1].action]
  }

  function Failures(log: seq<Record>): nat {
    if log == [] then 0 else Failures(log[..|log| - 1]) + if log[|log| - 1].success then 0 else 1
  }

  /** At most one run goroutine is alive: the one Start made last, exactly while `running`. */
  ghost predicate SingleRun(st: State) {
    && (!st.running ==> st.runs == map[])
    && (st.running ==> st.runs.Keys == {st.owner} && st.runs[st.owner].session == st.session)
  }

  /** How many projects each team can have at each stage of the run. */
  ghost predicate StageOk(teams: seq<Team>, projects: seq<Project>, stage: Stage) {
    match stage
    case Entering => teams == [] && projects == []
    case Hiring(i) => |teams| == TEAMS && i <= WORKFORCE && Untouched(teams, 0)
    case Founding(i) => |teams| == TEAMS && i <= TEAMS && AtMostOne(teams) && Untouched(teams, i)
    case Seeding(i, left) => |teams| == TEAMS && i < TEAMS && AtMostOne(teams) && Untouched(teams, i + 1)
    case Creating(team) => |teams| == TEAMS && team < TEAMS && |teams[team].projects| < 2
    case _ => |teams| == TEAMS
  }

  ghost predicate Untouched(teams: seq<Team>, from: nat) {
    forall t :: from <= t < |teams| ==> teams[t].projects == []
  }

  ghost predicate AtMostOne(teams: seq<Team>) {
    forall t :: 0 <= t < |teams| ==> |teams[t].projects| <= 1
  }

  ghost predicate Ownership(teams: seq<Team>, projects: seq<Project>) {
    && |projects| == ProjectCount(teams)
    && (forall t :: 0 <= t < |teams| ==> |teams[t].projects| <= 2)
    && |teams| <= TEAMS
    && (forall k :: 0 <= k < |projects| ==> projects[k].team < |teams|)
  }

  /** The statistics and the recent list describe exactly what was recorded since the last Start. */
  ghost predicate Accounts(stats: Stats, recent: seq<Record>, log: seq<Record>) {
    && stats.total == |log| && stats.errors == Failures(log)
    && (forall a :: Count(stats.actions, a) == multiset(Names(log))[a])
    && |recent| == (if |log| < RECENT then |log| else RECENT)
    && (forall i :: 0 <= i < |recent| ==> recent[i] == log[|log| - 1 - i])
  }

  ghost predicate Inv(st: State) {
    && SingleRun(st) && Ownership(st.teams, st.projects) && Accounts(st.stats, st.recent, st.log)
    && (st.running ==> st.owner in st.runs && StageOk(st.teams, st.projects, st.runs[st.owner].stage))
  }

  lemma {:induction false} NewEngineInv()
    ensures Inv(NEW_ENGINE)
  {
  }

  lemma {:induction false} ProjectCountUpdate(teams: seq<Team>, t: nat, team: Team)
    requires t < |teams|
    ensures ProjectCount(teams[t := team]) == ProjectCount(teams) - |teams[t].projects| + |team.projects|
  {
    var n := |teams| - 1;
    if t == n {
      assert teams[t := team][..n] == teams[..n];
    } else {
      ProjectCountUpdate(teams[..n], t, team);
      assert teams[t := team][..n] == teams[..n][t := team];
    }
  }

  lemma {:induction false} ProjectCountZero(teams: seq<Team>)
    requires Untouched(teams, 0)
    ensures ProjectCount(teams) == 0
  {
    if teams != [] { ProjectCountZero(teams[..|teams| - 1]); }
  }

  lemma {:induction false} ProjectCountBound(teams: seq<Team>)
    requires forall t :: 0 <= t < |teams| ==> |teams[t].projects| <= 2
    ensures ProjectCount(teams) <= 2 * |teams|
  {
    if teams != [] { ProjectCountBound(teams[..|teams| - 1]); }
  }

  lemma {:induction false} RecordedAccounts(st: State, r: Record)
    requires Accounts(st.stats, st.recent, st.log)
    ensures Accounts(Recorded(st, r).stats, Recorded(st, r).recent, Recorded(st, r).log)
  {
    assert (st.log + [r])[..|st.log|] == st.log;
  }

  lemma {:induction false} AddProject(st: State, team: nat, id: int)
    requires Ownership(st.teams, st.projects) && team < |st.teams| && |st.teams[team].projects| < 2
    ensures Ownership(WithProject(st, team, id).teams, WithProject(st, team, id).projects)
  {
    ProjectCountUpdate(st.teams, team, st.teams[team].(projects := st.teams[team].projects + [id]));
  }

  lemma {:induction false} AddWorker(teams: seq<Team>, projects: seq<Project>, team: nat, user: int)
    requires Ownership(teams, projects) && team < |teams|
    ensures Ownership(WithWorker(teams, team, user), projects)
  {
    ProjectCountUpdate(teams, team, teams[team].(workers := teams[team].workers + [user]));
  }

  lemma {:induction false} OneRunKept(st: State, s: Step)
    requires SingleRun(st) && Enabled(st, s)
    ensures SingleRun(Next(st, s))
  {
  }

  lemma {:induction false} AccountsKept(st: State, s: Step)
    requires Accounts(st.stats, st.recent, st.log) && Enabled(st, s)
    ensures var st' := Next(st, s); Accounts(st'.stats, st'.recent, st'.log)
  {
    hide Accounts;
    if s.Note? {
      RecordedAccounts(st, st.runs[s.run].pending.value);
      hide Recorded;
    } else {
      OthersRecordNothing(st, s);
      EmptyAccounts();
      hide Next;
    }
  }

  lemma {:induction false} OthersRecordNothing(st: State, s: Step)
    requires Enabled(st, s) && !s.Note?
    ensures var st' := Next(st, s);
            if s.Start? && !st.running then st'.stats == NO_STATS && st'.recent == [] && st'.log == []
            else st'.stats == st.stats && st'.recent == st.recent && st'.log == st.log
  {
  }

  lemma {:induction false} EmptyAccounts()
    ensures Accounts(NO_STATS, [], [])
  {
  }

  /** Check and act are two sections: between them only Stop and idle Start calls can come, because no other run
      goroutine exists, so the team found eligible still is. */
  lemma {:induction false} OwnershipKept(st: State, s: Step)
    requires SingleRun(st) && Ownership(st.teams, st.projects) && Enabled(st, s)
    requires st.running ==> StageOk(st.teams, st.projects, st.runs[st.owner].stage)
    ensures Ownership(Next(st, s).teams, Next(st, s).projects)
  {
    EmptyOwnership();
    match s
    case Enter(run) =>
    case Hire(run, user) =>
      if user.Some? { AddWorker(st.teams, st.projects, st.runs[run].stage.i % TEAMS, user.value); }
    case Found(run, project) => if project.Some? { AddProject(st, st.runs[run].stage.i, project.value); }
    case Create(run, project) => if project.Some? { AddProject(st, st.runs[run].stage.team, project.value); }
    case _ =>
    hide Ownership;
  }

  lemma {:induction false} EmptyOwnership()
    ensures Ownership([], []) && Ownership(EmptyTeams(), [])
  {
    ProjectCountZero(EmptyTeams());
  }

  /** One section of the live run, or an outside call, leads to a stage whose bound holds. */
  lemma {:induction false} StageKept(st: State, s: Step)
    requires SingleRun(st) && Enabled(st, s)
    requires st.running ==> StageOk(st.teams, st.projects, st.runs[st.owner].stage)
    ensures var st' := Next(st, s);
            st'.running ==> st'.owner in st'.runs && StageOk(st'.teams, st'.projects, st'.runs[st'.owner].stage)
  {
    if s.Note? || s.Start? || s.Stop? || s.Finish? || s.Abort? || s.Advance? || s.Act? || s.Choose? || s.Seed? {
    } else {
      WorkStage(st, s);
    }
  }

  lemma {:induction false} WorkStage(st: State, s: Step)
    requires SingleRun(st) && Enabled(st, s) && (s.Enter? || s.Hire? || s.Found? || s.Create?)
    requires st.running ==> StageOk(st.teams, st.projects, st.runs[st.owner].stage)
    ensures var st' := Next(st, s);
            st'.running ==> st'.owner in st'.runs && StageOk(st'.teams, st'.projects, st'.runs[st'.owner].stage)
  {
  }

  lemma {:induction false} StepInv(st: State, s: Step)
    requires Inv(st) && Enabled(st, s)
    ensures Inv(Next(st, s))
  {
    hide SingleRun, Ownership, Accounts, StageOk, Next;
    OneRunKept(st, s);
    AccountsKept(st, s);
    OwnershipKept(st, s);
    StageKept(st, s);
  }

  // ---------- what the sections do ----------

  /** Creating a project gives it to its team, and to the list, only if the call succeeds; either way the outcome is the
      next record. */
  lemma {:induction false} CreateEffect(st: State, s: Step)
    requires Inv(st) && Enabled(st, s) && (s.Found? || s.Create?)
    ensures var st' := Next(st, s);
            var team := if s.Found? then st.runs[s.run].stage.i else st.runs[s.run].stage.team;
            && team < |st.teams| == |st'.teams| && s.run in st'.runs
            && st'.runs[s.run].pending == Some(Record("create_project", s.project.Some?))
            && (forall t :: 0 <= t < |st.teams| ==> st'.teams[t].workers == st.teams[t].workers)
            && (s.project.None? ==> st'.teams == st.teams && st'.projects == st.projects)
            && (s.project.Some? ==>
                  && st'.projects == st.projects + [Project(s.project.value, team)]
                  && st'.teams[team].projects == st.teams[team].projects + [s.project.value]
                  && forall t :: 0 <= t < |st.teams| && t != team ==> st'.teams[t] == st.teams[t])
  {
    hide Accounts, Ownership;
  }

  /** A team is chosen for another project only while it has workers, fewer than two projects, and there are fewer than
      ten in all. */
  lemma {:induction false} ChoiceIsEligible(st: State, s: Step)
    requires Enabled(st, s) && s.Choose?
    ensures |st.projects| < 10 && s.team < |st.teams| && st.teams[s.team].workers != []
    ensures |st.teams[s.team].projects| < 2 && Next(st, s).runs[s.run].stage == Creating(s.team)
    ensures Next(st, s) == st.(runs := Next(st, s).runs)
  {
  }

  /** An action records whether it succeeded, or nothing if it did nothing; teams and projects stay. */
  lemma {:induction false} ActionEffect(st: State, s: Step)
    requires Enabled(st, s) && (s.Act? || s.Seed?)
    ensures var st', action := Next(st, s), if s.Act? then s.action else "create_task";
            && s.run in st'.runs && st' == st.(runs := st'.runs)
            && (s.outcome == None ==> st'.runs[s.run].pending == None)
            && (s.outcome == Some(true) ==> st'.runs[s.run].pending == Some(Record(action, true)))
            && (s.outcome == Some(false) ==> st'.runs[s.run].pending == Some(Record(action, false)))
  {
  }

  /** A new run begins with five teams without members or projects, and is reported as running once it is set up. */
  lemma {:induction false} SetUpEffect(st: State, s: Step)
    requires Inv(st) && Enabled(st, s)
    ensures s.Enter? ==>
              var st' := Next(st, s);
              |st'.teams| == 5 && (forall t :: 0 <= t < 5 ==> st'.teams[t] == Team([], [])) && st'.projects == []
    ensures s.Advance? && st.runs[s.run].stage.Ready? ==>
              Next(st, s).phase == Running && Next(st, s).runs[s.run].stage == Acting
  {
    hide Accounts, Ownership;
  }

  /** A record is written once, and the goroutine goes on where it was. */
  lemma {:induction false} NoteEffect(st: State, s: Step)
    requires Enabled(st, s) && s.Note?
    ensures var st' := Next(st, s);
            && s.run in st'.runs && st'.log == st.log + [st.runs[s.run].pending.value]
            && st'.runs[s.run] == st.runs[s.run].(pending := None)
            && st'.teams == st.teams && st'.projects == st.projects && st'.phase == st.phase
  {
  }

  /** The end of the run leaves the engine stopped, with its teams, projects and statistics on display. */
  lemma {:induction false} FinishEffect(st: State, s: Step)
    requires Inv(st) && Enabled(st, s) && s.Finish?
    ensures var st' := Next(st, s);
            && !st'.running && st'.phase == Stopped && st'.runs == map[]
            && st'.teams == st.teams && st'.projects == st.projects && st'.stats == st.stats && st'.recent == st.recent
  {
    hide Accounts, Ownership;
  }

  // ---------- the calls of a run ----------

  /** How often an action was recorded, or is about to be. */
  function CallsOf(log: seq<Record>, k: Run, action: string): nat {
    multiset(Names(log))[action] + if k.pending.Some? && k.pending.value.action == action then 1 else 0
  }

  /** The bootstrap makes its calls in order: fifty for users, then one project per team. */
  ghost predicate CallsOk(log: seq<Record>, k: Run) {
    var users, founded := CallsOf(log, k, "create_user"), CallsOf(log, k, "create_project");
    match k.stage
    case Entering => users == 0 && founded == 0
    case Hiring(i) => users == i && founded == 0
    case Founding(i) => users == 50 && founded == i
    case Seeding(i, _) => users == 50 && founded == i + 1
    case Ready => users == 50 && founded == 5
    case Leaving => users <= 50
    case _ => users == 50 && founded >= 5
  }

  ghost predicate CallsInv(st: State) {
    forall r :: r in st.runs ==> CallsOk(st.log, st.runs[r])
  }

  lemma {:induction false} NamesSnoc(log: seq<Record>, r: Record)
    ensures Names(log + [r]) == Names(log) + [r.action]
  {
    assert (log + [r])[..|log|] == log;
  }

  lemma {:induction false} NotedCalls(log: seq<Record>, k: Run, action: string)
    requires k.pending.Some?
    ensures CallsOf(log + [k.pending.value], k.(pending := None), action) == CallsOf(log, k, action)
  {
    NamesSnoc(log, k.pending.value);
  }

  lemma {:induction false} CallsKept(st: State, s: Step)
    requires SingleRun(st) && CallsInv(st) && Enabled(st, s)
    requires st.running ==> StageOk(st.teams, st.projects, st.runs[st.owner].stage)
    ensures CallsInv(Next(st, s))
  {
    match s
    case Start(_, _) => StartCalls(st, s);
    case Note(run) => NoteCalls(st, s);
    case _ => OtherCalls(st, s);
  }

  lemma {:induction false} StartCalls(st: State, s: Step)
    requires SingleRun(st) && CallsInv(st) && Enabled(st, s) && s.Start?
    ensures CallsInv(Next(st, s))
  {
    assert Names([]) == [];
  }

  lemma {:induction false} NoteCalls(st: State, s: Step)
    requires SingleRun(st) && CallsInv(st) && Enabled(st, s) && s.Note?
    ensures CallsInv(Next(st, s))
  {
    hide Names;
    var k := st.runs[s.run];
    NotedCalls(st.log, k, "create_user");
    NotedCalls(st.log, k, "create_project");
    assert CallsOk(st.log, k);
    hide CallsOf;
    assert CallsOk(st.log + [k.pending.value], k.(pending := None));
    assert st.runs == map[s.run := k];
  }

  lemma {:induction false} OtherCalls(st: State, s: Step)
    requires SingleRun(st) && CallsInv(st) && Enabled(st, s) && !s.Start? && !s.Note?
    requires st.running ==> StageOk(st.teams, st.projects, st.runs[st.owner].stage)
    ensures CallsInv(Next(st, s))
  {
    hide Names, Ownership;
    if s.Hire? || s.Found? || s.Create? { WorkCalls(st, s); } else { QuietCalls(st, s); }
  }

  lemma {:induction false} WorkCalls(st: State, s: Step)
    requires SingleRun(st) && CallsInv(st) && Enabled(st, s) && (s.Hire? || s.Found? || s.Create?)
    requires st.running ==> StageOk(st.teams, st.projects, st.runs[st.owner].stage)
    ensures CallsInv(Next(st, s))
  {
    hide Names;
    assert st.runs == map[s.run := st.runs[s.run]];
    assert CallsOk(st.log, st.runs[s.run]);
    assert Next(st, s).log == st.log;
  }

  lemma {:induction false} QuietCalls(st: State, s: Step)
    requires SingleRun(st) && CallsInv(st) && Enabled(st, s) && !s.Start? && !s.Note?
    requires !(s.Hire? || s.Found? || s.Create?)
    requires st.running ==> StageOk(st.teams, st.projects, st.runs[st.owner].stage)
    ensures CallsInv(Next(st, s))
  {
    hide Names;
    assert Next(st, s).log == st.log;
    forall r | r in Next(st, s).runs
      ensures CallsOk(st.log, Next(st, s).runs[r])
    {
      assert CallsOk(st.log, st.runs[r]);
    }
  }

  // ---------- phases and lists ----------

  /** The ids of one team's projects, in the order of their creation. */
  function OwnedBy(projects: seq<Project>, team: nat): seq<int> {
    if projects == [] then []
    else
      var last := projects[|projects| - 1];
      OwnedBy(projects[..|projects| - 1], team) + if last.team == team then [last.id] else []
  }

  /** A team's list is the project list, filtered. */
  ghost predicate ListsOk(teams: seq<Team>, projects: seq<Project>) {
    && (forall t :: 0 <= t < |teams| ==> teams[t].projects == OwnedBy(projects, t))
    && (forall k :: 0 <= k < |projects| ==> projects[k].team < |teams|)
  }

  /** The phase says where the run is. A Stop that comes when the projects are set up already can be followed by the
      section that reports the run as running. */
  ghost predicate PhaseOk(st: State) {
    && (st.running <==> st.phase != Stopped)
    && (forall r :: r in st.runs && st.runs[r].cancelled ==> st.phase in {Stopping, Running})
    && (forall r :: r in st.runs && !st.runs[r].cancelled ==>
          st.phase == (if st.runs[r].stage.Acting? || st.runs[r].stage.Creating? then Running else Initializing))
  }

  lemma {:induction false} OwnedBySnoc(projects: seq<Project>, p: Project, team: nat)
    ensures OwnedBy(projects + [p], team) == OwnedBy(projects, team) + if p.team == team then [p.id] else []
  {
    assert (projects + [p])[..|projects|] == projects;
  }

  lemma {:induction false} ListsKept(st: State, s: Step)
    requires SingleRun(st) && ListsOk(st.teams, st.projects) && Enabled(st, s)
    requires st.running ==> StageOk(st.teams, st.projects, st.runs[st.owner].stage)
    ensures ListsOk(Next(st, s).teams, Next(st, s).projects)
  {
    match s
    case Hire(run, user) =>
    case Enter(run) =>
    case Found(run, project) => if project.Some? { ProjectAdded(st, st.runs[run].stage.i, project.value); }
    case Create(run, project) => if project.Some? { ProjectAdded(st, st.runs[run].stage.team, project.value); }
    case _ =>
    hide ListsOk;
  }

  lemma {:induction false} ProjectAdded(st: State, team: nat, id: int)
    requires ListsOk(st.teams, st.projects)
    ensures ListsOk(WithProject(st, team, id).teams, WithProject(st, team, id).projects)
  {
    if team < |st.teams| {
      forall t: nat
        ensures OwnedBy(st.projects + [Project(id, team)], t)
             == OwnedBy(st.projects, t) + if team == t then [id] else []
      {
        OwnedBySnoc(st.projects, Project(id, team), t);
      }
    }
  }

  lemma {:induction false} PhaseKept(st: State, s: Step)
    requires SingleRun(st) && PhaseOk(st) && Enabled(st, s)
    ensures PhaseOk(Next(st, s))
  {
  }

  /** A sequence of calls and goroutine sections from a fresh engine. */
  ghost predicate IsRun(states: seq<State>, steps: seq<Step>) {
    && |states| == |steps| + 1 && states[0] == NEW_ENGINE
    && forall k :: 0 <= k < |steps| ==> Enabled(states[k], steps[k]) && states[k + 1] == Next(states[k], steps[k])
  }

  lemma {:induction false} RunInv(states: seq<State>, steps: seq<Step>, k: nat)
    requires IsRun(states, steps) && k < |states|
    ensures Inv(states[k]) && ListsOk(states[k].teams, states[k].projects) && PhaseOk(states[k]) && CallsInv(states[k])
  {
    if k == 0 {
      NewEngineInv();
    } else {
      hide Enabled, Next, ListsOk, PhaseOk, CallsInv, Accounts, Ownership;
      RunInv(states, steps, k - 1);
      StepInv(states[k - 1], steps[k - 1]);
      ListsKept(states[k - 1], steps[k - 1]);
      PhaseKept(states[k - 1], steps[k - 1]);
      CallsKept(states[k - 1], steps[k - 1]);
    }
  }

  /** In every run: before the engine reports a run as running, exactly fifty users and five projects have been asked
      for, successfully or not, and no more users ever are. */
  lemma {:induction false} BootstrapCalls(states: seq<State>, steps: seq<Step>, k: nat, run: nat)
    requires IsRun(states, steps) && k < |states| && run in states[k].runs && states[k].runs[run].stage.Acting?
    ensures CallsOf(states[k].log, states[k].runs[run], "create_user") == 50
    ensures CallsOf(states[k].log, states[k].runs[run], "create_project") >= 5
  {
    RunInv(states, steps, k);
    assert CallsOk(states[k].log, states[k].runs[run]);
  }

  /** Over any Start and Stop calls and any API failures: at most one run is alive, the projects are exactly the
      teams' lists, no team owns more than two and all together at most ten, the total is the sum of the action
      counts, and the recent list is the newest thirty records of the current run, newest first. */
  lemma {:induction false} RunSafety(states: seq<State>, steps: seq<Step>, k: nat)
    requires IsRun(states, steps) && k < |states|
    ensures |states[k].runs| <= 1 && (states[k].running <==> states[k].phase != Stopped)
    ensures forall t :: 0 <= t < |states[k].teams| ==> states[k].teams[t].projects == OwnedBy(states[k].projects, t)
    ensures |states[k].projects| == ProjectCount(states[k].teams) <= 10
    ensures forall t :: 0 <= t < |states[k].teams| ==> |states[k].teams[t].projects| <= 2
    ensures forall a :: Count(states[k].stats.actions, a) == multiset(Names(states[k].log))[a]
    ensures states[k].stats.total == |multiset(Names(states[k].log))|
    ensures |states[k].recent| == (if |states[k].log| < 30 then |states[k].log| else 30)
    ensures forall i :: 0 <= i < |states[k].recent| ==> states[k].recent[i] == states[k].log[|states[k].log| - 1 - i]
  {
    RunInv(states, steps, k);
    var st := states[k];
    ProjectCountBound(st.teams);
    NamesLength(st.log);
    assert st.running ==> |st.runs| == |st.runs.Keys| == 1;
  }

  lemma {:induction false} NamesLength(log: seq<Record>)
    ensures |Names(log)| == |log|
  {
    if log != [] { NamesLength(log[..|log| - 1]); }
  }

  // ---------- the engine object ----------

  /** The ids of the users created for one team by the first n calls: the workforce is dealt round-robin. */
  function Dealt(users: seq<Option<int>>, team: nat, n: nat): seq<int>
    requires n <= |users|
  {
    if n == 0 then []
    else if (n - 1) % TEAMS == team && users[n - 1].Some? then Dealt(users, team, n - 1) + [users[n - 1].value]
    else Dealt(users, team, n - 1)
  }

  function Hires(users: seq<Option<int>>, n: nat): seq<Record>
    requires n <= |users|
  {
    if n == 0 then [] else Hires(users, n - 1) + [Record("create_user", users[n - 1].Some?)]
  }

  /** The teams after the first n users of the hiring loop. */
  function HiredTeams(teams: seq<Team>, users: seq<Option<int>>, n: nat): seq<Team>
    requires n <= |users|
  {
    if n == 0 then teams
    else
      var before := HiredTeams(teams, users, n - 1);
      if users[n - 1].Some? then WithWorker(before, (n - 1) % TEAMS, users[n - 1].value) else before
  }

  /** User i joins team i mod 5, in order, and nothing else about the teams changes. */
  lemma {:induction false} HiredRoundRobin(teams: seq<Team>, users: seq<Option<int>>, n: nat, t: nat)
    requires n <= |users| && |teams| == TEAMS && t < TEAMS
    ensures |HiredTeams(teams, users, n)| == TEAMS
    ensures HiredTeams(teams, users, n)[t] == Team(teams[t].workers + Dealt(users, t, n), teams[t].projects)
  {
    if n > 0 { HiredRoundRobin(teams, users, n - 1, t); }
  }

  /** The state after some steps, if each is enabled when its turn comes. */
  function After(st: State, steps: seq<Step>): Option<State> {
    if steps == [] then Some(st)
    else
      match After(st, steps[..|steps| - 1])
      case None => None
      case Some(mid) => if Enabled(mid, steps[|steps| - 1]) then Some(Next(mid, steps[|steps| - 1])) else None
  }

  lemma {:induction false} AfterSnoc(st: State, steps: seq<Step>, mid: State, s: Step)
    requires After(st, steps) == Some(mid) && Enabled(mid, s)
    ensures After(st, steps + [s]) == Some(Next(mid, s))
  {
    hide Enabled, Next;
    assert (steps + [s])[..|steps|] == steps;
  }

  /** The hiring loop is a run of the engine: n rounds of a call, its result and its record. */
  lemma {:induction false} HiringIsARun(st: State, run: nat, users: seq<Option<int>>, n: nat)
    returns (steps: seq<Step>, st': State)
    requires run in st.runs && st.runs[run] == Run(st.session, false, Hiring(0), None)
    requires n <= |users| == WORKFORCE
    ensures After(st, steps) == Some(st')
    ensures st'.teams == HiredTeams(st.teams, users, n) && st'.log == st.log + Hires(users, n)
    ensures st' == st.(teams := st'.teams, log := st'.log, stats := st'.stats, recent := st'.recent, runs := st'.runs)
    ensures st'.runs == st.runs[run := Run(st.session, false, Hiring(n), None)]
  {
    if n == 0 {
      steps, st' := [], st;
      assert st.runs == st.runs[run := st.runs[run]];
    } else {
      var before: State;
      steps, before := HiringIsARun(st, run, users, n - 1);
      hide After, HiredTeams, Hires;
      var hire := Hire(run, users[n - 1]);
      AfterSnoc(st, steps, before, hire);
      var hired := Next(before, hire);
      AfterSnoc(st, steps + [hire], hired, Note(run));
      steps, st' := steps + [hire] + [Note(run)], Next(hired, Note(run));
      OneHire(st, before, run, users, n);
    }
  }

  lemma {:induction false} OneHire(st: State, before: State, run: nat, users: seq<Option<int>>, n: nat)
    requires run in st.runs && 0 < n <= |users| == WORKFORCE
    requires before.teams == HiredTeams(st.teams, users, n - 1) && before.log == st.log + Hires(users, n - 1)
    requires before.runs == st.runs[run := Run(st.session, false, Hiring(n - 1), None)]
    ensures Enabled(before, Hire(run, users[n - 1])) && Enabled(Next(before, Hire(run, users[n - 1])), Note(run))
    ensures var st' := Next(Next(before, Hire(run, users[n - 1])), Note(run));
            && st'.teams == HiredTeams(st.teams, users, n) && st'.log == st.log + Hires(users, n)
            && st' == before.(teams := st'.teams, log := st'.log, stats := st'.stats, recent := st'.recent,
                              runs := st'.runs)
            && st'.runs == st.runs[run := Run(st.session, false, Hiring(n), None)]
  {
    hide Accounts;
    var mid := Next(before, Hire(run, users[n - 1]));
    var pending := Some(Record("create_user", users[n - 1].Some?));
    assert mid.runs == st.runs[run := Run(st.session, false, Hiring(n), pending)];
  }

  function Results(outcome: Option<bool>): seq<Record> {
    match outcome
    case None => []
    case Some(ok) => [Record("create_task", ok)]
  }

  /** What founding one team's project records: the project, and if it was created, two attempts at a task. */
  function FoundingLog(project: Option<int>, first: Option<bool>, second: Option<bool>): seq<Record> {
    [Record("create_project", project.Some?)] + if project.Some? then Results(first) + Results(second) else []
  }

  /** One round of the second bootstrap loop is a run of the engine: the project goes to team i, and exactly if it was
      created two attempts at a task follow. */
  lemma {:induction false} FoundingIsARun(
    st: State, run: nat, i: nat, project: Option<int>, first: Option<bool>, second: Option<bool>)
    returns (steps: seq<Step>, st': State)
    requires run in st.runs && st.runs[run] == Run(st.session, false, Founding(i), None) && i < 5 == |st.teams|
    ensures After(st, steps) == Some(st') && run in st'.runs
    ensures st'.runs[run] == Run(st.session, false, Founding(i + 1), None) && st'.session == st.session
    ensures st'.log == st.log + FoundingLog(project, first, second) && |st'.teams| == 5
    ensures st'.projects == st.projects + if project.Some? then [Project(project.value, i)] else []
    ensures project.Some? ==> st'.teams[i].projects == st.teams[i].projects + [project.value]
  {
    hide After;
    steps, st' := FoundOnce(st, run, i, project);
    hide Enabled, Next;
    if project.Some? {
      steps, st' := SeedOnce(st, steps, st', run, i, 2, first);
      steps, st' := SeedOnce(st, steps, st', run, i, 1, second);
      steps, st' := NextTeam(st, steps, st', run, i);
    }
  }

  lemma {:induction false} FoundOnce(st: State, run: nat, i: nat, project: Option<int>)
    returns (steps: seq<Step>, st': State)
    requires run in st.runs && st.runs[run] == Run(st.session, false, Founding(i), None) && i < 5 == |st.teams|
    ensures After(st, steps) == Some(st') && run in st'.runs && st'.session == st.session && |st'.teams| == 5
    ensures st'.runs[run]
         == Run(st.session, false, if project.Some? then Seeding(i, 2) else Founding(i + 1), None)
    ensures st'.log == st.log + [Record("create_project", project.Some?)]
    ensures st'.projects == st.projects + if project.Some? then [Project(project.value, i)] else []
    ensures project.Some? ==> st'.teams[i].projects == st.teams[i].projects + [project.value]
  {
    assert After(st, []) == Some(st);
    hide After;
    steps, st' := Go(st, [], st, Found(run, project));
    steps, st' := Go(st, steps, st', Note(run));
  }

  lemma {:induction false} NextTeam(st: State, steps: seq<Step>, mid: State, run: nat, i: nat)
    returns (more: seq<Step>, st': State)
    requires After(st, steps) == Some(mid) && run in mid.runs
    requires mid.runs[run] == Run(mid.session, false, Seeding(i, 0), None)
    ensures After(st, more) == Some(st') && run in st'.runs
    ensures st'.runs[run] == Run(mid.session, false, Founding(i + 1), None) && st'.session == mid.session
    ensures st'.log == mid.log && st'.teams == mid.teams && st'.projects == mid.projects
  {
    more, st' := Go(st, steps, mid, Advance(run));
  }

  lemma {:induction false} Go(st: State, steps: seq<Step>, mid: State, s: Step) returns (more: seq<Step>, st': State)
    requires After(st, steps) == Some(mid) && Enabled(mid, s)
    ensures After(st, more) == Some(st') && st' == Next(mid, s)
  {
    AfterSnoc(st, steps, mid, s);
    more, st' := steps + [s], Next(mid, s);
  }

  /** One attempt at a task; nothing is recorded if the team has no members. */
  lemma {:induction false} SeedOnce(
    st: State, steps: seq<Step>, mid: State, run: nat, i: nat, left: nat, outcome: Option<bool>)
    returns (more: seq<Step>, st': State)
    requires After(st, steps) == Some(mid) && run in mid.runs && left > 0
    requires mid.runs[run] == Run(mid.session, false, Seeding(i, left), None)
    ensures After(st, more) == Some(st') && run in st'.runs
    ensures st'.runs[run] == Run(mid.session, false, Seeding(i, left - 1), None) && st'.session == mid.session
    ensures st'.log == mid.log + Results(outcome) && st'.teams == mid.teams && st'.projects == mid.projects
    ensures !Enabled(mid, Advance(run))
  {
    more, st' := Go(st, steps, mid, Seed(run, outcome));
    if outcome.Some? { more, st' := Go(st, more, st', Note(run)); }
  }

  /** A Stop between two rounds ends the loop at its next check. */
  lemma {:induction false} StopEndsHiring(st: State, run: nat, n: nat)
    requires SingleRun(st) && st.running && st.owner == run
    requires st.runs[run] == Run(st.session, false, Hiring(n), None)
    ensures After(st, [Stop, Abort(run)])
         == Some(st.(phase := Stopping, runs := map[run := Run(st.session, true, Leaving, None)]))
    ensures forall user :: !Enabled(AfterStop(st), Hire(run, user))
  {
    assert [] + [Stop] == [Stop] && [Stop] + [Abort(run)] == [Stop, Abort(run)];
    AfterSnoc(st, [], st, Stop);
    AfterSnoc(st, [Stop], AfterStop(st), Abort(run));
    assert st.runs == map[run := st.runs[run]];
    assert st.runs[run := Run(st.session, true, Hiring(n), None)] == map[run := Run(st.session, true, Hiring(n), None)];
    var ended := Run(st.session, true, Leaving, None);
    assert map[run := Run(st.session, true, Hiring(n), None)][run := ended] == map[run := ended];
  }

  class Engine {
    var running: bool
    var phase: Phase
    var session: nat
    var teams: seq<Team>
    var projects: seq<Project>
    var stats: Stats
    var recent: seq<Record>
    ghost var runs: map<nat, Run>
    ghost var owner: nat
    ghost var log: seq<Record>

    ghost function V(): State
      reads this
    {
      State(running, phase, session, teams, projects, stats, recent, runs, owner, log)
    }

    constructor ()
      ensures V() == NEW_ENGINE && Inv(V())
    {
      running, phase, session := false, Stopped, 0;
      teams, projects, stats, recent := [], [], NO_STATS, [];
      runs, owner, log := map[], 0, [];
      new;
      NewEngineInv();
    }

    /** Start after the health check. A second Start while a run is alive changes nothing. */
    method StartRun(ghost run: nat, newSession: nat)
      requires Inv(V()) && run !in runs
      modifies this
      ensures V() == AfterStart(old(V()), run, newSession) && Inv(V())
      ensures old(running) ==> V() == old(V())
      ensures !old(running) ==>
                && running && phase == Initializing && session == newSession && teams == [] && projects == []
                && stats == Stats(0, 0, map[]) && recent == []
                && runs == map[run := Run(session, false, Entering, None)]
    {
      StepInv(V(), Start(run, newSession));
      if running { return; }
      runs := runs[run := Run(newSession, false, Entering, None)];
      owner, log := run, [];
      running, phase, session := true, Initializing, newSession;
      teams, projects, stats, recent := [], [], NO_STATS, [];
    }

    method StopRun()
      requires Inv(V())
      modifies this
      ensures V() == AfterStop(old(V())) && Inv(V())
      ensures if !old(running) then V() == old(V())
              else
                && phase == Stopping && (forall r :: r in runs ==> runs[r].cancelled) && runs.Keys == old(runs).Keys
                && running && session == old(session) && teams == old(teams) && projects == old(projects)
                && stats == old(stats) && recent == old(recent)
    {
      StepInv(V(), Stop);
      if running {
        phase := Stopping;
        runs := runs[owner := runs[owner].(cancelled := true)];
      }
    }

    /** record: count the action, remember it, keep the newest thirty. */
    method RecordOne(r: Record)
      requires Accounts(stats, recent, log)
      modifies this`stats, this`recent, this`log
      ensures V() == Recorded(old(V()), r) && Accounts(stats, recent, log) && log == old(log) + [r]
      ensures stats.total == old(stats).total + 1 && recent[0] == r && |recent| <= 30
      ensures stats.errors == old(stats).errors + if r.success then 0 else 1
    {
      RecordedAccounts(V(), r);
      var actions := stats.actions[r.action := Count(stats.actions, r.action) + 1];
      stats := Stats(stats.total + 1, if r.success then stats.errors else stats.errors + 1, actions);
      recent := [r] + recent;
      if |recent| > RECENT { recent := recent[..RECENT]; }
      log := log + [r];
    }

    /** The hiring loop of bootstrap; failed calls are recorded and skipped. `stopped` says, for each iteration, whether
        the run's context was cancelled when the loop looked: the first time it was ends the loop. */
    method HireAll(users: seq<Option<int>>, stopped: seq<bool>) returns (hired: nat, complete: bool)
      requires |users| == |stopped| == WORKFORCE && Accounts(stats, recent, log)
      modifies this`teams, this`stats, this`recent, this`log
      ensures hired <= WORKFORCE && complete == (true !in stopped)
      ensures complete ==> hired == WORKFORCE
      ensures !complete ==> hired < WORKFORCE && stopped[hired] && true !in stopped[..hired]
      ensures Accounts(stats, recent, log) && log == old(log) + Hires(users, hired)
      ensures teams == HiredTeams(old(teams), users, hired)
    {
      hide Accounts, Recorded;
      var i := 0;
      while i < WORKFORCE
        invariant 0 <= i <= WORKFORCE && Accounts(stats, recent, log)
        invariant forall k :: 0 <= k < i ==> !stopped[k]
        invariant log == old(log) + Hires(users, i)
        invariant teams == HiredTeams(old(teams), users, i)
      {
        if stopped[i] { return i, false; }
        var user := users[i];
        if user.Some? { teams := WithWorker(teams, i % TEAMS, user.value); }
        RecordOne(Record("create_user", user.Some?));
        i := i + 1;
      }
      return i, true;
    }
  }
}
