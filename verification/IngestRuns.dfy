/**
  One ingest run from lock to release, and any sequence of runs: what a run does
  to the database, to the process-local progress and to the lock, with a failure
  possible at every step up to and including the commit itself.
 */
module IngestRuns {
  import opened Wrappers
  import opened Records
  import opened Snapshots
  import opened Reconcile

  datatype Failure = OpenFailed | NotConfigured | FetchFailed | Refused | WrongAccount | CommitFailed

  datatype Phase = Idle | Acquiring | Validated | Committing

  datatype Progress = Progress(
    phase: Phase, done: int, total: int, runId: Option<nat>, startedAt: Option<int>, lastError: Option<Failure>)

  datatype RunRow = RunRow(
    trigger: string, startedAt: int, finishedAt: Option<int>, committedAt: Option<int>, sourceAt: Option<int>,
    fetched: nat, counts: Option<Counts>, dataChanged: bool, error: Option<Failure>)

  datatype Sync = Sync(
    lastCommittedAt: Option<int>, lastSourceAt: Option<int>,
    lastAttemptAt: Option<int>, lastAttemptOk: Option<bool>, lastAttemptError: Option<Failure>)

  /** The committed contents of the database. */
  datatype Store = Store(tables: Tables, sync: Sync, runs: map<nat, RunRow>, nextRun: nat)

  /** Everything a run meets outside the process: the clock, the configuration, the source, database failures. */
  datatype World = World(
    trigger: string, startedAt: int, committedAt: int, finishedAt: int,
    openFails: bool, login: Option<string>, fetched: Option<Json>,
    faults: set<nat>, recordFails: bool)

  datatype Summary = Summary(runId: nat, committedAt: int, sourceAt: int, counts: Counts, dataChanged: bool)

  datatype Outcome = Skipped | Done(summary: Summary) | Failed(error: Failure)

  // --------------------------------------------------------- specification

  function Total(s: Snapshot): nat {
    |s.repositories| + |s.issues| + |s.pulls|
  }

  /** Statements of the transaction: the upserts, one observation, three deletes, two bookkeeping rows, the commit. */
  function Statements(s: Snapshot): nat {
    Total(s) + 7
  }

  /** Acquisition and validation: configuration, source, boundary, account. */
  ghost function Acquired(h: Host, w: World): Result<Snapshot, Failure> {
    if w.login.None? then Err(NotConfigured)
    else if w.fetched.None? then Err(FetchFailed)
    else if !Acceptable(h, w.fetched.value) then Err(Refused)
    else if h.casefold(Normalized(h, w.fetched.value).login) != h.casefold(w.login.value) then Err(WrongAccount)
    else Ok(Normalized(h, w.fetched.value))
  }

  /** How a run that holds the lock ends: with a snapshot committed, or with the failure that stops it. */
  ghost function Verdict(h: Host, w: World): Result<Snapshot, Failure> {
    if w.openFails then Err(OpenFailed)
    else if Acquired(h, w).Ok? && !Clean(w.faults, 0, Statements(Acquired(h, w).value)) then Err(CommitFailed)
    else Acquired(h, w)
  }

  function Opened(st: Store, w: World): Store {
    st.(runs := st.runs[st.nextRun :=
                          RunRow(w.trigger, w.startedAt, None, None, None, 0, None, false, None)],
        nextRun := st.nextRun + 1)
  }

  function SyncFailed(sync: Sync, w: World, error: Failure): Sync {
    sync.(lastAttemptAt := Some(w.finishedAt), lastAttemptOk := Some(false), lastAttemptError := Some(error))
  }

  function Committed(st: Store, w: World, runId: nat, s: Snapshot): Store {
    var counts := ExactCounts(st.tables, s);
    Store(
      Reconciled(st.tables, s, w.committedAt),
      Sync(Some(w.committedAt), Some(s.sourceAt), Some(w.committedAt), Some(true), None),
      st.runs[runId := RunRow(w.trigger, w.startedAt, Some(w.finishedAt), Some(w.committedAt), Some(s.sourceAt),
                              Total(s), Some(counts), AnyCount(counts), None)],
      st.nextRun)
  }

  /** The failure bookkeeping, which is itself one transaction and may fail silently. */
  function Recorded(st: Store, w: World, runId: Option<nat>, error: Failure): Store {
    if w.recordFails then st
    else if runId.Some? && runId.value in st.runs then
      st.(sync := SyncFailed(st.sync, w, error),
          runs := st.runs[runId.value :=
                            st.runs[runId.value].(finishedAt := Some(w.finishedAt), error := Some(error))])
    else st.(sync := SyncFailed(st.sync, w, error))
  }

  /** The database after one run that took the lock. */
  ghost function AfterRun(h: Host, st: Store, w: World): Store {
    match Verdict(h, w)
    case Ok(s) => Committed(Opened(st, w), w, st.nextRun, s)
    case Err(OpenFailed) => Recorded(st, w, None, OpenFailed)
    case Err(e) => Recorded(Opened(st, w), w, Some(st.nextRun), e)
  }

  predicate Bounded(p: Progress) {
    0 <= p.done <= p.total && (p.phase == Idle ==> p.total == 0 && p.runId.None? && p.startedAt.None?)
  }

  ghost predicate AllBounded(trace: seq<Progress>) {
    forall i :: 0 <= i < |trace| ==> Bounded(trace[i])
  }

  function AtRest(error: Option<Failure>): Progress {
    Progress(Idle, 0, 0, None, None, error)
  }

  /** What the three upsert loops publish from statement from on: one value after each loop that succeeds. */
  function Checkpoints(p: Progress, faults: set<nat>, from: nat, s: Snapshot): seq<Progress> {
    if !Clean(faults, from, from + |s.repositories|) then []
    else [p.(done := |s.repositories|)] + ItemCheckpoints(p, faults, from + |s.repositories|, s)
  }

  function ItemCheckpoints(p: Progress, faults: set<nat>, from: nat, s: Snapshot): seq<Progress> {
    if !Clean(faults, from, from + |s.issues|) then []
    else
      var after := p.(done := |s.repositories| + |s.issues|);
      if !Clean(faults, from + |s.issues|, from + |s.issues| + |s.pulls|) then [after]
      else [after, p.(done := Total(s))]
  }

  /** What a run publishes up to its end. */
  ghost function Working(h: Host, st: Store, w: World): seq<Progress> {
    var begun := Progress(Acquiring, 0, 0, None, Some(w.startedAt), None);
    var open := begun.(runId := Some(st.nextRun));
    if w.openFails then [begun]
    else
      match Acquired(h, w)
      case Err(_) => [begun, open]
      case Ok(s) =>
        var committing := open.(phase := Committing, total := Total(s));
        [begun, open, open.(phase := Validated, total := Total(s)), committing]
        + Checkpoints(committing, w.faults, 0, s)
  }

  lemma WorkingCases(trace: seq<Progress>, h: Host, st: Store, w: World)
    ensures var begun := Progress(Acquiring, 0, 0, None, Some(w.startedAt), None);
      var open := begun.(runId := Some(st.nextRun));
      trace + Working(h, st, w)
      == if w.openFails then trace + [begun]
         else if Acquired(h, w).Err? then trace + [begun] + [open]
         else
           var s := Acquired(h, w).value;
           var committing := open.(phase := Committing, total := Total(s));
           trace + [begun] + [open] + [open.(phase := Validated, total := Total(s))] + [committing]
           + Checkpoints(committing, w.faults, 0, s)
    ensures Acquired(h, w).Err? ==> Acquired(h, w).error != OpenFailed
  {
    hide Checkpoints;
    if !w.openFails && Acquired(h, w).Ok? {
      var s := Acquired(h, w).value;
      var begun := Progress(Acquiring, 0, 0, None, Some(w.startedAt), None);
      var open := begun.(runId := Some(st.nextRun));
      var committing := open.(phase := Committing, total := Total(s));
      var four := [begun, open, open.(phase := Validated, total := Total(s)), committing];
      assert trace + [begun] + [open] + [open.(phase := Validated, total := Total(s))] + [committing] == trace + four;
      assert trace + four + Checkpoints(committing, w.faults, 0, s)
          == trace + (four + Checkpoints(committing, w.faults, 0, s));
    }
  }

  /** What a run publishes: its work, and then that it is at rest, with its error if there was one. */
  ghost function Published(h: Host, st: Store, w: World): seq<Progress> {
    Working(h, st, w) + [AtRest(match Verdict(h, w) case Ok(_) => None case Err(e) => Some(e))]
  }

  /** The upserted tables and their counts, loop by loop. */
  lemma UpsertedParts(t: Tables, s: Snapshot, at: int)
    ensures var counts := ExactCounts(t, s);
      && Upserted(t, s, at) == Tables(UpsertedRepos(t.repos, RowMap(s.repositories), at),
                                      t.issues + RowMap(s.issues), t.pulls + RowMap(s.pulls))
      && counts.repositoriesUpserted == |Changed(FieldsOf(t.repos), RowMap(s.repositories))|
      && counts.issuesUpserted == |Changed(t.issues, RowMap(s.issues))|
      && counts.pullsUpserted == |Changed(t.pulls, RowMap(s.pulls))|
  {
  }

  /** The state of a transaction and its progress. */
  datatype Work = Work(tables: Tables, executed: nat, progress: Progress, trace: seq<Progress>)

  /** What the loop over the repositories does: all of it, with one progress value, or it fails. */
  ghost predicate RepositoriesRan(w: Work, w': Work, faults: set<nat>, s: Snapshot, at: int, ok: bool, n: nat) {
    && (ok <==> Clean(faults, w.executed, w.executed + |s.repositories|))
    && (if ok then
          && w'.tables == w.tables.(repos := UpsertedRepos(w.tables.repos, RowMap(s.repositories), at))
          && w'.executed == w.executed + |s.repositories|
          && w'.progress == w.progress.(done := |s.repositories|) && w'.trace == w.trace + [w'.progress]
          && n == |Changed(FieldsOf(w.tables.repos), RowMap(s.repositories))|
        else w'.progress == w.progress && w'.trace == w.trace)
  }

  /** What the loops over issues and pull requests do. */
  ghost predicate ItemsRan(w: Work, w': Work, faults: set<nat>, s: Snapshot, ok: bool, issues: nat, pulls: nat) {
    && (ok <==> Clean(faults, w.executed, w.executed + |s.issues| + |s.pulls|))
    && w'.trace == w.trace + ItemCheckpoints(w.progress, faults, w.executed, s)
    && (ok ==>
          && w'.tables == w.tables.(issues := w.tables.issues + RowMap(s.issues),
                                    pulls := w.tables.pulls + RowMap(s.pulls))
          && w'.executed == w.executed + |s.issues| + |s.pulls|
          && issues == |Changed(w.tables.issues, RowMap(s.issues))|
          && pulls == |Changed(w.tables.pulls, RowMap(s.pulls))|)
  }

  /** What all three loops do. */
  ghost predicate UpsertsRan(
    w: Work, w': Work, faults: set<nat>, s: Snapshot, at: int, ok: bool, repositories: nat, issues: nat, pulls: nat)
  {
    && (ok <==> Clean(faults, w.executed, w.executed + Total(s)))
    && w'.trace == w.trace + Checkpoints(w.progress, faults, w.executed, s)
    && (ok ==>
          && w'.tables == Upserted(w.tables, s, at) && w'.executed == w.executed + Total(s)
          && repositories == ExactCounts(w.tables, s).repositoriesUpserted
          && issues == ExactCounts(w.tables, s).issuesUpserted
          && pulls == ExactCounts(w.tables, s).pullsUpserted)
  }

  lemma ItemsReady(w0: Work, w1: Work, faults: set<nat>, s: Snapshot, at: int, n: nat)
    requires RepositoriesRan(w0, w1, faults, s, at, true, n) && Consistent(s)
    ensures Distinct(s.issues) && Distinct(s.pulls)
    ensures IssuesStorable(s.issues, w1.tables.repos.Keys) && PullsStorable(s.pulls, w1.tables.repos.Keys)
  {
    UpsertedHasRepos(w0.tables, s, at);
  }

  lemma FirstLoopFailed(w0: Work, w1: Work, faults: set<nat>, s: Snapshot, at: int, n: nat)
    requires RepositoriesRan(w0, w1, faults, s, at, false, n)
    ensures UpsertsRan(w0, w1, faults, s, at, false, n, 0, 0)
  {
    CleanSplit(faults, w0.executed, w0.executed + |s.repositories|, w0.executed + Total(s));
    hide ItemCheckpoints, Clean;
    assert w0.trace + [] == w0.trace;
  }

  lemma LoopsRan(
    w0: Work, w1: Work, w2: Work, faults: set<nat>, s: Snapshot, at: int, ok: bool,
    repositories: nat, issues: nat, pulls: nat)
    requires RepositoriesRan(w0, w1, faults, s, at, true, repositories)
    requires ItemsRan(w1, w2, faults, s, ok, issues, pulls)
    ensures UpsertsRan(w0, w2, faults, s, at, ok, repositories, issues, pulls)
  {
    var middle := w0.executed + |s.repositories|;
    CleanSplit(faults, w0.executed, middle, w0.executed + Total(s));
    ItemsForgetDone(w0.progress, w1.progress, faults, middle, s);
    hide ItemCheckpoints, Clean;
    assert w0.trace + [w1.progress] + ItemCheckpoints(w0.progress, faults, middle, s)
        == w0.trace + ([w1.progress] + ItemCheckpoints(w0.progress, faults, middle, s));
  }

  lemma ItemsForgetDone(p: Progress, q: Progress, faults: set<nat>, from: nat, s: Snapshot)
    requires q == p.(done := q.done)
    ensures ItemCheckpoints(p, faults, from, s) == ItemCheckpoints(q, faults, from, s)
  {
  }

  lemma EndsPublished(trace: seq<Progress>, h: Host, st: Store, w: World)
    ensures Verdict(h, w).Ok? ==> trace + Published(h, st, w) == trace + Working(h, st, w) + [AtRest(None)]
    ensures Verdict(h, w).Err? ==>
      trace + Published(h, st, w) == trace + Working(h, st, w) + [AtRest(Some(Verdict(h, w).error))]
  {
    hide Working, Verdict;
  }

  // ------------------------------------------------------------ the process

  /** Process-local run state next to the database it writes. trace is every progress value ever published. */
  class Ingest {
    var progress: Progress
    var locked: bool
    var store: Store
    ghost var trace: seq<Progress>

    constructor (store: Store)
      ensures this.store == store && !locked && progress == AtRest(None) && trace == [progress] && AllBounded(trace)
    {
      this.store, locked, progress := store, false, AtRest(None);
      trace := [AtRest(None)];
    }

    method SetProgress(p: Progress)
      requires AllBounded(trace) && Bounded(p)
      modifies this`progress, this`trace
      ensures progress == p && trace == old(trace) + [p] && AllBounded(trace)
    {
      progress := p;
      trace := trace + [p];
    }

    method OpenRun(w: World) returns (runId: Option<nat>)
      modifies this`store
      ensures w.openFails ==> runId.None? && store == old(store)
      ensures !w.openFails ==> runId == Some(old(store).nextRun) && store == Opened(old(store), w)
    {
      if w.openFails {
        return None;
      }
      runId := Some(store.nextRun);
      store := Opened(store, w);
    }

    /** Either the row of the run and the health row get the error, or nothing changes; never another row. */
    method RecordFailure(runId: Option<nat>, w: World, error: Failure)
      modifies this`store
      ensures store == Recorded(old(store), w, runId, error)
      ensures w.recordFails ==> store == old(store)
      ensures !w.recordFails ==> store.sync.lastAttemptOk == Some(false) && store.sync.lastAttemptError == Some(error)
      ensures store.sync.lastCommittedAt == old(store).sync.lastCommittedAt && store.tables == old(store).tables
      ensures store.runs.Keys == old(store).runs.Keys && forall id :: id in old(store).runs ==>
        if runId == Some(id) && !w.recordFails then store.runs[id].error == Some(error)
        else store.runs[id] == old(store).runs[id]
    {
      store := Recorded(store, w, runId, error);
    }

    /** Where the transaction and its progress stand. */
    ghost function At(c: Connection): Work
      reads this, c
    {
      Work(c.tables, c.executed, progress, trace)
    }

    /** The loop over the repositories, with the progress it publishes. */
    method ApplyRepositories(c: Connection, s: Snapshot, at: int) returns (ok: bool, repositories: nat)
      requires AllBounded(trace) && SchemaOk(c.tables) && Consistent(s)
      requires progress.phase == Committing && progress.total == Total(s)
      modifies c, this`progress, this`trace
      ensures RepositoriesRan(old(At(c)), At(c), c.faults, s, at, ok, repositories)
      ensures AllBounded(trace) && progress.phase == Committing && progress.total == Total(s)
      ensures ok ==> SchemaOk(c.tables)
    {
      UpsertedHasRepos(c.tables, s, at);
      assert Distinct(s.repositories);
      hide Clean, RowMap, UpsertedRepos, Changed, FieldsOf, SchemaOk, Consistent, ReposStorable;
      ok, repositories := UpsertRepositories(c, s.repositories, at);
      if ok {
        SetProgress(progress.(done := |s.repositories|));
      }
    }

    /** The loops over issues and pull requests, with the progress they publish. */
    method ApplyItems(c: Connection, s: Snapshot) returns (ok: bool, issues: nat, pulls: nat)
      requires AllBounded(trace) && SchemaOk(c.tables) && Distinct(s.issues) && Distinct(s.pulls)
      requires IssuesStorable(s.issues, c.tables.repos.Keys) && PullsStorable(s.pulls, c.tables.repos.Keys)
      requires progress.phase == Committing && progress.total == Total(s)
      modifies c, this`progress, this`trace
      ensures ItemsRan(old(At(c)), At(c), c.faults, s, ok, issues, pulls)
      ensures AllBounded(trace) && progress.phase == Committing
      ensures ok ==> SchemaOk(c.tables)
    {
      hide Clean, RowMap, Changed, SchemaOk, IssuesStorable, PullsStorable;
      pulls := 0;
      ghost var before := trace;
      CleanSplit(c.faults, c.executed, c.executed + |s.issues|, c.executed + |s.issues| + |s.pulls|);
      ok, issues := UpsertIssues(c, s.issues);
      if !ok {
        assert before + [] == before;
        return;
      }
      var after := progress.(done := |s.repositories| + |s.issues|);
      SetProgress(after);
      ok, pulls := UpsertPullRequests(c, s.pulls);
      if !ok {
        return;
      }
      SetProgress(progress.(done := Total(s)));
      assert before + [after] + [progress] == before + [after, progress];
    }

    /** The three upsert loops, with the progress they publish. */
    method ApplyUpserts(c: Connection, s: Snapshot, at: int)
      returns (ok: bool, repositories: nat, issues: nat, pulls: nat)
      requires AllBounded(trace) && SchemaOk(c.tables) && Consistent(s)
      requires progress.phase == Committing && progress.done == 0 && progress.total == Total(s)
      modifies c, this`progress, this`trace
      ensures UpsertsRan(old(At(c)), At(c), c.faults, s, at, ok, repositories, issues, pulls)
      ensures AllBounded(trace) && progress.phase == Committing
      ensures ok ==> SchemaOk(c.tables)
    {
      issues, pulls := 0, 0;
      hide *;
      ghost var w0 := At(c);
      ok, repositories := ApplyRepositories(c, s, at);
      ghost var w1 := At(c);
      if ok {
        ItemsReady(w0, w1, c.faults, s, at, repositories);
        ok, issues, pulls := ApplyItems(c, s);
        LoopsRan(w0, w1, At(c), c.faults, s, at, ok, repositories, issues, pulls);
      } else {
        FirstLoopFailed(w0, w1, c.faults, s, at, repositories);
      }
    }

    /** Applies a snapshot in one transaction: every statement succeeds and all of it is visible, or nothing is. */
    method CommitSnapshot(runId: nat, w: World, s: Snapshot) returns (r: Option<Summary>)
      requires AllBounded(trace) && SchemaOk(store.tables) && Consistent(s)
      modifies this`store, this`progress, this`trace
      ensures r.Some? <==> Clean(w.faults, 0, Statements(s))
      ensures r.None? ==> store == old(store)
      ensures r.Some? ==> store == Committed(old(store), w, runId, s)
      ensures r.Some? ==> r.value.counts == ExactCounts(old(store).tables, s)
      ensures r.Some? ==> r.value.dataChanged == AnyCount(r.value.counts)
      ensures var committing := old(progress).(phase := Committing, total := Total(s), done := 0);
        trace == old(trace) + [committing] + Checkpoints(committing, w.faults, 0, s)
      ensures AllBounded(trace)
      ensures progress.phase == Committing
    {
      r := None;
      SetProgress(progress.(phase := Committing, total := Total(s), done := 0));
      var c := new Connection(store.tables, w.faults);
      CleanSplit(w.faults, 0, Total(s), Statements(s));
      CleanSplit(w.faults, Total(s), Total(s) + 4, Statements(s));
      var ok, repositoriesUpserted, issuesUpserted, pullsUpserted := ApplyUpserts(c, s, w.committedAt);
      if !ok {
        return;
      }
      var repositoriesDeleted, issuesDeleted, pullsDeleted;
      ok, repositoriesDeleted, issuesDeleted, pullsDeleted := ApplyDeletes(c, s, w.committedAt, store.tables);
      if !ok {
        return;
      }
      var counts := Counts(repositoriesUpserted, issuesUpserted, pullsUpserted,
                           repositoriesDeleted, issuesDeleted, pullsDeleted);
      var next;
      ok, next := WriteMarkersAndCommit(c, store, runId, w, s, counts);
      if !ok {
        return;
      }
      store := next;
      r := Some(Summary(runId, w.committedAt, s.sourceAt, counts, AnyCount(counts)));
    }

    /** The guarded part of a run: everything between taking the lock and the failure handler. */
    method Attempt(h: Host, w: World) returns (runId: Option<nat>, r: Result<Summary, Failure>)
      requires AllBounded(trace) && SchemaOk(store.tables)
      modifies this`store, this`progress, this`trace
      ensures Verdict(h, w).Ok? <==> r.Ok?
      ensures r.Err? ==> Verdict(h, w) == Err(r.error)
      ensures r.Err? ==> runId == (if r.error == OpenFailed then None else Some(old(store).nextRun))
      ensures r.Err? ==> store == if r.error == OpenFailed then old(store) else Opened(old(store), w)
      ensures r.Ok? ==> store == AfterRun(h, old(store), w)
      ensures r.Ok? ==> r.value.counts == ExactCounts(old(store).tables, Verdict(h, w).value)
      ensures r.Ok? ==> r.value.dataChanged == AnyCount(r.value.counts)
      ensures trace == old(trace) + Working(h, old(store), w)
      ensures AllBounded(trace)
      ensures progress.phase != Idle
    {
      WorkingCases(trace, h, store, w);
      hide Working, Checkpoints, Acquired, ExactCounts, AnyCount, Consistent;
      SetProgress(Progress(Acquiring, 0, 0, None, Some(w.startedAt), None));
      runId := OpenRun(w);
      if runId.None? {
        return runId, Err(OpenFailed);
      }
      SetProgress(progress.(runId := runId));
      var acquired := Acquire(h, w);
      if acquired.Err? {
        return runId, Err(acquired.error);
      }
      var s := acquired.value;
      SetProgress(progress.(phase := Validated, total := Total(s), done := 0));
      var summary := CommitSnapshot(runId.value, w, s);
      r := if summary.Some? then Ok(summary.value) else Err(CommitFailed);
    }

    /** A run is skipped while another holds the lock; otherwise it leaves the database as AfterRun says, at rest. */
    method RunIngest(h: Host, w: World) returns (outcome: Outcome)
      requires AllBounded(trace) && SchemaOk(store.tables)
      modifies this
      ensures old(locked) ==> outcome == Skipped && locked && store == old(store)
      ensures old(locked) ==> progress == old(progress) && trace == old(trace)
      ensures !old(locked) ==> !locked && store == AfterRun(h, old(store), w)
      ensures !old(locked) ==> match Verdict(h, w)
                case Ok(s) => progress == AtRest(None) && outcome.Done?
                  && outcome.summary.counts == ExactCounts(old(store).tables, s)
                  && (outcome.summary.dataChanged <==> Project(old(store).tables) != Target(s))
                case Err(e) => progress == AtRest(Some(e)) && outcome == Failed(e)
      ensures !old(locked) ==> trace == old(trace) + Published(h, old(store), w)
      ensures AllBounded(trace)
      ensures SchemaOk(store.tables)
    {
      if locked {
        return Skipped;
      }
      locked := true;
      RunKeepsSchema(h, store, w);
      EndsPublished(trace, h, store, w);
      hide Working, Published, Checkpoints, SchemaOk, ExactCounts, AnyCount, Project, Target, Acquired, Clean;
      var runId, r := Attempt(h, w);
      match r {
        case Ok(summary) =>
          outcome := Done(summary);
          DataChangedIff(old(store).tables, Verdict(h, w).value);
        case Err(error) =>
          RecordFailure(runId, w, error);
          SetProgress(AtRest(Some(error)));
          outcome := Failed(error);
      }
      if progress.phase != Idle {
        SetProgress(AtRest(None));
      }
      locked := false;
    }
  }

  /** Configuration, fetch, validation and the account check, in that order. */
  method Acquire(h: Host, w: World) returns (r: Result<Snapshot, Failure>)
    ensures r == Acquired(h, w)
    ensures r.Ok? ==> Consistent(r.value)
  {
    if w.login.None? {
      return Err(NotConfigured);
    }
    if w.fetched.None? {
      return Err(FetchFailed);
    }
    var validated := ValidateSnapshot(h, w.fetched.value);
    if validated.Err? {
      return Err(Refused);
    }
    if h.casefold(validated.value.login) != h.casefold(w.login.value) {
      return Err(WrongAccount);
    }
    AcceptedIsConsistent(h, w.fetched.value);
    r := Ok(validated.value);
  }

  /** Whether the next statements are clean depends on the first of them and on the rest. */
  lemma CleanStep(faults: set<nat>, from: nat, to: nat)
    requires from < to
    ensures Clean(faults, from, to) <==> from !in faults && Clean(faults, from + 1, to)
    ensures from + 1 == to ==> Clean(faults, from + 1, to)
  {
  }

  /** The observation and the three deletes, on tables the upserts have just left behind. */
  method ApplyDeletes(c: Connection, s: Snapshot, at: int, ghost t: Tables)
    returns (ok: bool, repositories: nat, issues: nat, pulls: nat)
    requires Consistent(s) && c.tables == Upserted(t, s, at) && SchemaOk(c.tables)
    modifies c
    ensures ok <==> Clean(c.faults, old(c.executed), old(c.executed) + 4)
    ensures ok ==> c.executed == old(c.executed) + 4
    ensures ok ==> c.tables == Reconciled(t, s, at) && SchemaOk(c.tables)
    ensures ok ==> repositories == ExactCounts(t, s).repositoriesDeleted
    ensures ok ==> issues == ExactCounts(t, s).issuesDeleted
    ensures ok ==> pulls == ExactCounts(t, s).pullsDeleted
  {
    ghost var end := c.executed + 4;
    hide RowMap, Keep, KeepRepos, Unlisted, Observed, Upserted, Reconciled, ExactCounts, SchemaOk, Consistent, Clean;
    repositories, issues, pulls := 0, 0, 0;
    CleanStep(c.faults, c.executed, end);
    ok := c.Observe(RowMap(s.repositories).Keys, at);
    if !ok {
      return;
    }
    ghost var t1 := c.tables;
    CleanStep(c.faults, c.executed, end);
    ok, issues := c.DeleteUnseenIssues(RowMap(s.issues).Keys);
    if !ok {
      return;
    }
    ghost var t2 := c.tables;
    CleanStep(c.faults, c.executed, end);
    ok, pulls := c.DeleteUnseenPullRequests(RowMap(s.pulls).Keys);
    if !ok {
      return;
    }
    ghost var t3 := c.tables;
    CleanStep(c.faults, c.executed, end);
    ok, repositories := c.DeleteUnseenRepositories(RowMap(s.repositories).Keys);
    if ok {
      DeletesReconcile(t, s, at, t1, t2, t3);
    }
  }

  lemma DeletesReconcile(t: Tables, s: Snapshot, at: int, t1: Tables, t2: Tables, t3: Tables)
    requires Consistent(s) && t1 == Observed(Upserted(t, s, at), RowMap(s.repositories).Keys, at)
    requires t2 == t1.(issues := Keep(t1.issues, RowMap(s.issues).Keys))
    requires t3 == t2.(pulls := Keep(t2.pulls, RowMap(s.pulls).Keys))
    ensures KeepRepos(t3, RowMap(s.repositories).Keys) == Reconciled(t, s, at)
    ensures |Unlisted(t3.repos, RowMap(s.repositories).Keys)| == ExactCounts(t, s).repositoriesDeleted
    ensures |Unlisted(t1.issues, RowMap(s.issues).Keys)| == ExactCounts(t, s).issuesDeleted
    ensures |Unlisted(t2.pulls, RowMap(s.pulls).Keys)| == ExactCounts(t, s).pullsDeleted
  {
    hide RowMap, Keep, KeepRepos, Unlisted, Observed, Upserted, Reconciled, ExactCounts;
    StepsReconcile(t, s, at);
  }

  /** The sync_state row, the ingest_runs row, COMMIT: the transaction becomes the database, or none of it does. */
  method WriteMarkersAndCommit(c: Connection, st: Store, runId: nat, w: World, s: Snapshot, counts: Counts)
    returns (ok: bool, next: Store)
    modifies c
    ensures ok <==> Clean(c.faults, old(c.executed), old(c.executed) + 3)
    ensures c.tables == old(c.tables)
    ensures !ok ==> next == st
    ensures ok ==> next.tables == c.tables && next.nextRun == st.nextRun
    ensures ok ==> next.sync == Sync(Some(w.committedAt), Some(s.sourceAt), Some(w.committedAt), Some(true), None)
    ensures ok ==> next.runs == st.runs[runId := RunRow(
                                          w.trigger, w.startedAt, Some(w.finishedAt), Some(w.committedAt),
                                          Some(s.sourceAt), Total(s), Some(counts), AnyCount(counts), None)]
  {
    next := st;
    ok := c.Execute();
    if !ok {
      return;
    }
    var sync := Sync(Some(w.committedAt), Some(s.sourceAt), Some(w.committedAt), Some(true), None);
    ok := c.Execute();
    if !ok {
      return;
    }
    var row := RunRow(w.trigger, w.startedAt, Some(w.finishedAt), Some(w.committedAt), Some(s.sourceAt),
                      Total(s), Some(counts), AnyCount(counts), None);
    ok := c.Execute();
    if ok {
      next := Store(c.tables, sync, st.runs[runId := row], st.nextRun);
    }
  }

  lemma UpsertedHasRepos(t: Tables, s: Snapshot, at: int)
    requires Consistent(s)
    ensures ReposStorable(s.repositories)
    ensures var repos := UpsertedRepos(t.repos, RowMap(s.repositories), at).Keys;
      IssuesStorable(s.issues, repos) && PullsStorable(s.pulls, repos)
  {
  }

  lemma RunKeepsSchema(h: Host, st: Store, w: World)
    requires SchemaOk(st.tables)
    ensures SchemaOk(AfterRun(h, st, w).tables)
  {
    if Verdict(h, w).Ok? {
      AcceptedIsConsistent(h, w.fetched.value);
      ReconciledMeetsSchema(st.tables, Verdict(h, w).value, w.committedAt);
    }
  }

  // --------------------------------------------------------- any sequence of runs

  /** The database after a sequence of runs. */
  ghost function AfterRuns(h: Host, st: Store, ws: seq<World>): Store {
    if ws == [] then st
    else AfterRun(h, AfterRuns(h, st, ws[..|ws| - 1]), ws[|ws| - 1])
  }

  /** The last run that committed, if any. */
  ghost function LastCommit(h: Host, ws: seq<World>): Option<nat> {
    if ws == [] then None
    else if Verdict(h, ws[|ws| - 1]).Ok? then Some(|ws| - 1)
    else LastCommit(h, ws[..|ws| - 1])
  }

  lemma {:induction false} LastCommitIsLast(h: Host, ws: seq<World>)
    ensures match LastCommit(h, ws)
      case Some(k) => k < |ws| && Verdict(h, ws[k]).Ok? && forall i :: k < i < |ws| ==> Verdict(h, ws[i]).Err?
      case None => forall i :: 0 <= i < |ws| ==> Verdict(h, ws[i]).Err?
  {
    if ws != [] {
      var before := ws[..|ws| - 1];
      LastCommitIsLast(h, before);
      assert forall i :: 0 <= i < |before| ==> before[i] == ws[i];
    }
  }

  /** Whatever fails in between, the visible rows and the commit markers are those of the last committed run. */
  lemma {:induction false} LastCommitIsVisible(h: Host, st: Store, ws: seq<World>)
    requires SchemaOk(st.tables)
    ensures var after := AfterRuns(h, st, ws);
      && SchemaOk(after.tables)
      && match LastCommit(h, ws)
         case None =>
           && after.tables == st.tables
           && after.sync.lastCommittedAt == st.sync.lastCommittedAt
           && after.sync.lastSourceAt == st.sync.lastSourceAt
         case Some(k) =>
           && k < |ws| && Verdict(h, ws[k]).Ok?
           && Project(after.tables) == Target(Verdict(h, ws[k]).value)
           && after.sync.lastCommittedAt == Some(ws[k].committedAt)
           && after.sync.lastSourceAt == Some(Verdict(h, ws[k]).value.sourceAt)
  {
    hide AfterRun, Verdict, Project, Target, SchemaOk;
    if ws != [] {
      var n := |ws| - 1;
      LastCommitIsVisible(h, st, ws[..n]);
      RunKeepsSchema(h, AfterRuns(h, st, ws[..n]), ws[n]);
      OneRunIsVisible(h, AfterRuns(h, st, ws[..n]), ws[n]);
    }
  }

  lemma OneRunIsVisible(h: Host, st: Store, w: World)
    ensures var after := AfterRun(h, st, w);
      match Verdict(h, w)
      case Ok(s) =>
        && Project(after.tables) == Target(s)
        && after.sync.lastCommittedAt == Some(w.committedAt)
        && after.sync.lastSourceAt == Some(s.sourceAt)
      case Err(_) =>
        && after.tables == st.tables
        && after.sync.lastCommittedAt == st.sync.lastCommittedAt
        && after.sync.lastSourceAt == st.sync.lastSourceAt
  {
    if Verdict(h, w).Ok? {
      ReconciledProjects(st.tables, Verdict(h, w).value, w.committedAt);
    }
  }

  /** Audit rows: ids below the next one, and a row carries a commit or an error, never both. */
  ghost predicate AuditOk(st: Store) {
    forall id :: id in st.runs ==>
      && id < st.nextRun
      && (st.runs[id].committedAt.Some? ==>
            st.runs[id].error.None? && st.runs[id].finishedAt.Some? && st.runs[id].counts.Some?)
      && (st.runs[id].error.Some? ==> st.runs[id].finishedAt.Some?)
  }

  /** The audit rows of one database extend those of another. */
  ghost predicate Extends(st: Store, after: Store) {
    forall id :: id in st.runs ==> id in after.runs && after.runs[id] == st.runs[id]
  }

  lemma {:induction false} AuditStaysOk(h: Host, st: Store, ws: seq<World>)
    requires AuditOk(st)
    ensures AuditOk(AfterRuns(h, st, ws)) && Extends(st, AfterRuns(h, st, ws))
  {
    hide AfterRun;
    if ws != [] {
      var n := |ws| - 1;
      AuditStaysOk(h, st, ws[..n]);
      AuditOneRun(h, AfterRuns(h, st, ws[..n]), ws[n]);
    }
  }

  lemma AuditCommitted(st: Store, w: World, s: Snapshot)
    requires AuditOk(st)
    ensures var after := Committed(Opened(st, w), w, st.nextRun, s); AuditOk(after) && Extends(st, after)
  {
    hide Reconciled, ExactCounts, AnyCount;
  }

  lemma AuditRecorded(st: Store, w: World, error: Failure)
    requires AuditOk(st)
    ensures AuditOk(Recorded(st, w, None, error)) && Extends(st, Recorded(st, w, None, error))
    ensures var after := Recorded(Opened(st, w), w, Some(st.nextRun), error); AuditOk(after) && Extends(st, after)
  {
  }

  lemma AuditOneRun(h: Host, st: Store, w: World)
    requires AuditOk(st)
    ensures AuditOk(AfterRun(h, st, w)) && Extends(st, AfterRun(h, st, w))
  {
    hide Verdict, Committed, Recorded, Opened, AuditOk, Extends;
    match Verdict(h, w) {
      case Ok(s) => AuditCommitted(st, w, s);
      case Err(e) => AuditRecorded(st, w, e);
    }
  }

  /** A run that does not drop a repository: it fails, or its snapshot lists it. */
  ghost predicate Keeps(h: Host, w: World, id: Id) {
    Verdict(h, w).Ok? ==> id in RowMap(Verdict(h, w).value.repositories)
  }

  /** Run k introduced the repository and no later run dropped it. */
  ghost predicate IntroducedBy(h: Host, st: Store, ws: seq<World>, id: Id, k: nat) {
    && k < |ws| && Verdict(h, ws[k]).Ok?
    && id !in AfterRuns(h, st, ws[..k]).tables.repos
    && forall i :: k <= i < |ws| ==> Keeps(h, ws[i], id)
  }

  lemma OneRunFirstSeen(h: Host, st: Store, w: World, id: Id)
    requires id in AfterRun(h, st, w).tables.repos
    ensures Keeps(h, w, id)
    ensures id !in st.tables.repos ==> Verdict(h, w).Ok?
    ensures AfterRun(h, st, w).tables.repos[id].firstSeenAt
         == if id in st.tables.repos then st.tables.repos[id].firstSeenAt else w.committedAt
  {
  }

  /** What the lemma below says of one sequence of runs. */
  ghost predicate FirstSeenExplained(h: Host, st: Store, ws: seq<World>, id: Id, firstSeenAt: int) {
    || (id in st.tables.repos && firstSeenAt == st.tables.repos[id].firstSeenAt
        && forall i :: 0 <= i < |ws| ==> Keeps(h, ws[i], id))
    || exists k: nat | k < |ws| :: IntroducedBy(h, st, ws, id, k) && firstSeenAt == ws[k].committedAt
  }

  /** first_seen_at is the start of the unbroken series of commits that list the repository. */
  lemma {:induction false} FirstSeenIsStreakStart(h: Host, st: Store, ws: seq<World>, id: Id)
    requires id in AfterRuns(h, st, ws).tables.repos
    ensures FirstSeenExplained(h, st, ws, id, AfterRuns(h, st, ws).tables.repos[id].firstSeenAt)
  {
    hide AfterRun, FirstSeenExplained, Keeps, Verdict;
    if ws == [] {
      BeforeAnyRun(h, st, id);
    } else {
      var n := |ws| - 1;
      var before, w := ws[..n], ws[n];
      OneRunFirstSeen(h, AfterRuns(h, st, before), w, id);
      if id in AfterRuns(h, st, before).tables.repos {
        FirstSeenIsStreakStart(h, st, before, id);
        FirstSeenCarries(h, st, before, w, id, AfterRuns(h, st, before).tables.repos[id].firstSeenAt);
        assert before + [w] == ws;
      } else {
        FirstSeenStarts(h, st, ws, id);
      }
    }
  }

  lemma BeforeAnyRun(h: Host, st: Store, id: Id)
    requires id in st.tables.repos
    ensures FirstSeenExplained(h, st, [], id, st.tables.repos[id].firstSeenAt)
  {
  }

  lemma FirstSeenStarts(h: Host, st: Store, ws: seq<World>, id: Id)
    requires ws != []
    requires var n := |ws| - 1;
      Verdict(h, ws[n]).Ok? && Keeps(h, ws[n], id) && id !in AfterRuns(h, st, ws[..n]).tables.repos
    ensures FirstSeenExplained(h, st, ws, id, ws[|ws| - 1].committedAt)
  {
    assert IntroducedBy(h, st, ws, id, |ws| - 1);
  }

  lemma FirstSeenCarries(h: Host, st: Store, ws: seq<World>, w: World, id: Id, at: int)
    requires FirstSeenExplained(h, st, ws, id, at) && Keeps(h, w, id)
    ensures FirstSeenExplained(h, st, ws + [w], id, at)
  {
    if k: nat :| k < |ws| && IntroducedBy(h, st, ws, id, k) && at == ws[k].committedAt {
      assert (ws + [w])[..k] == ws[..k];
      assert IntroducedBy(h, st, ws + [w], id, k);
    }
  }
}
