/**
  The transaction that replaces the current tables by an accepted snapshot:
  single SQL statements on a connection, the three upsert loops, the three
  deletes with their cascade, and what they amount to together.
 */
module Reconcile {
  import opened Wrappers
  import opened Records
  import opened Snapshots

  datatype RepoRow = RepoRow(fields: RepoFields, firstSeenAt: int, lastSeenAt: int)

  datatype Tables = Tables(repos: map<Id, RepoRow>, issues: map<Id, IssueRow>, pulls: map<Id, PullRow>)

  /** CHECK constraints and foreign keys of the three current-state tables. */
  ghost predicate SchemaOk(t: Tables) {
    && (forall id :: id in t.repos ==> RepoCheck(t.repos[id].fields))
    && IssuesOk(t.issues, t.repos.Keys) && PullsOk(t.pulls, t.repos.Keys)
  }

  ghost predicate IssuesOk(issues: map<Id, IssueRow>, repos: set<Id>) {
    forall id :: id in issues ==> IssueCheck(issues[id]) && issues[id].repositoryId in repos
  }

  ghost predicate PullsOk(pulls: map<Id, PullRow>, repos: set<Id>) {
    forall id :: id in pulls ==> PullCheck(pulls[id]) && pulls[id].repositoryId in repos
  }

  /** The dashboard-visible part of the tables: everything but the observation times. */
  datatype Projection = Projection(
    repos: map<Id, RepoFields>, issues: map<Id, IssueRow>, pulls: map<Id, PullRow>)

  function Project(t: Tables): Projection {
    Projection(map id | id in t.repos :: t.repos[id].fields, t.issues, t.pulls)
  }

  /** The rows a snapshot stands for. */
  function Target(s: Snapshot): Projection {
    Projection(RowMap(s.repositories), RowMap(s.issues), RowMap(s.pulls))
  }

  /** The tables a commit at instant at must leave, given the tables t it found. */
  function Reconciled(t: Tables, s: Snapshot, at: int): Tables {
    var repos := RowMap(s.repositories);
    Tables(
      map id | id in repos :: RepoRow(repos[id], if id in t.repos then t.repos[id].firstSeenAt else at, at),
      RowMap(s.issues),
      RowMap(s.pulls))
  }

  // ------------------------------------------------------- single statements

  /** Ids whose stored row is missing or differs from the wanted one. */
  function Changed<R(==)>(t: map<Id, R>, wanted: map<Id, R>): set<Id> {
    set id | id in wanted && (id !in t || t[id] != wanted[id])
  }

  /** Whether the upsert of one record touches its row. */
  predicate Differs<R(==)>(t: map<Id, R>, rec: Record<R>) {
    rec.id !in t || t[rec.id] != rec.row
  }

  function FieldsOf(t: map<Id, RepoRow>): map<Id, RepoFields> {
    map id | id in t :: t[id].fields
  }

  /** INSERT ... ON CONFLICT DO UPDATE ... WHERE some column differs, on repositories. */
  function UpsertRepoRow(t: map<Id, RepoRow>, rec: Record<RepoFields>, at: int): map<Id, RepoRow> {
    if rec.id !in t then t[rec.id := RepoRow(rec.row, at, at)]
    else if t[rec.id].fields != rec.row then
      t[rec.id := RepoRow(rec.row, t[rec.id].firstSeenAt, at)]
    else t
  }

  /** The same statement on a table without observation columns. */
  function UpsertRow<R(==)>(t: map<Id, R>, rec: Record<R>): map<Id, R> {
    if Differs(t, rec) then t[rec.id := rec.row] else t
  }

  /** UPDATE ... SET last_seen_at for the repositories in seen. */
  function Observed(t: Tables, seen: set<Id>, at: int): Tables {
    t.(repos := map id | id in t.repos ::
      if id in seen then t.repos[id].(lastSeenAt := at) else t.repos[id])
  }

  /** DELETE ... WHERE NOT (node_id = ANY(seen)). */
  function Keep<R>(t: map<Id, R>, seen: set<Id>): map<Id, R> {
    map id | id in t && id in seen :: t[id]
  }

  /** The ids that statement removes. */
  function Unlisted<R>(t: map<Id, R>, seen: set<Id>): set<Id> {
    t.Keys - seen
  }

  /** Deleting repositories takes their issues and pull requests along. */
  function KeepRepos(t: Tables, seen: set<Id>): Tables {
    Tables(
      Keep(t.repos, seen),
      map id | id in t.issues && t.issues[id].repositoryId !in (t.repos.Keys - seen) :: t.issues[id],
      map id | id in t.pulls && t.pulls[id].repositoryId !in (t.repos.Keys - seen) :: t.pulls[id])
  }

  predicate Clean(faults: set<nat>, from: nat, to: nat) {
    forall k :: from <= k < to ==> k !in faults
  }

  /**
    One database connection inside a transaction. Statement number n raises when
    n is in faults or when a constraint of the schema refuses its row.
   */
  class Connection {
    var tables: Tables
    var executed: nat
    const faults: set<nat>

    constructor (tables: Tables, faults: set<nat>)
      ensures this.tables == tables && this.faults == faults && executed == 0
    {
      this.tables, this.faults, executed := tables, faults, 0;
    }

    /** The part every statement shares: it counts, and it may raise. */
    method Execute() returns (ok: bool)
      modifies this`executed
      ensures executed == old(executed) + 1 && ok == (old(executed) !in faults)
    {
      ok := executed !in faults;
      executed := executed + 1;
    }

    method UpsertRepository(rec: Record<RepoFields>, at: int) returns (ok: bool, returned: bool)
      modifies this
      ensures executed == old(executed) + 1
      ensures ok == (old(executed) !in faults && RepoCheck(rec.row))
      ensures ok ==> tables == old(tables).(repos := UpsertRepoRow(old(tables).repos, rec, at))
      ensures ok ==> returned == Differs(FieldsOf(old(tables).repos), rec)
      ensures ok && old(SchemaOk(tables)) ==> SchemaOk(tables)
      ensures !ok ==> tables == old(tables)
    {
      ok := Execute();
      returned := false;
      ok := ok && RepoCheck(rec.row);
      if ok {
        returned := Differs(FieldsOf(tables.repos), rec);
        tables := tables.(repos := UpsertRepoRow(tables.repos, rec, at));
      }
    }

    method UpsertIssue(rec: Record<IssueRow>) returns (ok: bool, returned: bool)
      modifies this
      ensures executed == old(executed) + 1
      ensures ok == (old(executed) !in faults && IssueCheck(rec.row) && rec.row.repositoryId in old(tables).repos)
      ensures ok ==> tables == old(tables).(issues := UpsertRow(old(tables).issues, rec))
      ensures ok ==> returned == Differs(old(tables).issues, rec)
      ensures ok && old(SchemaOk(tables)) ==> SchemaOk(tables)
      ensures !ok ==> tables == old(tables)
    {
      ok := Execute();
      returned := false;
      ok := ok && IssueCheck(rec.row) && rec.row.repositoryId in tables.repos;
      if ok {
        returned := Differs(tables.issues, rec);
        tables := tables.(issues := UpsertRow(tables.issues, rec));
      }
    }

    method UpsertPullRequest(rec: Record<PullRow>) returns (ok: bool, returned: bool)
      modifies this
      ensures executed == old(executed) + 1
      ensures ok == (old(executed) !in faults && PullCheck(rec.row) && rec.row.repositoryId in old(tables).repos)
      ensures ok ==> tables == old(tables).(pulls := UpsertRow(old(tables).pulls, rec))
      ensures ok ==> returned == Differs(old(tables).pulls, rec)
      ensures ok && old(SchemaOk(tables)) ==> SchemaOk(tables)
      ensures !ok ==> tables == old(tables)
    {
      ok := Execute();
      returned := false;
      ok := ok && PullCheck(rec.row) && rec.row.repositoryId in tables.repos;
      if ok {
        returned := Differs(tables.pulls, rec);
        tables := tables.(pulls := UpsertRow(tables.pulls, rec));
      }
    }

    /** UPDATE repositories SET last_seen_at for the repositories of the snapshot. */
    method Observe(seen: set<Id>, at: int) returns (ok: bool)
      modifies this
      ensures executed == old(executed) + 1 && ok == (old(executed) !in faults)
      ensures ok ==> tables == Observed(old(tables), seen, at)
      ensures ok ==> tables.repos.Keys == old(tables.repos.Keys) && forall id :: id in tables.repos ==>
        tables.repos[id]
        == old(tables.repos[id]).(lastSeenAt := if id in seen then at else old(tables.repos[id].lastSeenAt))
      ensures ok ==> tables.issues == old(tables.issues) && tables.pulls == old(tables.pulls)
      ensures ok && old(SchemaOk(tables)) ==> SchemaOk(tables)
    {
      ok := Execute();
      if ok {
        tables := Observed(tables, seen, at);
      }
    }

    method DeleteUnseenIssues(seen: set<Id>) returns (ok: bool, deleted: nat)
      modifies this
      ensures executed == old(executed) + 1 && ok == (old(executed) !in faults)
      ensures ok ==> tables == old(tables).(issues := Keep(old(tables).issues, seen))
      ensures ok ==> deleted == |Unlisted(old(tables).issues, seen)|
      ensures ok && old(SchemaOk(tables)) ==> SchemaOk(tables)
    {
      ok := Execute();
      deleted := |Unlisted(tables.issues, seen)|;
      if ok {
        tables := tables.(issues := Keep(tables.issues, seen));
      }
    }

    method DeleteUnseenPullRequests(seen: set<Id>) returns (ok: bool, deleted: nat)
      modifies this
      ensures executed == old(executed) + 1 && ok == (old(executed) !in faults)
      ensures ok ==> tables == old(tables).(pulls := Keep(old(tables).pulls, seen))
      ensures ok ==> deleted == |Unlisted(old(tables).pulls, seen)|
      ensures ok && old(SchemaOk(tables)) ==> SchemaOk(tables)
    {
      ok := Execute();
      deleted := |Unlisted(tables.pulls, seen)|;
      if ok {
        tables := tables.(pulls := Keep(tables.pulls, seen));
      }
    }

    method DeleteUnseenRepositories(seen: set<Id>) returns (ok: bool, deleted: nat)
      modifies this
      ensures executed == old(executed) + 1 && ok == (old(executed) !in faults)
      ensures ok ==> tables == KeepRepos(old(tables), seen)
      ensures ok ==> deleted == |Unlisted(old(tables).repos, seen)|
      ensures ok && old(SchemaOk(tables)) ==> SchemaOk(tables)
    {
      ok := Execute();
      deleted := |Unlisted(tables.repos, seen)|;
      if ok {
        tables := KeepRepos(tables, seen);
      }
    }
  }

  // ------------------------------------------------------------ upsert loops

  /** The repository table after the rows wanted have been upserted at instant at. */
  function UpsertedRepos(t: map<Id, RepoRow>, wanted: map<Id, RepoFields>, at: int): map<Id, RepoRow> {
    map id | id in t.Keys + wanted.Keys ::
      if id !in t then RepoRow(wanted[id], at, at)
      else if id in wanted && t[id].fields != wanted[id] then RepoRow(wanted[id], t[id].firstSeenAt, at)
      else t[id]
  }

  ghost predicate ReposStorable(recs: seq<Record<RepoFields>>) {
    forall i :: 0 <= i < |recs| ==> RepoCheck(recs[i].row)
  }

  ghost predicate IssuesStorable(recs: seq<Record<IssueRow>>, repos: set<Id>) {
    forall i :: 0 <= i < |recs| ==> IssueCheck(recs[i].row) && recs[i].row.repositoryId in repos
  }

  ghost predicate PullsStorable(recs: seq<Record<PullRow>>, repos: set<Id>) {
    forall i :: 0 <= i < |recs| ==> PullCheck(recs[i].row) && recs[i].row.repositoryId in repos
  }

  lemma CleanSnoc(faults: set<nat>, from: nat, to: nat)
    requires Clean(faults, from, to) && to !in faults && from <= to
    ensures Clean(faults, from, to + 1)
  {
  }

  lemma CleanSplit(faults: set<nat>, from: nat, mid: nat, to: nat)
    requires from <= mid <= to
    ensures Clean(faults, from, to) <==> Clean(faults, from, mid) && Clean(faults, mid, to)
  {
  }

  lemma ChangedAdd<R>(t: map<Id, R>, wanted: map<Id, R>, id: Id, row: R)
    requires id !in wanted
    ensures Changed(t, wanted[id := row]) == Changed(t, wanted) + (if id !in t || t[id] != row then {id} else {})
  {
    var more := Changed(t, wanted[id := row]);
    forall x
      ensures x in more <==> x in Changed(t, wanted) || (x == id && (id !in t || t[id] != row))
    {
    }
  }

  lemma UpsertExtends<R>(t: map<Id, R>, wanted: map<Id, R>, rec: Record<R>)
    requires rec.id !in wanted
    ensures UpsertRow(t + wanted, rec) == t + wanted[rec.id := rec.row]
    ensures Differs(t + wanted, rec) <==> rec.id !in t || t[rec.id] != rec.row
  {
  }

  /** One more upsert extends the table by one more record and counts exactly the touched rows. */
  lemma UpsertSnoc<R>(t: map<Id, R>, recs: seq<Record<R>>, k: nat)
    requires k < |recs| && Distinct(recs)
    ensures UpsertRow(t + RowMap(recs[..k]), recs[k]) == t + RowMap(recs[..k + 1])
    ensures |Changed(t, RowMap(recs[..k + 1]))|
         == |Changed(t, RowMap(recs[..k]))| + (if Differs(t + RowMap(recs[..k]), recs[k]) then 1 else 0)
  {
    RowMapSnoc(recs, k);
    var wanted := RowMap(recs[..k]);
    UpsertExtends(t, wanted, recs[k]);
    ChangedAdd(t, wanted, recs[k].id, recs[k].row);
  }

  lemma UpsertRepoExtends(t: map<Id, RepoRow>, wanted: map<Id, RepoFields>, rec: Record<RepoFields>, at: int)
    requires rec.id !in wanted
    ensures UpsertRepoRow(UpsertedRepos(t, wanted, at), rec, at) == UpsertedRepos(t, wanted[rec.id := rec.row], at)
    ensures FieldsOf(UpsertedRepos(t, wanted, at)) == FieldsOf(t) + wanted
  {
    var before := UpsertedRepos(t, wanted, at);
    var after := UpsertedRepos(t, wanted[rec.id := rec.row], at);
    assert after.Keys == before.Keys + {rec.id};
    assert UpsertRepoRow(before, rec, at) == after;
  }

  /** The same step for repositories, whose rows also carry observation times. */
  lemma UpsertRepoSnoc(t: map<Id, RepoRow>, recs: seq<Record<RepoFields>>, k: nat, at: int)
    requires k < |recs| && Distinct(recs)
    ensures var now := UpsertedRepos(t, RowMap(recs[..k]), at);
      && UpsertRepoRow(now, recs[k], at) == UpsertedRepos(t, RowMap(recs[..k + 1]), at)
      && |Changed(FieldsOf(t), RowMap(recs[..k + 1]))|
         == |Changed(FieldsOf(t), RowMap(recs[..k]))| + (if Differs(FieldsOf(now), recs[k]) then 1 else 0)
  {
    RowMapSnoc(recs, k);
    UpsertRepoExtends(t, RowMap(recs[..k]), recs[k], at);
    UpsertSnoc(FieldsOf(t), recs, k);
  }

  lemma NothingUpserted<R>(t: map<Id, R>, recs: seq<Record<R>>)
    ensures t + RowMap(recs[..0]) == t && |Changed(t, RowMap(recs[..0]))| == 0
  {
    assert RowMap(recs[..0]) == map[];
  }

  lemma NoRepositoryUpserted(t: map<Id, RepoRow>, recs: seq<Record<RepoFields>>, at: int)
    ensures UpsertedRepos(t, RowMap(recs[..0]), at) == t && |Changed(FieldsOf(t), RowMap(recs[..0]))| == 0
  {
    assert RowMap(recs[..0]) == map[];
  }

  method UpsertRepositories(c: Connection, repositories: seq<Record<RepoFields>>, at: int)
    returns (ok: bool, changed: nat)
    requires Distinct(repositories)
    modifies c
    ensures ok == (Clean(c.faults, old(c.executed), old(c.executed) + |repositories|) && ReposStorable(repositories))
    ensures ok ==> c.executed == old(c.executed) + |repositories|
    ensures ok ==> c.tables == old(c.tables).(
                                 repos := UpsertedRepos(old(c.tables).repos, RowMap(repositories), at))
    ensures ok ==> changed == |Changed(FieldsOf(old(c.tables).repos), RowMap(repositories))|
    ensures ok && old(SchemaOk(c.tables)) ==> SchemaOk(c.tables)
  {
    hide RowMap, Changed, Differs, UpsertRepoRow, UpsertedRepos, FieldsOf, SchemaOk, RepoCheck;
    changed := 0;
    ghost var t := c.tables;
    NoRepositoryUpserted(t.repos, repositories, at);
    for i := 0 to |repositories|
      invariant c.executed == old(c.executed) + i
      invariant Clean(c.faults, old(c.executed), c.executed)
      invariant forall k :: 0 <= k < i ==> RepoCheck(repositories[k].row)
      invariant c.tables == t.(repos := UpsertedRepos(t.repos, RowMap(repositories[..i]), at))
      invariant changed == |Changed(FieldsOf(t.repos), RowMap(repositories[..i]))|
      invariant SchemaOk(t) ==> SchemaOk(c.tables)
    {
      var returned;
      ok, returned := c.UpsertRepository(repositories[i], at);
      if !ok {
        return;
      }
      CleanSnoc(c.faults, old(c.executed), old(c.executed) + i);
      UpsertRepoSnoc(t.repos, repositories, i, at);
      changed := changed + (if returned then 1 else 0);
    }
    assert repositories[..|repositories|] == repositories;
    ok := true;
  }

  method UpsertIssues(c: Connection, issues: seq<Record<IssueRow>>) returns (ok: bool, changed: nat)
    requires Distinct(issues)
    modifies c
    ensures ok == (Clean(c.faults, old(c.executed), old(c.executed) + |issues|)
                   && IssuesStorable(issues, old(c.tables).repos.Keys))
    ensures ok ==> c.executed == old(c.executed) + |issues|
    ensures ok ==> c.tables == old(c.tables).(issues := old(c.tables).issues + RowMap(issues))
    ensures ok ==> changed == |Changed(old(c.tables).issues, RowMap(issues))|
    ensures ok && old(SchemaOk(c.tables)) ==> SchemaOk(c.tables)
  {
    hide RowMap, Changed, Differs, UpsertRow, SchemaOk, IssueCheck;
    changed := 0;
    ghost var t := c.tables;
    NothingUpserted(t.issues, issues);
    for i := 0 to |issues|
      invariant c.executed == old(c.executed) + i
      invariant Clean(c.faults, old(c.executed), c.executed)
      invariant forall k :: 0 <= k < i ==> IssueCheck(issues[k].row) && issues[k].row.repositoryId in t.repos
      invariant c.tables == t.(issues := t.issues + RowMap(issues[..i]))
      invariant changed == |Changed(t.issues, RowMap(issues[..i]))|
      invariant SchemaOk(t) ==> SchemaOk(c.tables)
    {
      var returned;
      ok, returned := c.UpsertIssue(issues[i]);
      if !ok {
        return;
      }
      CleanSnoc(c.faults, old(c.executed), old(c.executed) + i);
      UpsertSnoc(t.issues, issues, i);
      changed := changed + (if returned then 1 else 0);
    }
    assert issues[..|issues|] == issues;
    ok := true;
  }

  method UpsertPullRequests(c: Connection, pulls: seq<Record<PullRow>>) returns (ok: bool, changed: nat)
    requires Distinct(pulls)
    modifies c
    ensures ok == (Clean(c.faults, old(c.executed), old(c.executed) + |pulls|)
                   && PullsStorable(pulls, old(c.tables).repos.Keys))
    ensures ok ==> c.executed == old(c.executed) + |pulls|
    ensures ok ==> c.tables == old(c.tables).(pulls := old(c.tables).pulls + RowMap(pulls))
    ensures ok ==> changed == |Changed(old(c.tables).pulls, RowMap(pulls))|
    ensures ok && old(SchemaOk(c.tables)) ==> SchemaOk(c.tables)
  {
    hide RowMap, Changed, Differs, UpsertRow, SchemaOk, PullCheck;
    changed := 0;
    ghost var t := c.tables;
    NothingUpserted(t.pulls, pulls);
    for i := 0 to |pulls|
      invariant c.executed == old(c.executed) + i
      invariant Clean(c.faults, old(c.executed), c.executed)
      invariant forall k :: 0 <= k < i ==> PullCheck(pulls[k].row) && pulls[k].row.repositoryId in t.repos
      invariant c.tables == t.(pulls := t.pulls + RowMap(pulls[..i]))
      invariant changed == |Changed(t.pulls, RowMap(pulls[..i]))|
      invariant SchemaOk(t) ==> SchemaOk(c.tables)
    {
      var returned;
      ok, returned := c.UpsertPullRequest(pulls[i]);
      if !ok {
        return;
      }
      CleanSnoc(c.faults, old(c.executed), old(c.executed) + i);
      UpsertSnoc(t.pulls, pulls, i);
      changed := changed + (if returned then 1 else 0);
    }
    assert pulls[..|pulls|] == pulls;
    ok := true;
  }

  // ------------------------------------------------- the whole replacement

  datatype Counts = Counts(
    repositoriesUpserted: nat, issuesUpserted: nat, pullsUpserted: nat,
    repositoriesDeleted: nat, issuesDeleted: nat, pullsDeleted: nat)

  /** New or changed ids, and old ids absent from the snapshot. */
  function ExactCounts(t: Tables, s: Snapshot): Counts {
    Counts(
      |Changed(FieldsOf(t.repos), RowMap(s.repositories))|,
      |Changed(t.issues, RowMap(s.issues))|,
      |Changed(t.pulls, RowMap(s.pulls))|,
      |Unlisted(t.repos, RowMap(s.repositories).Keys)|,
      |Unlisted(t.issues, RowMap(s.issues).Keys)|,
      |Unlisted(t.pulls, RowMap(s.pulls).Keys)|)
  }

  /** The flag data_changed: any of the six counters is non-zero. */
  predicate AnyCount(c: Counts) {
    || c.repositoriesUpserted != 0 || c.issuesUpserted != 0 || c.pullsUpserted != 0
    || c.repositoriesDeleted != 0 || c.issuesDeleted != 0 || c.pullsDeleted != 0
  }

  /** The tables after the three upsert loops. */
  function Upserted(t: Tables, s: Snapshot, at: int): Tables {
    Tables(
      UpsertedRepos(t.repos, RowMap(s.repositories), at),
      t.issues + RowMap(s.issues),
      t.pulls + RowMap(s.pulls))
  }

  /** Items are deleted first, so deleting unseen repositories cascades to nothing. */
  lemma CascadeRemovesNothing(t: Tables, s: Snapshot)
    requires Consistent(s) && t.issues == RowMap(s.issues) && t.pulls == RowMap(s.pulls)
    ensures KeepRepos(t, RowMap(s.repositories).Keys).issues == t.issues
    ensures KeepRepos(t, RowMap(s.repositories).Keys).pulls == t.pulls
  {
    IssueParents(s);
  }

  lemma IssueParents(s: Snapshot)
    requires Consistent(s)
    ensures forall id :: id in RowMap(s.issues) ==>
      IssueCheck(RowMap(s.issues)[id]) && RowMap(s.issues)[id].repositoryId in RowMap(s.repositories)
    ensures forall id :: id in RowMap(s.pulls) ==>
      PullCheck(RowMap(s.pulls)[id]) && RowMap(s.pulls)[id].repositoryId in RowMap(s.repositories)
  {
    RowMapKeys(s.issues);
    RowMapKeys(s.pulls);
    forall i | 0 <= i < |s.issues|
      ensures s.issues[i].id in RowMap(s.issues) && RowMap(s.issues)[s.issues[i].id] == s.issues[i].row
    {
      RowMapAt(s.issues, i);
    }
    forall i | 0 <= i < |s.pulls|
      ensures s.pulls[i].id in RowMap(s.pulls) && RowMap(s.pulls)[s.pulls[i].id] == s.pulls[i].row
    {
      RowMapAt(s.pulls, i);
    }
  }

  lemma KeepWanted<R>(t: map<Id, R>, wanted: map<Id, R>)
    ensures Keep(t + wanted, wanted.Keys) == wanted
    ensures Unlisted(t + wanted, wanted.Keys) == Unlisted(t, wanted.Keys)
  {
  }

  lemma KeepRepositories(t: Tables, s: Snapshot, at: int)
    ensures var seen := RowMap(s.repositories).Keys;
      var repos := Observed(Upserted(t, s, at), seen, at).repos;
      Keep(repos, seen) == Reconciled(t, s, at).repos && Unlisted(repos, seen) == Unlisted(t.repos, seen)
  {
  }

  /** Upserts, observation and deletes, in the order the transaction runs them, replace the tables exactly. */
  lemma StepsReconcile(t: Tables, s: Snapshot, at: int)
    requires Consistent(s)
    ensures var seen := RowMap(s.repositories).Keys;
      var t1 := Observed(Upserted(t, s, at), seen, at);
      var t2 := t1.(issues := Keep(t1.issues, RowMap(s.issues).Keys));
      var t3 := t2.(pulls := Keep(t2.pulls, RowMap(s.pulls).Keys));
      && KeepRepos(t3, seen) == Reconciled(t, s, at)
      && ExactCounts(t, s).repositoriesDeleted == |Unlisted(t3.repos, seen)|
      && ExactCounts(t, s).issuesDeleted == |Unlisted(t1.issues, RowMap(s.issues).Keys)|
      && ExactCounts(t, s).pullsDeleted == |Unlisted(t2.pulls, RowMap(s.pulls).Keys)|
  {
    var seen := RowMap(s.repositories).Keys;
    var t1 := Observed(Upserted(t, s, at), seen, at);
    var t2 := t1.(issues := Keep(t1.issues, RowMap(s.issues).Keys));
    var t3 := t2.(pulls := Keep(t2.pulls, RowMap(s.pulls).Keys));
    KeepWanted(t.issues, RowMap(s.issues));
    KeepWanted(t.pulls, RowMap(s.pulls));
    KeepRepositories(t, s, at);
    CascadeRemovesNothing(t3, s);
  }

  lemma UpsertedReposOk(t: map<Id, RepoRow>, wanted: map<Id, RepoFields>, at: int)
    requires forall id :: id in t ==> RepoCheck(t[id].fields)
    requires forall id :: id in wanted ==> RepoCheck(wanted[id])
    ensures forall id :: id in UpsertedRepos(t, wanted, at) ==> RepoCheck(UpsertedRepos(t, wanted, at)[id].fields)
  {
    hide RepoCheck;
  }

  lemma UpsertedItemsOk(t: Tables, s: Snapshot, repos: set<Id>)
    requires Consistent(s) && SchemaOk(t) && repos == t.repos.Keys + RowMap(s.repositories).Keys
    ensures IssuesOk(t.issues + RowMap(s.issues), repos) && PullsOk(t.pulls + RowMap(s.pulls), repos)
  {
    IssueParents(s);
    hide RowMap, IssueCheck, PullCheck, Consistent;
  }

  lemma UpsertsKeepSchema(t: Tables, s: Snapshot, at: int)
    requires Consistent(s) && SchemaOk(t)
    ensures SchemaOk(Upserted(t, s, at))
  {
    RepositoriesAreChecked(s);
    UpsertedReposOk(t.repos, RowMap(s.repositories), at);
    UpsertedItemsOk(t, s, t.repos.Keys + RowMap(s.repositories).Keys);
    hide RowMap, IssuesOk, PullsOk, RepoCheck, Consistent;
  }

  lemma RepositoriesAreChecked(s: Snapshot)
    requires Consistent(s)
    ensures forall id :: id in RowMap(s.repositories) ==> RepoCheck(RowMap(s.repositories)[id])
  {
    RowMapKeys(s.repositories);
    forall i | 0 <= i < |s.repositories|
      ensures s.repositories[i].id in RowMap(s.repositories)
      ensures RowMap(s.repositories)[s.repositories[i].id] == s.repositories[i].row
    {
      RowMapAt(s.repositories, i);
    }
  }

  lemma ObservingKeepsSchema(t: Tables, seen: set<Id>, at: int)
    requires SchemaOk(t)
    ensures SchemaOk(Observed(t, seen, at))
  {
    assert Observed(t, seen, at).repos.Keys == t.repos.Keys;
    hide RepoCheck, IssuesOk, PullsOk;
  }

  lemma DeletingItemsKeepsSchema(t: Tables, issues: set<Id>, pulls: set<Id>)
    requires SchemaOk(t)
    ensures SchemaOk(t.(issues := Keep(t.issues, issues)))
    ensures SchemaOk(t.(pulls := Keep(t.pulls, pulls)))
  {
    hide RepoCheck, IssueCheck, PullCheck;
  }

  lemma DeletingRepositoriesKeepsSchema(t: Tables, seen: set<Id>)
    requires SchemaOk(t)
    ensures SchemaOk(KeepRepos(t, seen))
  {
    hide RepoCheck, IssueCheck, PullCheck;
  }

  /** Every constraint holds after the upserts, the observation and each of the deletes. */
  lemma StepsKeepSchema(t: Tables, s: Snapshot, at: int)
    requires Consistent(s) && SchemaOk(t)
    ensures var seen := RowMap(s.repositories).Keys;
      var t0 := Upserted(t, s, at);
      var t1 := Observed(t0, seen, at);
      var t2 := t1.(issues := Keep(t1.issues, RowMap(s.issues).Keys));
      var t3 := t2.(pulls := Keep(t2.pulls, RowMap(s.pulls).Keys));
      SchemaOk(t0) && SchemaOk(t1) && SchemaOk(t2) && SchemaOk(t3) && SchemaOk(KeepRepos(t3, seen))
  {
    hide *;
    var seen := RowMap(s.repositories).Keys;
    var t1 := Observed(Upserted(t, s, at), seen, at);
    var t2 := t1.(issues := Keep(t1.issues, RowMap(s.issues).Keys));
    UpsertsKeepSchema(t, s, at);
    ObservingKeepsSchema(Upserted(t, s, at), seen, at);
    DeletingItemsKeepsSchema(t1, RowMap(s.issues).Keys, {});
    DeletingItemsKeepsSchema(t2, {}, RowMap(s.pulls).Keys);
    DeletingRepositoriesKeepsSchema(t2.(pulls := Keep(t2.pulls, RowMap(s.pulls).Keys)), seen);
  }

  // ------------------------------------------------ what a commit promises

  /** The dashboard-visible rows are exactly the snapshot's. */
  lemma ReconciledProjects(t: Tables, s: Snapshot, at: int)
    ensures Project(Reconciled(t, s, at)) == Target(s)
  {
    assert Project(Reconciled(t, s, at)).repos == RowMap(s.repositories);
  }

  lemma ReconciledMeetsSchema(t: Tables, s: Snapshot, at: int)
    requires Consistent(s)
    ensures SchemaOk(Reconciled(t, s, at))
  {
    IssueParents(s);
    RepositoriesAreChecked(s);
    hide RowMap;
  }

  lemma ChangedEmptyIff<R>(t: map<Id, R>, wanted: map<Id, R>)
    ensures |Changed(t, wanted)| == 0 && |Unlisted(t, wanted.Keys)| == 0 <==> t == wanted
  {
    if |Changed(t, wanted)| == 0 && |Unlisted(t, wanted.Keys)| == 0 {
      assert forall id :: id in wanted ==> id !in Changed(t, wanted);
      assert forall id :: id in t ==> id !in Unlisted(t, wanted.Keys);
      assert t == wanted;
    }
  }

  /** data_changed is true exactly when the visible rows were not already the snapshot's. */
  lemma DataChangedIff(t: Tables, s: Snapshot)
    ensures AnyCount(ExactCounts(t, s)) <==> Project(t) != Target(s)
  {
    ChangedEmptyIff(FieldsOf(t.repos), RowMap(s.repositories));
    ChangedEmptyIff(t.issues, RowMap(s.issues));
    ChangedEmptyIff(t.pulls, RowMap(s.pulls));
    assert Project(t).repos == FieldsOf(t.repos);
    assert FieldsOf(t.repos).Keys == t.repos.Keys;
  }

  /** Applying the same snapshot again counts nothing and keeps everything but the last observation. */
  lemma ReapplyCountsNothing(t: Tables, s: Snapshot, at: int, later: int)
    ensures ExactCounts(Reconciled(t, s, at), s) == Counts(0, 0, 0, 0, 0, 0)
    ensures Reconciled(Reconciled(t, s, at), s, later)
         == Observed(Reconciled(t, s, at), RowMap(s.repositories).Keys, later)
  {
    ReconciledProjects(t, s, at);
    DataChangedIff(Reconciled(t, s, at), s);
    assert Reconciled(Reconciled(t, s, at), s, later).repos
        == Observed(Reconciled(t, s, at), RowMap(s.repositories).Keys, later).repos;
  }

  lemma TableBalances<R>(t: map<Id, R>, recs: seq<Record<R>>)
    requires Distinct(recs)
    ensures |t| - |Unlisted(t, RowMap(recs).Keys)| + |Unlisted(RowMap(recs), t.Keys)| == |recs|
  {
    RowMapSize(recs);
    SetBalances(t.Keys, RowMap(recs).Keys);
    assert |t| == |t.Keys| && |RowMap(recs)| == |RowMap(recs).Keys|;
    hide RowMap;
  }

  lemma SetBalances(stored: set<Id>, wanted: set<Id>)
    ensures |stored| - |stored - wanted| + |wanted - stored| == |wanted|
  {
    assert stored == (stored - wanted) + (stored * wanted);
    assert wanted == (wanted - stored) + (stored * wanted);
  }

  /** Table sizes balance, table by table: what was there, minus deletions, plus insertions, is the snapshot. */
  lemma SizesBalance(t: Tables, s: Snapshot, at: int)
    requires Distinct(s.repositories) && Distinct(s.issues) && Distinct(s.pulls)
    ensures var after := Reconciled(t, s, at);
      |after.repos| == |s.repositories| && |after.issues| == |s.issues| && |after.pulls| == |s.pulls|
    ensures var counts := ExactCounts(t, s);
      && |t.repos| - counts.repositoriesDeleted + |Unlisted(RowMap(s.repositories), t.repos.Keys)| == |s.repositories|
      && |t.issues| - counts.issuesDeleted + |Unlisted(RowMap(s.issues), t.issues.Keys)| == |s.issues|
      && |t.pulls| - counts.pullsDeleted + |Unlisted(RowMap(s.pulls), t.pulls.Keys)| == |s.pulls|
  {
    RowMapSize(s.repositories);
    RowMapSize(s.issues);
    RowMapSize(s.pulls);
    ReconciledSize(t, s, at);
    hide RowMap, Reconciled;
    TableBalances(FieldsOf(t.repos), s.repositories);
    TableBalances(t.issues, s.issues);
    TableBalances(t.pulls, s.pulls);
    assert FieldsOf(t.repos).Keys == t.repos.Keys && |FieldsOf(t.repos)| == |t.repos|;
  }

  lemma ReconciledSize(t: Tables, s: Snapshot, at: int)
    ensures var after := Reconciled(t, s, at);
      && |after.repos| == |RowMap(s.repositories)| && |after.issues| == |RowMap(s.issues)|
      && |after.pulls| == |RowMap(s.pulls)|
  {
    hide RowMap;
    var after := Reconciled(t, s, at);
    assert after.repos.Keys == RowMap(s.repositories).Keys;
    assert |after.repos| == |after.repos.Keys| && |RowMap(s.repositories)| == |RowMap(s.repositories).Keys|;
  }

  lemma {:induction false} RowMapSize<R>(recs: seq<Record<R>>)
    requires Distinct(recs)
    ensures |RowMap(recs)| == |recs|
  {
    if recs != [] {
      var last := |recs| - 1;
      RowMapSize(recs[..last]);
      RowMapSnoc(recs, last);
      assert recs[..last + 1] == recs;
    }
  }
}
