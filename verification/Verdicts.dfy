/**
  How one ingest run ends, said without the run: when it commits, which obstacle is
  reported otherwise, and what its audit row and the health row say afterwards.
 */
module Verdicts {
  import opened Wrappers
  import opened Records
  import opened Snapshots
  import opened Reconcile
  import opened IngestRuns
  import F = SnapshotFormat

  /** What the source delivered stands for this snapshot, which may be published. */
  ghost predicate Delivers(h: Host, w: World, s: Snapshot) {
    w.fetched.Some? && F.StandsFor(h, w.fetched.value, s) && Consistent(s) && F.Publishable(h, s)
  }

  /** None of the first n statements of the transaction fails. */
  ghost predicate NoFaultBefore(w: World, n: nat) {
    forall k :: k in w.faults ==> k >= n
  }

  lemma DeliveredIff(h: Host, w: World, s: Snapshot)
    ensures Delivers(h, w, s)
       <==> w.fetched.Some? && Acceptable(h, w.fetched.value) && Normalized(h, w.fetched.value) == s
  {
    if w.fetched.Some? {
      F.AcceptedIff(h, w.fetched.value, s);
    }
  }

  /**
    A run commits a snapshot exactly if its audit row opens, the credentials are there, the source delivers
    that snapshot for the configured account, and none of its statements fails: one for each record, one
    observation, three deletions, two markers and the commit.
   */
  lemma CommitsIff(h: Host, w: World, s: Snapshot)
    ensures Verdict(h, w) == Ok(s)
       <==> && !w.openFails && w.login.Some? && Delivers(h, w, s) && h.casefold(s.login) == h.casefold(w.login.value)
            && NoFaultBefore(w, |s.repositories| + |s.issues| + |s.pulls| + 7)
  {
    DeliveredIff(h, w, s);
    hide Delivers, Acceptable, Normalized;
  }

  /** Otherwise it fails with the first obstacle in its way. */
  lemma FailsWithTheFirst(h: Host, w: World, s: Snapshot)
    ensures w.openFails <==> Verdict(h, w) == Err(OpenFailed)
    ensures !w.openFails && w.login.None? <==> Verdict(h, w) == Err(NotConfigured)
    ensures !w.openFails && w.login.Some? && w.fetched.None? <==> Verdict(h, w) == Err(FetchFailed)
    ensures !w.openFails && w.login.Some? && w.fetched.Some? && (forall any :: !Delivers(h, w, any))
       <==> Verdict(h, w) == Err(Refused)
    ensures !w.openFails && w.login.Some? && Delivers(h, w, s) ==>
      var mine := h.casefold(s.login) == h.casefold(w.login.value);
      var clean := NoFaultBefore(w, |s.repositories| + |s.issues| + |s.pulls| + 7);
      && (!mine <==> Verdict(h, w) == Err(WrongAccount))
      && (mine && !clean <==> Verdict(h, w) == Err(CommitFailed))
  {
    forall any ensures Delivers(h, w, any) <==> w.fetched.Some? && Acceptable(h, w.fetched.value)
                                                && Normalized(h, w.fetched.value) == any
    {
      DeliveredIff(h, w, any);
    }
    hide Delivers, Acceptable, Normalized;
    assert w.fetched.Some? && Acceptable(h, w.fetched.value) ==> Delivers(h, w, Normalized(h, w.fetched.value));
  }

  // ---------------------------------------------------------- what it leaves

  /** The audit row of a run that has just begun. */
  function Begun(w: World): RunRow {
    RunRow(w.trigger, w.startedAt, None, None, None, 0, None, false, None)
  }

  /**
    Every run that can open its audit row adds exactly that row: finished with its commit or its error, or, if the
    error could not be written either, still as it was begun. A run that cannot open it adds none.
   */
  lemma RunIsAudited(h: Host, st: Store, w: World)
    requires AuditOk(st)
    ensures var after := AfterRun(h, st, w); var id := st.nextRun;
      if w.openFails then after.runs == st.runs && after.nextRun == id
      else
        && after.nextRun == id + 1 && after.runs.Keys == st.runs.Keys + {id} && id !in st.runs
        && (forall other :: other in st.runs ==> after.runs[other] == st.runs[other])
        && match Verdict(h, w)
           case Ok(s) =>
             && after.runs[id] == Begun(w).(finishedAt := Some(w.finishedAt), committedAt := Some(w.committedAt),
                                            sourceAt := Some(s.sourceAt), fetched := Total(s),
                                            counts := Some(ExactCounts(st.tables, s)),
                                            dataChanged := Project(st.tables) != Target(s))
           case Err(e) =>
             after.runs[id] == if w.recordFails then Begun(w)
                               else Begun(w).(finishedAt := Some(w.finishedAt), error := Some(e))
  {
    FailsOpenIff(h, w);
    hide Verdict, Project, Target, ExactCounts, Total, Committed, Recorded, Opened, Begun, AuditOk;
    OpeningAdds(st, w);
    match Verdict(h, w) {
      case Ok(s) => CommittingFills(st, w, s);
      case Err(e) => RecordingFills(st, w, e);
    }
  }

  /** The new row, and that all others are as before. */
  ghost predicate AddsRow(st: Store, after: Store, row: RunRow) {
    after.runs == st.runs[st.nextRun := row] && after.nextRun == st.nextRun + 1
  }

  lemma OpeningAdds(st: Store, w: World)
    requires AuditOk(st)
    ensures st.nextRun !in st.runs && AddsRow(st, Opened(st, w), Begun(w))
  {
  }

  lemma CommittingFills(st: Store, w: World, s: Snapshot)
    ensures AddsRow(st, Committed(Opened(st, w), w, st.nextRun, s),
                    Begun(w).(finishedAt := Some(w.finishedAt), committedAt := Some(w.committedAt),
                              sourceAt := Some(s.sourceAt), fetched := Total(s),
                              counts := Some(ExactCounts(st.tables, s)),
                              dataChanged := Project(st.tables) != Target(s)))
  {
    DataChangedIff(st.tables, s);
    hide Project, Target, ExactCounts, AnyCount, Reconciled, Total;
  }

  lemma RecordingFills(st: Store, w: World, e: Failure)
    ensures Recorded(st, w, None, e).runs == st.runs && Recorded(st, w, None, e).nextRun == st.nextRun
    ensures AddsRow(st, Recorded(Opened(st, w), w, Some(st.nextRun), e),
                    if w.recordFails then Begun(w)
                    else Begun(w).(finishedAt := Some(w.finishedAt), error := Some(e)))
  {
  }

  lemma FailsOpenIff(h: Host, w: World)
    ensures Verdict(h, w) == Err(OpenFailed) <==> w.openFails
  {
  }

  /** The health row says how the last attempt ended, unless that could not be written; a commit clears its error. */
  lemma HealthAfterRun(h: Host, st: Store, w: World)
    ensures var health := AfterRun(h, st, w).sync;
      match Verdict(h, w)
      case Ok(s) => health == Sync(Some(w.committedAt), Some(s.sourceAt), Some(w.committedAt), Some(true), None)
      case Err(e) =>
        health == if w.recordFails then st.sync
                  else Sync(st.sync.lastCommittedAt, st.sync.lastSourceAt, Some(w.finishedAt), Some(false), Some(e))
  {
    hide Verdict;
  }

  // ------------------------------------------------------- what it publishes

  function Rank(phase: Phase): nat {
    match phase
    case Acquiring => 0
    case Validated => 1
    case Committing => 2
    case Idle => 3
  }

  /** One progress value may follow another within a run. */
  ghost predicate Advances(p: Progress, q: Progress) {
    && Rank(p.phase) <= Rank(q.phase) && (p.phase == q.phase ==> p.done <= q.done)
    && (p.phase == Committing && q.phase == Committing ==> p.total == q.total)
    && p.startedAt == q.startedAt && (p.runId.Some? ==> q.runId == p.runId)
  }

  lemma CheckpointsAdvance(p: Progress, faults: set<nat>, from: nat, s: Snapshot)
    requires p.done == 0
    ensures var c := Checkpoints(p, faults, from, s);
      && (forall i :: 0 <= i < |c| ==> c[i] == p.(done := c[i].done) && c[i].done <= Total(s))
      && (forall i :: 0 < i < |c| ==> c[i - 1].done <= c[i].done)
      && (Clean(faults, from, from + Total(s)) ==> c != [] && c[|c| - 1] == p.(done := Total(s)))
  {
    if Clean(faults, from, from + Total(s)) {
      CleanSplit(faults, from, from + |s.repositories|, from + Total(s));
      CleanSplit(faults, from + |s.repositories|, from + |s.repositories| + |s.issues|, from + Total(s));
    }
  }

  /**
    While a run works its progress only advances, from acquiring over validated to committing; a run that
    commits has published that everything is done, and the last value is that nothing is going on.
   */
  lemma ProgressAdvances(h: Host, st: Store, w: World)
    ensures var p := Published(h, st, w); var n := |p| - 1;
      && n > 0 && p[0].phase == Acquiring && p[n].phase == Idle
      && (forall i :: 0 <= i < n ==> p[i].phase != Idle && p[i].startedAt == Some(w.startedAt))
      && (forall i :: 0 < i < n ==> Advances(p[i - 1], p[i]) && p[i].runId == Some(st.nextRun))
      && (p[n].lastError == if Verdict(h, w).Ok? then None else Some(Verdict(h, w).error))
      && (Verdict(h, w).Ok? ==>
            p[n - 1].phase == Committing && p[n - 1].done == p[n - 1].total == Total(Verdict(h, w).value))
  {
    var p := Published(h, st, w);
    if !w.openFails && Acquired(h, w).Ok? {
      var s := Acquired(h, w).value;
      var committing := Progress(Committing, 0, Total(s), Some(st.nextRun), Some(w.startedAt), None);
      CheckpointsAdvance(committing, w.faults, 0, s);
      CleanSplit(w.faults, 0, Total(s), Statements(s));
      hide Checkpoints, Clean, Acquired;
      assert p[3] == committing;
      assert forall i :: 4 <= i < |p| - 1 ==> p[i] == Checkpoints(committing, w.faults, 0, s)[i - 4];
    }
  }
}
