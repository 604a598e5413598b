/**
  The dashboard over the stored rows: its six series as counts of rows of the tables,
  in every bucket and in the totals, and range all from end to end.
 */
module Dashboard {
  import opened Wrappers
  import opened Records
  import opened Snapshots
  import opened Reconcile
  import opened Buckets
  import opened Aggregate

  // ------------------------------------------------------ the six series

  /** A row of this repository is public and selected. */
  predicate Visible(t: Tables, filter: Option<Id>, repositoryId: Id, isPrivate: bool) {
    && !isPrivate && repositoryId in t.repos
    && !t.repos[repositoryId].fields.isPrivate && t.repos[repositoryId].fields.isExternal
    && (filter.None? || filter == Some(repositoryId))
  }

  predicate Within(at: Option<int>, lo: int, hi: int) {
    at.Some? && lo <= at.value < hi
  }

  /** Issues created from lo to hi. */
  function IssuesOpened(t: Tables, filter: Option<Id>, lo: int, hi: int): set<Id> {
    set id | id in t.issues && Visible(t, filter, t.issues[id].repositoryId, t.issues[id].isPrivate)
             && lo <= t.issues[id].createdAt < hi
  }

  /** Issues now closed for this reason, by the instant they were closed. */
  function IssuesClosedAs(t: Tables, filter: Option<Id>, reason: string, lo: int, hi: int): set<Id> {
    set id | id in t.issues && Visible(t, filter, t.issues[id].repositoryId, t.issues[id].isPrivate)
             && t.issues[id].state == CLOSED && t.issues[id].stateReason == Some(reason)
             && Within(t.issues[id].closedAt, lo, hi)
  }

  /** Pull requests created from lo to hi. */
  function PullsOpened(t: Tables, filter: Option<Id>, lo: int, hi: int): set<Id> {
    set id | id in t.pulls && Visible(t, filter, t.pulls[id].repositoryId, t.pulls[id].isPrivate)
             && lo <= t.pulls[id].createdAt < hi
  }

  /** Pull requests now merged, by the instant they were merged. */
  function PullsMerged(t: Tables, filter: Option<Id>, lo: int, hi: int): set<Id> {
    set id | id in t.pulls && Visible(t, filter, t.pulls[id].repositoryId, t.pulls[id].isPrivate)
             && t.pulls[id].state == MERGED && t.pulls[id].merged && Within(t.pulls[id].mergedAt, lo, hi)
  }

  /** Pull requests now closed without a merge, by the instant they were closed. */
  function PullsClosed(t: Tables, filter: Option<Id>, lo: int, hi: int): set<Id> {
    set id | id in t.pulls && Visible(t, filter, t.pulls[id].repositoryId, t.pulls[id].isPrivate)
             && t.pulls[id].state == CLOSED && !t.pulls[id].merged && Within(t.pulls[id].closedAt, lo, hi)
  }

  /** A series that has exactly one event for each of these items is as long as there are items. */
  lemma CountedOnce(t: Tables, filter: Option<Id>, panel: Panel, kind: Kind, lo: int, hi: int, ids: set<Id>)
    requires forall e :: e in Selected(EventUnion(t), filter, panel, kind, lo, hi) ==> e.item in ids
    requires forall id :: id in ids ==>
      exists e :: e in Selected(EventUnion(t), filter, panel, kind, lo, hi) && e.item == id
    ensures Naive(EventUnion(t), filter, panel, kind, lo, hi) == |ids|
  {
    UnionIsOnePerKind(t);
    ItemsSize(Selected(EventUnion(t), filter, panel, kind, lo, hi), ids);
  }

  /** The event of an item, given where and when it happened, is selected. */
  lemma SelectedIf(t: Tables, filter: Option<Id>, lo: int, hi: int, e: Event)
    requires (IsIssueEvent(t, e) || IsPullEvent(t, e)) && Matches(filter, e.repositoryId) && lo <= e.at < hi
    ensures e in Selected(EventUnion(t), filter, e.panel, e.kind, lo, hi)
  {
    EventIff(t, e);
  }

  lemma OpenedIssues(t: Tables, filter: Option<Id>, lo: int, hi: int)
    ensures Naive(EventUnion(t), filter, Issues, Opened, lo, hi) == |IssuesOpened(t, filter, lo, hi)|
  {
    var ids := IssuesOpened(t, filter, lo, hi);
    forall e | e in Selected(EventUnion(t), filter, Issues, Opened, lo, hi) ensures e.item in ids {
      EventIff(t, e);
    }
    forall id | id in ids
      ensures exists e :: e in Selected(EventUnion(t), filter, Issues, Opened, lo, hi) && e.item == id
    {
      var e := Event(id, Issues, Opened, t.issues[id].repositoryId, t.issues[id].createdAt);
      SelectedIf(t, filter, lo, hi, e);
      assert e.item == id;
    }
    CountedOnce(t, filter, Issues, Opened, lo, hi, ids);
  }

  lemma ClosedIssues(t: Tables, filter: Option<Id>, kind: Kind, lo: int, hi: int)
    requires kind in {Completed, NotPlanned}
    ensures Naive(EventUnion(t), filter, Issues, kind, lo, hi)
         == |IssuesClosedAs(t, filter, OutcomeReason(kind), lo, hi)|
  {
    var ids := IssuesClosedAs(t, filter, OutcomeReason(kind), lo, hi);
    forall e | e in Selected(EventUnion(t), filter, Issues, kind, lo, hi) ensures e.item in ids {
      EventIff(t, e);
    }
    forall id | id in ids
      ensures exists e :: e in Selected(EventUnion(t), filter, Issues, kind, lo, hi) && e.item == id
    {
      var e := Event(id, Issues, kind, t.issues[id].repositoryId, t.issues[id].closedAt.value);
      SelectedIf(t, filter, lo, hi, e);
      assert e.item == id;
    }
    CountedOnce(t, filter, Issues, kind, lo, hi, ids);
  }

  lemma OpenedPulls(t: Tables, filter: Option<Id>, lo: int, hi: int)
    ensures Naive(EventUnion(t), filter, PullRequests, Opened, lo, hi) == |PullsOpened(t, filter, lo, hi)|
  {
    var ids := PullsOpened(t, filter, lo, hi);
    forall e | e in Selected(EventUnion(t), filter, PullRequests, Opened, lo, hi) ensures e.item in ids {
      EventIff(t, e);
    }
    forall id | id in ids
      ensures exists e :: e in Selected(EventUnion(t), filter, PullRequests, Opened, lo, hi) && e.item == id
    {
      var e := Event(id, PullRequests, Opened, t.pulls[id].repositoryId, t.pulls[id].createdAt);
      SelectedIf(t, filter, lo, hi, e);
      assert e.item == id;
    }
    CountedOnce(t, filter, PullRequests, Opened, lo, hi, ids);
  }

  lemma MergedPulls(t: Tables, filter: Option<Id>, lo: int, hi: int)
    ensures Naive(EventUnion(t), filter, PullRequests, Merged, lo, hi) == |PullsMerged(t, filter, lo, hi)|
  {
    var ids := PullsMerged(t, filter, lo, hi);
    forall e | e in Selected(EventUnion(t), filter, PullRequests, Merged, lo, hi) ensures e.item in ids {
      EventIff(t, e);
    }
    forall id | id in ids
      ensures exists e :: e in Selected(EventUnion(t), filter, PullRequests, Merged, lo, hi) && e.item == id
    {
      var e := Event(id, PullRequests, Merged, t.pulls[id].repositoryId, t.pulls[id].mergedAt.value);
      SelectedIf(t, filter, lo, hi, e);
      assert e.item == id;
    }
    CountedOnce(t, filter, PullRequests, Merged, lo, hi, ids);
  }

  lemma ClosedPulls(t: Tables, filter: Option<Id>, lo: int, hi: int)
    ensures Naive(EventUnion(t), filter, PullRequests, ClosedUnmerged, lo, hi) == |PullsClosed(t, filter, lo, hi)|
  {
    var ids := PullsClosed(t, filter, lo, hi);
    forall e | e in Selected(EventUnion(t), filter, PullRequests, ClosedUnmerged, lo, hi) ensures e.item in ids {
      EventIff(t, e);
    }
    forall id | id in ids
      ensures exists e :: e in Selected(EventUnion(t), filter, PullRequests, ClosedUnmerged, lo, hi) && e.item == id
    {
      var e := Event(id, PullRequests, ClosedUnmerged, t.pulls[id].repositoryId, t.pulls[id].closedAt.value);
      SelectedIf(t, filter, lo, hi, e);
      assert e.item == id;
    }
    CountedOnce(t, filter, PullRequests, ClosedUnmerged, lo, hi, ids);
  }

  /**
    Each series over any interval is a count of stored rows, dated by the column that belongs to it; no
    series exists on the wrong panel.
   */
  lemma SeriesAreStoredRows(t: Tables, filter: Option<Id>, lo: int, hi: int)
    ensures var events := EventUnion(t);
      && Naive(events, filter, Issues, Opened, lo, hi) == |IssuesOpened(t, filter, lo, hi)|
      && Naive(events, filter, Issues, Completed, lo, hi) == |IssuesClosedAs(t, filter, "COMPLETED", lo, hi)|
      && Naive(events, filter, Issues, NotPlanned, lo, hi) == |IssuesClosedAs(t, filter, "NOT_PLANNED", lo, hi)|
      && Naive(events, filter, PullRequests, Opened, lo, hi) == |PullsOpened(t, filter, lo, hi)|
      && Naive(events, filter, PullRequests, Merged, lo, hi) == |PullsMerged(t, filter, lo, hi)|
      && Naive(events, filter, PullRequests, ClosedUnmerged, lo, hi) == |PullsClosed(t, filter, lo, hi)|
  {
    hide Naive, EventUnion, IssuesOpened, IssuesClosedAs, PullsOpened, PullsMerged, PullsClosed;
    OpenedIssues(t, filter, lo, hi);
    ClosedIssues(t, filter, Completed, lo, hi);
    ClosedIssues(t, filter, NotPlanned, lo, hi);
    OpenedPulls(t, filter, lo, hi);
    MergedPulls(t, filter, lo, hi);
    ClosedPulls(t, filter, lo, hi);
  }

  /** The tables hold nothing the dashboard would hide: a schema-conforming row is public. */
  lemma StoredIsVisible(t: Tables, id: Id)
    requires SchemaOk(t)
    ensures id in t.issues ==> Visible(t, None, t.issues[id].repositoryId, t.issues[id].isPrivate)
    ensures id in t.pulls ==> Visible(t, None, t.pulls[id].repositoryId, t.pulls[id].isPrivate)
  {
    if id in t.issues {
      assert IssueCheck(t.issues[id]);
    }
    if id in t.pulls {
      assert PullCheck(t.pulls[id]);
    }
  }

  // -------------------------------------------------------- panels of the tables

  /** The issue numbers of an interval. */
  ghost predicate IssueCounts(t: Tables, filter: Option<Id>, counts: map<Kind, nat>, lo: int, hi: int) {
    counts == map[Opened := |IssuesOpened(t, filter, lo, hi)|,
                  Completed := |IssuesClosedAs(t, filter, "COMPLETED", lo, hi)|,
                  NotPlanned := |IssuesClosedAs(t, filter, "NOT_PLANNED", lo, hi)|]
  }

  /** The pull request numbers of an interval. */
  ghost predicate PullCounts(t: Tables, filter: Option<Id>, counts: map<Kind, nat>, lo: int, hi: int) {
    counts == map[Opened := |PullsOpened(t, filter, lo, hi)|,
                  Merged := |PullsMerged(t, filter, lo, hi)|,
                  ClosedUnmerged := |PullsClosed(t, filter, lo, hi)|]
  }

  lemma NaiveIssueCounts(t: Tables, filter: Option<Id>, counts: map<Kind, nat>, lo: int, hi: int)
    requires counts.Keys == ISSUE_KINDS
    requires forall k :: k in ISSUE_KINDS ==> counts[k] == Naive(EventUnion(t), filter, Issues, k, lo, hi)
    ensures IssueCounts(t, filter, counts, lo, hi)
  {
    SeriesAreStoredRows(t, filter, lo, hi);
    hide Naive, EventUnion, IssuesOpened, IssuesClosedAs, PullsOpened, PullsMerged, PullsClosed;
  }

  lemma NaivePullCounts(t: Tables, filter: Option<Id>, counts: map<Kind, nat>, lo: int, hi: int)
    requires counts.Keys == PULL_KINDS
    requires forall k :: k in PULL_KINDS ==> counts[k] == Naive(EventUnion(t), filter, PullRequests, k, lo, hi)
    ensures PullCounts(t, filter, counts, lo, hi)
  {
    SeriesAreStoredRows(t, filter, lo, hi);
    hide Naive, EventUnion, IssuesOpened, IssuesClosedAs, PullsOpened, PullsMerged, PullsClosed;
  }

  /** Both panels over the stored rows: every bucket and every total counts the rows of its interval. */
  method StoredDashboard(t: Tables, filter: Option<Id>, w: Window, rows: seq<Row>)
    returns (issues: seq<Bucket>, issueTotals: map<Kind, nat>, pulls: seq<Bucket>, pullTotals: map<Kind, nat>)
    requires w.bucketS > 0 && QueryResult(rows, EventUnion(t), filter, w)
    ensures |issues| == |pulls| == |DenseBounds(w.start, w.end, w.bucketS)|
    ensures forall i :: 0 <= i < |issues| ==>
      var bin := DenseBounds(w.start, w.end, w.bucketS)[i];
      && issues[i].start == pulls[i].start == bin.left && issues[i].end == pulls[i].end == bin.right
      && IssueCounts(t, filter, issues[i].counts, bin.left, bin.right)
      && PullCounts(t, filter, pulls[i].counts, bin.left, bin.right)
    ensures IssueCounts(t, filter, issueTotals, w.start, w.end)
    ensures PullCounts(t, filter, pullTotals, w.start, w.end)
  {
    ghost var events := EventUnion(t);
    issues, issueTotals := DashboardPanel(rows, w, Issues, ISSUE_KINDS, events, filter);
    pulls, pullTotals := DashboardPanel(rows, w, PullRequests, PULL_KINDS, events, filter);
    hide EventUnion, QueryResult, Naive, IssueCounts, PullCounts, DenseBounds;
    forall i | 0 <= i < |issues|
      ensures IssueCounts(t, filter, issues[i].counts, issues[i].start, issues[i].end)
      ensures PullCounts(t, filter, pulls[i].counts, pulls[i].start, pulls[i].end)
    {
      NaiveIssueCounts(t, filter, issues[i].counts, issues[i].start, issues[i].end);
      NaivePullCounts(t, filter, pulls[i].counts, pulls[i].start, pulls[i].end);
    }
    NaiveIssueCounts(t, filter, issueTotals, w.start, w.end);
    NaivePullCounts(t, filter, pullTotals, w.start, w.end);
  }

  // ------------------------------------------------------- range all, composed

  lemma CandidatesArePositive(bucketS: nat)
    requires bucketS in CANDIDATES
    ensures bucketS > 0
  {
  }

  lemma StoredPullBalance(t: Tables, filter: Option<Id>, w: Window, pulls: map<Kind, nat>)
    requires SchemaOk(t) && Covers(EventUnion(t), filter, w) && PullCounts(t, filter, pulls, w.start, w.end)
    ensures pulls.Keys == PULL_KINDS
    ensures pulls[Opened] == pulls[Merged] + pulls[ClosedUnmerged] + OpenPulls(t, filter, w)
  {
    hide EventUnion, Naive, OpenPulls, Covers, SchemaOk, PullsOpened, PullsMerged, PullsClosed;
    SeriesAreStoredRows(t, filter, w.start, w.end);
    PullRequestsBalance(t, filter, w);
  }

  lemma StoredIssueBalance(t: Tables, filter: Option<Id>, w: Window, issues: map<Kind, nat>)
    requires SchemaOk(t) && Covers(EventUnion(t), filter, w) && IssueCounts(t, filter, issues, w.start, w.end)
    ensures issues.Keys == ISSUE_KINDS
    ensures issues[Opened]
         == issues[Completed] + issues[NotPlanned] + OpenIssues(t, filter, w) + OtherwiseClosed(t, filter)
  {
    hide EventUnion, Naive, OpenIssues, OtherwiseClosed, Covers, SchemaOk, IssuesOpened, IssuesClosedAs;
    SeriesAreStoredRows(t, filter, w.start, w.end);
    IssuesBalance(t, filter, w);
  }

  /**
    The dashboard for range all, from the stored rows to the summary: the window it builds for itself
    covers every event before now, so its totals and open counts balance. query answers the grouping query.
   */
  method DashboardOfAll(
    t: Tables, filter: Option<Id>, earliest: Option<int>, now: int, query: Window -> seq<Row>)
    returns (w: Window, issues: map<Kind, nat>, pulls: map<Kind, nat>)
    requires SchemaOk(t) && IsEarliest(earliest, EventUnion(t), filter)
    requires forall e :: e in EventUnion(t) && Matches(filter, e.repositoryId) ==> e.at < now
    requires forall v: Window :: v.bucketS > 0 ==> QueryResult(query(v), EventUnion(t), filter, v)
    ensures w.end == now && (earliest.Some? ==> w.start == earliest.value)
    ensures IssueCounts(t, filter, issues, w.start, w.end) && PullCounts(t, filter, pulls, w.start, w.end)
    ensures issues.Keys == ISSUE_KINDS && pulls.Keys == PULL_KINDS
    ensures pulls[Opened] == pulls[Merged] + pulls[ClosedUnmerged] + OpenPulls(t, filter, w)
    ensures issues[Opened]
         == issues[Completed] + issues[NotPlanned] + OpenIssues(t, filter, w) + OtherwiseClosed(t, filter)
  {
    w := BuildWindow(All, earliest, now);
    CandidatesArePositive(w.bucketS);
    AllWindowCovers(EventUnion(t), filter, earliest, w);
    hide EventUnion, QueryResult, Naive, OpenPulls, OpenIssues, OtherwiseClosed, Covers, SchemaOk;
    hide IssueCounts, PullCounts, DenseBounds;
    var issueBuckets, pullBuckets;
    issueBuckets, issues, pullBuckets, pulls := StoredDashboard(t, filter, w, query(w));
    StoredIssueBalance(t, filter, w, issues);
    StoredPullBalance(t, filter, w, pulls);
  }
}
