/**
  The dashboard aggregate: the events the current rows stand for, the grouping
  query, the fold into dense buckets, and what the numbers mean.
 */
module Aggregate {
  import opened Wrappers
  import opened Records
  import opened Snapshots
  import opened Reconcile
  import opened Buckets

  datatype Panel = Issues | PullRequests

  datatype Kind = Opened | Completed | NotPlanned | Merged | ClosedUnmerged

  /** One event; an item contributes at most one event of each kind, so events form a set. */
  datatype Event = Event(item: Id, panel: Panel, kind: Kind, repositoryId: Id, at: int)

  const ISSUE_KINDS: set<Kind> := {Opened, Completed, NotPlanned}

  const PULL_KINDS: set<Kind> := {Opened, Merged, ClosedUnmerged}

  predicate PublicRepo(t: Tables, id: Id) {
    id in t.repos && !t.repos[id].fields.isPrivate && t.repos[id].fields.isExternal
  }

  predicate PublicIssue(t: Tables, id: Id) {
    id in t.issues && PublicRepo(t, t.issues[id].repositoryId) && !t.issues[id].isPrivate
  }

  predicate PublicPull(t: Tables, id: Id) {
    id in t.pulls && PublicRepo(t, t.pulls[id].repositoryId) && !t.pulls[id].isPrivate
  }

  /** When an issue contributes an event of a kind: its creation, or its current final state. */
  function IssueEventAt(i: IssueRow, kind: Kind): Option<int> {
    match kind
    case Opened => Some(i.createdAt)
    case Completed => if i.state == CLOSED && i.stateReason == Some("COMPLETED") then i.closedAt else None
    case NotPlanned => if i.state == CLOSED && i.stateReason == Some("NOT_PLANNED") then i.closedAt else None
    case _ => None
  }

  /** The same for a pull request. */
  function PullEventAt(p: PullRow, kind: Kind): Option<int> {
    match kind
    case Opened => Some(p.createdAt)
    case Merged => if p.state == MERGED && p.merged then p.mergedAt else None
    case ClosedUnmerged => if p.state == CLOSED && !p.merged then p.closedAt else None
    case _ => None
  }

  function IssueEvents(t: Tables): set<Event> {
    set id, kind |
      id in t.issues && kind in ISSUE_KINDS && PublicIssue(t, id) && IssueEventAt(t.issues[id], kind).Some? ::
      Event(id, Issues, kind, t.issues[id].repositoryId, IssueEventAt(t.issues[id], kind).value)
  }

  function PullEvents(t: Tables): set<Event> {
    set id, kind | id in t.pulls && kind in PULL_KINDS && PublicPull(t, id) && PullEventAt(t.pulls[id], kind).Some? ::
      Event(id, PullRequests, kind, t.pulls[id].repositoryId, PullEventAt(t.pulls[id], kind).value)
  }

  /** The event union the queries share. */
  function EventUnion(t: Tables): set<Event> {
    IssueEvents(t) + PullEvents(t)
  }

  predicate Matches(filter: Option<Id>, repositoryId: Id) {
    filter.None? || filter.value == repositoryId
  }

  /** The events of one series with lo <= at < hi. */
  function Selected(events: set<Event>, filter: Option<Id>, panel: Panel, kind: Kind, lo: int, hi: int): set<Event> {
    set e | e in events && e.panel == panel && e.kind == kind && Matches(filter, e.repositoryId) && lo <= e.at < hi
  }

  /** Naive counting. */
  function Naive(events: set<Event>, filter: Option<Id>, panel: Panel, kind: Kind, lo: int, hi: int): nat {
    |Selected(events, filter, panel, kind, lo, hi)|
  }

  // ------------------------------------------------------------ grouping

  datatype Row = Row(epoch: int, panel: Panel, kind: Kind, n: nat)

  /** The events a grouped row counts. */
  function Cell(events: set<Event>, filter: Option<Id>, w: Window, panel: Panel, kind: Kind, epoch: int): set<Event>
    requires w.bucketS > 0
  {
    set e | e in Selected(events, filter, panel, kind, w.start, w.end) && GroupEpoch(e.at, w.bucketS) == epoch
  }

  ghost predicate DistinctRows(rows: seq<Row>) {
    forall i, j :: 0 <= i < j < |rows| ==> rows[i].epoch != rows[j].epoch || rows[i].kind != rows[j].kind
  }

  /** What GROUP BY promises for one panel: one row per occurring (bucket, kind), counting its events. */
  ghost predicate IsGrouping(rows: seq<Row>, events: set<Event>, filter: Option<Id>, w: Window, panel: Panel)
    requires w.bucketS > 0
  {
    && DistinctRows(rows)
    && (forall i :: 0 <= i < |rows| ==> rows[i].panel == panel)
    && (forall i :: 0 <= i < |rows| ==>
          rows[i].n == |Cell(events, filter, w, panel, rows[i].kind, rows[i].epoch)|)
    && (forall e :: e in events && e.panel == panel && Matches(filter, e.repositoryId) && w.start <= e.at < w.end ==>
          exists i :: 0 <= i < |rows| && rows[i].kind == e.kind && rows[i].epoch == GroupEpoch(e.at, w.bucketS))
  }

  function SumRows(rows: seq<Row>, epoch: int, kind: Kind): nat {
    if rows == [] then 0
    else
      var row := rows[|rows| - 1];
      SumRows(rows[..|rows| - 1], epoch, kind) + (if row.epoch == epoch && row.kind == kind then row.n else 0)
  }

  function SumKind(rows: seq<Row>, kind: Kind): nat {
    if rows == [] then 0
    else
      var row := rows[|rows| - 1];
      SumKind(rows[..|rows| - 1], kind) + (if row.kind == kind then row.n else 0)
  }

  lemma SumSnoc(rows: seq<Row>, i: nat, epoch: int, kind: Kind)
    requires i < |rows|
    ensures SumRows(rows[..i + 1], epoch, kind)
         == SumRows(rows[..i], epoch, kind) + (if rows[i].epoch == epoch && rows[i].kind == kind then rows[i].n else 0)
    ensures SumKind(rows[..i + 1], kind)
         == SumKind(rows[..i], kind) + (if rows[i].kind == kind then rows[i].n else 0)
  {
    assert rows[..i + 1][..i] == rows[..i];
  }

  datatype Bucket = Bucket(start: int, end: int, counts: map<Kind, nat>)

  type Table = map<int, map<Kind, nat>>

  function Zeros(kinds: set<Kind>): map<Kind, nat> {
    map k | k in kinds :: 0
  }

  /** by_epoch.get(epoch, zeros). */
  function CountsAt(byEpoch: Table, kinds: set<Kind>, epoch: int): map<Kind, nat> {
    if epoch in byEpoch then byEpoch[epoch] else Zeros(kinds)
  }

  /** The table holds the sums of the rows, for every bucket and every kind of the panel. */
  ghost predicate Sums(rows: seq<Row>, byEpoch: Table, kinds: set<Kind>) {
    forall epoch :: SumsAt(rows, byEpoch, kinds, epoch)
  }

  ghost predicate SumsAt(rows: seq<Row>, byEpoch: Table, kinds: set<Kind>, epoch: int) {
    && CountsAt(byEpoch, kinds, epoch).Keys == kinds
    && forall k :: k in kinds ==> CountsAt(byEpoch, kinds, epoch)[k] == SumRows(rows, epoch, k)
  }

  function AddRow(byEpoch: Table, kinds: set<Kind>, row: Row): Table
    requires row.kind in kinds && row.kind in CountsAt(byEpoch, kinds, row.epoch)
  {
    var counts := CountsAt(byEpoch, kinds, row.epoch);
    byEpoch[row.epoch := counts[row.kind := counts[row.kind] + row.n]]
  }

  lemma SumsStep(rows: seq<Row>, i: nat, byEpoch: Table, kinds: set<Kind>)
    requires i < |rows| && Sums(rows[..i], byEpoch, kinds)
    ensures SumsAt(rows[..i], byEpoch, kinds, rows[i].epoch)
    ensures Sums(rows[..i + 1], if rows[i].kind in kinds then AddRow(byEpoch, kinds, rows[i]) else byEpoch, kinds)
  {
    assert SumsAt(rows[..i], byEpoch, kinds, rows[i].epoch);
    var next := if rows[i].kind in kinds then AddRow(byEpoch, kinds, rows[i]) else byEpoch;
    var after := rows[..i + 1];
    forall epoch ensures SumsAt(after, next, kinds, epoch) {
      assert SumsAt(rows[..i], byEpoch, kinds, epoch);
      forall k | k in kinds ensures CountsAt(next, kinds, epoch)[k] == SumRows(rows[..i + 1], epoch, k) {
        SumSnoc(rows, i, epoch, k);
      }
    }
  }

  /** A bucket laid out on a bin: the clipped edges and the sums of the bin's rows. */
  ghost predicate LaidOut(rows: seq<Row>, kinds: set<Kind>, bin: Bin, bucket: Bucket) {
    && bucket.start == bin.left && bucket.end == bin.right && bucket.counts.Keys == kinds
    && forall k :: k in kinds ==> bucket.counts[k] == SumRows(rows, bin.epoch, k)
  }

  /** _fold_buckets: sums the grouped rows by bucket and kind, then lays the sums out on the dense bins. */
  method FoldBuckets(rows: seq<Row>, w: Window, kinds: set<Kind>)
    returns (buckets: seq<Bucket>, totals: map<Kind, nat>)
    requires w.bucketS > 0
    ensures totals.Keys == kinds && forall k :: k in kinds ==> totals[k] == SumKind(rows, k)
    ensures |buckets| == |DenseBounds(w.start, w.end, w.bucketS)|
    ensures forall i :: 0 <= i < |buckets| ==>
      LaidOut(rows, kinds, DenseBounds(w.start, w.end, w.bucketS)[i], buckets[i])
  {
    var byEpoch: Table := map[];
    totals := Zeros(kinds);
    for i := 0 to |rows|
      invariant totals.Keys == kinds && forall k :: k in kinds ==> totals[k] == SumKind(rows[..i], k)
      invariant Sums(rows[..i], byEpoch, kinds)
    {
      var row := rows[i];
      SumsStep(rows, i, byEpoch, kinds);
      forall k {
        SumSnoc(rows, i, row.epoch, k);
      }
      if row.kind in kinds {
        byEpoch := AddRow(byEpoch, kinds, row);
        var total: nat := totals[row.kind] + row.n;
        totals := totals[row.kind := total];
      }
    }
    assert rows[..|rows|] == rows;
    buckets := [];
    var bins := DenseBucketBounds(w.start, w.end, w.bucketS);
    for i := 0 to |bins|
      invariant |buckets| == i
      invariant forall j :: 0 <= j < i ==> LaidOut(rows, kinds, bins[j], buckets[j])
    {
      assert SumsAt(rows, byEpoch, kinds, bins[i].epoch);
      buckets := buckets + [Bucket(bins[i].left, bins[i].right, CountsAt(byEpoch, kinds, bins[i].epoch))];
    }
  }

  // --------------------------------------------- the fold equals naive counting

  lemma {:induction false} SumRowsPrefix(
    rows: seq<Row>, events: set<Event>, filter: Option<Id>, w: Window, panel: Panel, epoch: int, kind: Kind, i: nat)
    requires w.bucketS > 0 && IsGrouping(rows, events, filter, w, panel) && i <= |rows|
    ensures SumRows(rows[..i], epoch, kind)
         == if exists j :: 0 <= j < i && rows[j].epoch == epoch && rows[j].kind == kind
            then |Cell(events, filter, w, panel, kind, epoch)| else 0
  {
    if i > 0 {
      SumRowsPrefix(rows, events, filter, w, panel, epoch, kind, i - 1);
      SumSnoc(rows, i - 1, epoch, kind);
    }
  }

  lemma SumRowsIsCell(
    rows: seq<Row>, events: set<Event>, filter: Option<Id>, w: Window, panel: Panel, epoch: int, kind: Kind)
    requires w.bucketS > 0 && IsGrouping(rows, events, filter, w, panel)
    ensures SumRows(rows, epoch, kind) == |Cell(events, filter, w, panel, kind, epoch)|
  {
    SumRowsPrefix(rows, events, filter, w, panel, epoch, kind, |rows|);
    assert rows[..|rows|] == rows;
    var cell := Cell(events, filter, w, panel, kind, epoch);
    if !exists j :: 0 <= j < |rows| && rows[j].epoch == epoch && rows[j].kind == kind {
      assert cell == {};
    }
  }

  // Totals, for an arbitrary way g of assigning events to epochs.

  ghost function Part(s: set<Event>, g: Event -> int, epoch: int): set<Event> {
    set e | e in s && g(e) == epoch
  }

  ghost predicate Occurs(rows: seq<Row>, kind: Kind, epoch: int) {
    exists j :: 0 <= j < |rows| && rows[j].kind == kind && rows[j].epoch == epoch
  }

  ghost function Seen(rows: seq<Row>, s: set<Event>, g: Event -> int, kind: Kind): set<Event> {
    set e | e in s && Occurs(rows, kind, g(e))
  }

  lemma OccursSnoc(rows: seq<Row>, i: nat, kind: Kind, epoch: int)
    requires i < |rows|
    ensures Occurs(rows[..i + 1], kind, epoch)
       <==> Occurs(rows[..i], kind, epoch) || (rows[i].kind == kind && rows[i].epoch == epoch)
    ensures DistinctRows(rows) && rows[i].kind == kind ==> !Occurs(rows[..i], kind, rows[i].epoch)
  {
    if rows[i].kind == kind && rows[i].epoch == epoch {
      assert rows[..i + 1][i] == rows[i];
    }
    if Occurs(rows[..i], kind, epoch) {
      var j :| 0 <= j < i && rows[..i][j].kind == kind && rows[..i][j].epoch == epoch;
      assert rows[..i + 1][j] == rows[j];
    }
  }

  lemma SeenSnoc(rows: seq<Row>, s: set<Event>, g: Event -> int, kind: Kind, i: nat)
    requires i < |rows|
    ensures Seen(rows[..i + 1], s, g, kind)
         == Seen(rows[..i], s, g, kind) + (if rows[i].kind == kind then Part(s, g, rows[i].epoch) else {})
  {
    forall e | e in s {
      OccursSnoc(rows, i, kind, g(e));
    }
    hide Occurs;
  }

  lemma SeenApart(rows: seq<Row>, s: set<Event>, g: Event -> int, kind: Kind, i: nat)
    requires i < |rows| && DistinctRows(rows) && rows[i].kind == kind
    ensures Seen(rows[..i], s, g, kind) !! Part(s, g, rows[i].epoch)
  {
    OccursSnoc(rows, i, kind, rows[i].epoch);
    hide Occurs;
  }

  lemma SeenGrows(rows: seq<Row>, s: set<Event>, g: Event -> int, kind: Kind, i: nat)
    requires i < |rows| && DistinctRows(rows)
    ensures |Seen(rows[..i + 1], s, g, kind)|
         == |Seen(rows[..i], s, g, kind)| + (if rows[i].kind == kind then |Part(s, g, rows[i].epoch)| else 0)
  {
    hide Seen, Part, DistinctRows;
    SeenSnoc(rows, s, g, kind, i);
    if rows[i].kind == kind {
      SeenApart(rows, s, g, kind, i);
    }
  }

  lemma {:induction false} SumKindPrefix(rows: seq<Row>, s: set<Event>, g: Event -> int, kind: Kind, i: nat)
    requires i <= |rows| && DistinctRows(rows)
    requires forall j :: 0 <= j < |rows| && rows[j].kind == kind ==> rows[j].n == |Part(s, g, rows[j].epoch)|
    ensures SumKind(rows[..i], kind) == |Seen(rows[..i], s, g, kind)|
  {
    if i > 0 {
      SumKindPrefix(rows, s, g, kind, i - 1);
      SumSnoc(rows, i - 1, rows[i - 1].epoch, kind);
      SeenGrows(rows, s, g, kind, i - 1);
    }
  }

  /** Summary totals are the naive counts of the window. */
  lemma TotalsAreNaive(
    rows: seq<Row>, events: set<Event>, filter: Option<Id>, w: Window, panel: Panel, kind: Kind)
    requires w.bucketS > 0 && IsGrouping(rows, events, filter, w, panel)
    ensures SumKind(rows, kind) == Naive(events, filter, panel, kind, w.start, w.end)
  {
    var s := Selected(events, filter, panel, kind, w.start, w.end);
    var g := (e: Event) => GroupEpoch(e.at, w.bucketS);
    forall j | 0 <= j < |rows| && rows[j].kind == kind ensures rows[j].n == |Part(s, g, rows[j].epoch)| {
      assert Part(s, g, rows[j].epoch) == Cell(events, filter, w, panel, kind, rows[j].epoch);
    }
    SumKindPrefix(rows, s, g, kind, |rows|);
    assert rows[..|rows|] == rows;
    assert Seen(rows, s, g, kind) == s;
  }

  /** Every bucket holds the naive count of its own clipped interval, for any window at all. */
  lemma BucketsAreNaive(
    rows: seq<Row>, events: set<Event>, filter: Option<Id>, w: Window, panel: Panel, kind: Kind, i: nat)
    requires w.bucketS > 0 && IsGrouping(rows, events, filter, w, panel)
    requires i < |DenseBounds(w.start, w.end, w.bucketS)|
    ensures var bin := DenseBounds(w.start, w.end, w.bucketS)[i];
      SumRows(rows, bin.epoch, kind) == Naive(events, filter, panel, kind, bin.left, bin.right)
  {
    var bin := DenseBounds(w.start, w.end, w.bucketS)[i];
    SumRowsIsCell(rows, events, filter, w, panel, bin.epoch, kind);
    hide DenseBounds, IsGrouping, SumRows;
    forall e | e in events
      ensures w.start <= e.at < w.end && GroupEpoch(e.at, w.bucketS) == bin.epoch <==> bin.left <= e.at < bin.right
    {
      BinHolds(w.start, w.end, w.bucketS, i, e.at);
    }
    assert Cell(events, filter, w, panel, kind, bin.epoch)
        == Selected(events, filter, panel, kind, bin.left, bin.right);
  }

  // -------------------------------------------------------------- column sums

  /** The sum of a series over the first i bins. */
  function Column(events: set<Event>, filter: Option<Id>, w: Window, panel: Panel, kind: Kind, i: nat): nat
    requires w.bucketS > 0 && i <= |DenseBounds(w.start, w.end, w.bucketS)|
  {
    if i == 0 then 0
    else
      var bin := DenseBounds(w.start, w.end, w.bucketS)[i - 1];
      Column(events, filter, w, panel, kind, i - 1) + Naive(events, filter, panel, kind, bin.left, bin.right)
  }

  lemma NaiveSplits(events: set<Event>, filter: Option<Id>, panel: Panel, kind: Kind, lo: int, mid: int, hi: int)
    requires lo <= mid <= hi
    ensures Naive(events, filter, panel, kind, lo, hi)
         == Naive(events, filter, panel, kind, lo, mid) + Naive(events, filter, panel, kind, mid, hi)
  {
    assert Selected(events, filter, panel, kind, lo, hi)
        == Selected(events, filter, panel, kind, lo, mid) + Selected(events, filter, panel, kind, mid, hi);
  }

  lemma NaiveEmpty(events: set<Event>, filter: Option<Id>, panel: Panel, kind: Kind, lo: int, hi: int)
    requires hi <= lo
    ensures Naive(events, filter, panel, kind, lo, hi) == 0
  {
    assert Selected(events, filter, panel, kind, lo, hi) == {};
  }

  /** The first i bins count what lies before their common right edge. */
  lemma {:induction false} ColumnPrefix(
    events: set<Event>, filter: Option<Id>, w: Window, panel: Panel, kind: Kind, i: nat)
    requires w.bucketS > 0 && !Skips(w.start, w.bucketS) && i <= |DenseBounds(w.start, w.end, w.bucketS)|
    ensures Column(events, filter, w, panel, kind, i)
         == Naive(events, filter, panel, kind, w.start, Reach(w.start, w.end, w.bucketS, i))
  {
    if i == 0 {
      NaiveEmpty(events, filter, panel, kind, w.start, w.start);
    } else {
      ColumnPrefix(events, filter, w, panel, kind, i - 1);
      BinContinues(w.start, w.end, w.bucketS, i - 1);
      var bin := DenseBounds(w.start, w.end, w.bucketS)[i - 1];
      var reach := Reach(w.start, w.end, w.bucketS, i - 1);
      if bin.left == reach {
        NaiveSplits(events, filter, panel, kind, w.start, reach, bin.right);
      } else {
        NaiveEmpty(events, filter, panel, kind, bin.left, bin.right);
      }
    }
  }

  lemma ColumnTotal(events: set<Event>, filter: Option<Id>, w: Window, panel: Panel, kind: Kind)
    requires w.bucketS > 0 && w.start < w.end && !Skips(w.start, w.bucketS)
    ensures Column(events, filter, w, panel, kind, |DenseBounds(w.start, w.end, w.bucketS)|)
         == Naive(events, filter, panel, kind, w.start, w.end)
  {
    ColumnPrefix(events, filter, w, panel, kind, |DenseBounds(w.start, w.end, w.bucketS)|);
    LastBinReachesEnd(w.start, w.end, w.bucketS);
  }

  lemma {:induction false} ColumnMisses(
    events: set<Event>, filter: Option<Id>, w: Window, panel: Panel, kind: Kind, i: nat)
    requires w.bucketS > 0 && Skips(w.start, w.bucketS) && i <= |DenseBounds(w.start, w.end, w.bucketS)|
    requires forall e :: e in events ==> e.at == w.start
    ensures Column(events, filter, w, panel, kind, i) == 0
  {
    if i > 0 {
      ColumnMisses(events, filter, w, panel, kind, i - 1);
      SkippedBinsStartLate(w.start, w.end, w.bucketS, i - 1);
      var bin := DenseBounds(w.start, w.end, w.bucketS)[i - 1];
      assert Selected(events, filter, panel, kind, bin.left, bin.right) == {};
    }
  }

  /** Columns add up to the totals for every set of events exactly when truncation does not skip the left edge. */
  lemma ColumnsEqualTotalsIff(w: Window, filter: Option<Id>, panel: Panel, kind: Kind)
    requires w.bucketS > 0 && w.start < w.end
    ensures (forall events: set<Event> ::
               Column(events, filter, w, panel, kind, |DenseBounds(w.start, w.end, w.bucketS)|)
               == Naive(events, filter, panel, kind, w.start, w.end))
       <==> !Skips(w.start, w.bucketS)
  {
    var n := |DenseBounds(w.start, w.end, w.bucketS)|;
    if Skips(w.start, w.bucketS) {
      var repo := if filter.Some? then filter.value else Id("");
      var lost := Event(Id("lost"), panel, kind, repo, w.start);
      ColumnMisses({lost}, filter, w, panel, kind, n);
      assert Selected({lost}, filter, panel, kind, w.start, w.end) == {lost};
      assert Column({lost}, filter, w, panel, kind, n) != Naive({lost}, filter, panel, kind, w.start, w.end);
    } else {
      forall events: set<Event> {
        ColumnTotal(events, filter, w, panel, kind);
      }
    }
  }

  /** A window starting half a second before 1970 loses an event at its very start. */
  lemma SkippedEdgeWitness()
    ensures var w := Window(-500_000, 60_000_000, 60);
      && Skips(w.start, w.bucketS)
      && DenseBounds(w.start, w.end, w.bucketS) == [Bin(0, 60_000_000, 0)]
  {
    var bins := DenseBounds(-500_000, 60_000_000, 60);
    assert BinCount(-500_000, 60_000_000, 60) == 1;
    assert bins[0] == Bin(0, 60_000_000, 0);
  }

  /** Midnight of 11 August 2026. */
  const TODAY := 1_786_406_400_000_000

  /** Range all, today, with the earliest event half a second before 1970: that event is in the total and in no bin. */
  lemma SkippedEdgeToday(panel: Panel, kind: Kind)
    ensures var w := Window(-500_000, TODAY, 86400); var lost := {Event(Id("lost"), panel, kind, Id("repo"), w.start)};
      && IsBucketWidth(SpanSeconds(w.end - w.start), w.bucketS) && Skips(w.start, w.bucketS)
      && Naive(lost, None, panel, kind, w.start, w.end) == 1
      && Column(lost, None, w, panel, kind, |DenseBounds(w.start, w.end, w.bucketS)|) == 0
  {
    var w := Window(-500_000, TODAY, 86400);
    var lost := {Event(Id("lost"), panel, kind, Id("repo"), w.start)};
    assert CANDIDATES[7] == 86400;
    assert Selected(lost, None, panel, kind, w.start, w.end) == lost;
    ColumnMisses(lost, None, w, panel, kind, |DenseBounds(w.start, w.end, w.bucketS)|);
  }

  // ----------------------------------------------------- one dashboard panel

  /** What the grouping query returns: both panels, one row per occurring (bucket, panel, kind). */
  ghost predicate QueryResult(rows: seq<Row>, events: set<Event>, filter: Option<Id>, w: Window)
    requires w.bucketS > 0
  {
    && (forall i, j :: 0 <= i < j < |rows| ==>
          rows[i].epoch != rows[j].epoch || rows[i].panel != rows[j].panel || rows[i].kind != rows[j].kind)
    && (forall i :: 0 <= i < |rows| ==>
          rows[i].n == |Cell(events, filter, w, rows[i].panel, rows[i].kind, rows[i].epoch)|)
    && (forall e :: e in events && Matches(filter, e.repositoryId) && w.start <= e.at < w.end ==>
          exists r :: r in rows && r.panel == e.panel && r.kind == e.kind && r.epoch == GroupEpoch(e.at, w.bucketS))
  }

  /** The rows of one panel, in order. */
  function OnPanel(rows: seq<Row>, panel: Panel): seq<Row> {
    if rows == [] then []
    else
      var last := rows[|rows| - 1];
      OnPanel(rows[..|rows| - 1], panel) + (if last.panel == panel then [last] else [])
  }

  lemma {:induction false} OnPanelKeeps(rows: seq<Row>, panel: Panel)
    ensures forall r :: r in OnPanel(rows, panel) <==> r in rows && r.panel == panel
    ensures (forall i, j :: 0 <= i < j < |rows| ==>
               rows[i].epoch != rows[j].epoch || rows[i].panel != rows[j].panel || rows[i].kind != rows[j].kind)
            ==> DistinctRows(OnPanel(rows, panel))
  {
    if rows != [] {
      var n := |rows| - 1;
      OnPanelKeeps(rows[..n], panel);
      assert rows == rows[..n] + [rows[n]];
      forall r | r in OnPanel(rows[..n], panel) ensures exists i :: 0 <= i < n && rows[i] == r {
        assert r in rows[..n];
      }
    }
  }

  lemma PanelIsGrouped(rows: seq<Row>, events: set<Event>, filter: Option<Id>, w: Window, panel: Panel)
    requires w.bucketS > 0 && QueryResult(rows, events, filter, w)
    ensures IsGrouping(OnPanel(rows, panel), events, filter, w, panel)
  {
    var mine := OnPanel(rows, panel);
    OnPanelKeeps(rows, panel);
    forall i | 0 <= i < |mine|
      ensures mine[i].panel == panel
      ensures mine[i].n == |Cell(events, filter, w, panel, mine[i].kind, mine[i].epoch)|
    {
      assert mine[i] in mine;
      var j :| 0 <= j < |rows| && rows[j] == mine[i];
    }
    forall e | e in events && e.panel == panel && Matches(filter, e.repositoryId) && w.start <= e.at < w.end
      ensures exists i :: 0 <= i < |mine| && mine[i].kind == e.kind && mine[i].epoch == GroupEpoch(e.at, w.bucketS)
    {
      var r :| r in rows && r.panel == e.panel && r.kind == e.kind && r.epoch == GroupEpoch(e.at, w.bucketS);
      assert r in mine;
    }
  }

  /** One panel of the response: every bucket and every total is the naive count of its interval. */
  method DashboardPanel(
    rows: seq<Row>, w: Window, panel: Panel, kinds: set<Kind>, ghost events: set<Event>, ghost filter: Option<Id>)
    returns (buckets: seq<Bucket>, totals: map<Kind, nat>)
    requires w.bucketS > 0 && QueryResult(rows, events, filter, w)
    ensures |buckets| == |DenseBounds(w.start, w.end, w.bucketS)|
    ensures forall i :: 0 <= i < |buckets| ==>
      var bin := DenseBounds(w.start, w.end, w.bucketS)[i];
      && buckets[i].start == bin.left && buckets[i].end == bin.right && buckets[i].counts.Keys == kinds
      && forall k :: k in kinds ==>
           buckets[i].counts[k] == Naive(events, filter, panel, k, buckets[i].start, buckets[i].end)
    ensures totals.Keys == kinds
    ensures forall k :: k in kinds ==> totals[k] == Naive(events, filter, panel, k, w.start, w.end)
  {
    var mine := OnPanel(rows, panel);
    PanelIsGrouped(rows, events, filter, w, panel);
    buckets, totals := FoldBuckets(mine, w, kinds);
    forall k | k in kinds {
      TotalsAreNaive(mine, events, filter, w, panel, k);
    }
    forall i, k | 0 <= i < |buckets| && k in kinds
      ensures buckets[i].counts[k] == Naive(events, filter, panel, k, buckets[i].start, buckets[i].end)
    {
      BucketsAreNaive(mine, events, filter, w, panel, k, i);
    }
  }

  // ----------------------------------------------------------------- windows

  datatype Range = All | Last(delta: int)

  /** SELECT MIN(event_at) over the filtered events. */
  ghost predicate IsEarliest(earliest: Option<int>, events: set<Event>, filter: Option<Id>) {
    match earliest
    case None => forall e :: e in events ==> !Matches(filter, e.repositoryId)
    case Some(at) =>
      && (exists e :: e in events && Matches(filter, e.repositoryId) && e.at == at)
      && (forall e :: e in events && Matches(filter, e.repositoryId) ==> at <= e.at)
  }

  method BuildWindow(range: Range, earliest: Option<int>, now: int) returns (w: Window)
    ensures w.end == now && w.bucketS in CANDIDATES
    ensures range.Last? ==> w.start == now - range.delta && IsBucketWidth(SpanSeconds(range.delta), w.bucketS)
    ensures range.All? && earliest.None? ==> w.start == now
    ensures range.All? && earliest.Some? ==>
      w.start == earliest.value && IsBucketWidth(SpanSeconds(now - earliest.value), w.bucketS)
  {
    match (range, earliest) {
      case (Last(delta), _) =>
        var width := BucketSeconds(delta);
        w := Window(now - delta, now, width);
      case (All, Some(start)) =>
        var width := BucketSeconds(now - start);
        w := Window(start, now, width);
      case (All, None) =>
        var width := BucketSeconds(now);
        w := Window(now, now, width);
    }
  }

  // ------------------------------------------------------------- conservation

  /** currently_open of the issue summary. */
  function OpenIssues(t: Tables, filter: Option<Id>, w: Window): nat {
    |set id | id in t.issues && PublicIssue(t, id) && t.issues[id].state == OPEN
              && w.start <= t.issues[id].createdAt < w.end && Matches(filter, t.issues[id].repositoryId)|
  }

  /** currently_open of the pull request summary. */
  function OpenPulls(t: Tables, filter: Option<Id>, w: Window): nat {
    |set id | id in t.pulls && PublicPull(t, id) && t.pulls[id].state == OPEN
              && w.start <= t.pulls[id].createdAt < w.end && Matches(filter, t.pulls[id].repositoryId)|
  }

  /** Issues closed for a reason that belongs to neither outcome series. */
  function OtherwiseClosed(t: Tables, filter: Option<Id>): nat {
    |set id | id in t.issues && PublicIssue(t, id) && t.issues[id].state == CLOSED
              && t.issues[id].stateReason !in {Some("COMPLETED"), Some("NOT_PLANNED")}
              && Matches(filter, t.issues[id].repositoryId)|
  }

  /** Events of distinct items are as many as their items. */
  lemma {:induction false} ItemsSize(events: set<Event>, ids: set<Id>)
    requires forall e, f :: e in events && f in events && e.item == f.item ==> e == f
    requires forall e :: e in events ==> e.item in ids
    requires forall id :: id in ids ==> exists e :: e in events && e.item == id
    ensures |events| == |ids|
  {
    if events == {} {
      assert ids == {};
    } else {
      var e :| e in events;
      ItemsSize(events - {e}, ids - {e.item});
    }
  }

  /** Every event of the filtered items lies in the window of range all. */
  ghost predicate Covers(events: set<Event>, filter: Option<Id>, w: Window) {
    forall e :: e in events && Matches(filter, e.repositoryId) ==> w.start <= e.at < w.end
  }

  lemma AllWindowCovers(events: set<Event>, filter: Option<Id>, earliest: Option<int>, w: Window)
    requires IsEarliest(earliest, events, filter)
    requires earliest.Some? ==> w.start == earliest.value
    requires forall e :: e in events && Matches(filter, e.repositoryId) ==> e.at < w.end
    ensures Covers(events, filter, w)
  {
  }

  /** The items of one series. */
  ghost function Items(events: set<Event>, filter: Option<Id>, panel: Panel, kind: Kind): set<Id> {
    set e | e in events && e.panel == panel && e.kind == kind && Matches(filter, e.repositoryId) :: e.item
  }

  /** An item contributes at most one event of each kind. */
  ghost predicate OnePerKind(events: set<Event>) {
    forall e, f :: e in events && f in events && e.panel == f.panel && e.kind == f.kind && e.item == f.item ==> e == f
  }

  lemma SeriesSize(events: set<Event>, filter: Option<Id>, w: Window, panel: Panel, kind: Kind)
    requires Covers(events, filter, w) && OnePerKind(events)
    ensures Naive(events, filter, panel, kind, w.start, w.end) == |Items(events, filter, panel, kind)|
  {
    ItemsSize(Selected(events, filter, panel, kind, w.start, w.end), Items(events, filter, panel, kind));
  }

  /** Membership in the event union, item by item. */
  ghost predicate IsIssueEvent(t: Tables, e: Event) {
    && e.panel == Issues && PublicIssue(t, e.item) && e.repositoryId == t.issues[e.item].repositoryId
    && IssueEventAt(t.issues[e.item], e.kind) == Some(e.at)
  }

  ghost predicate IsPullEvent(t: Tables, e: Event) {
    && e.panel == PullRequests && PublicPull(t, e.item) && e.repositoryId == t.pulls[e.item].repositoryId
    && PullEventAt(t.pulls[e.item], e.kind) == Some(e.at)
  }

  lemma IssueEventIff(t: Tables, e: Event)
    ensures e in IssueEvents(t) <==> IsIssueEvent(t, e)
  {
    if IsIssueEvent(t, e) {
      assert e.kind in ISSUE_KINDS;
      assert e == Event(e.item, Issues, e.kind, e.repositoryId, IssueEventAt(t.issues[e.item], e.kind).value);
    }
  }

  lemma PullEventIff(t: Tables, e: Event)
    ensures e in PullEvents(t) <==> IsPullEvent(t, e)
  {
    if IsPullEvent(t, e) {
      assert e.kind in PULL_KINDS;
      assert e == Event(e.item, PullRequests, e.kind, e.repositoryId, PullEventAt(t.pulls[e.item], e.kind).value);
    }
  }

  lemma EventIff(t: Tables, e: Event)
    ensures e in EventUnion(t) <==> IsIssueEvent(t, e) || IsPullEvent(t, e)
  {
    IssueEventIff(t, e);
    PullEventIff(t, e);
  }

  lemma UnionIsOnePerKind(t: Tables)
    ensures OnePerKind(EventUnion(t))
  {
    forall e, f | e in EventUnion(t) && f in EventUnion(t) && e.panel == f.panel && e.kind == f.kind && e.item == f.item
      ensures e == f
    {
      EventIff(t, e);
      EventIff(t, f);
    }
  }

  lemma DisjointSizes(a: set<Id>, b: set<Id>, c: set<Id>, d: set<Id>)
    requires a !! b && (a + b) !! c && (a + b + c) !! d
    ensures |a + b + c + d| == |a| + |b| + |c| + |d|
  {
  }

  // Pull requests

  /** The filtered pull requests in one state. */
  function PullsIn(t: Tables, filter: Option<Id>, state: ItemState): set<Id> {
    set id | id in t.pulls && Matches(filter, t.pulls[id].repositoryId) && t.pulls[id].state == state
  }

  lemma PullsSplit(t: Tables, filter: Option<Id>)
    ensures |PullsIn(t, filter, OPEN) + PullsIn(t, filter, CLOSED) + PullsIn(t, filter, MERGED)|
         == |PullsIn(t, filter, OPEN)| + |PullsIn(t, filter, CLOSED)| + |PullsIn(t, filter, MERGED)|
  {
    assert PullsIn(t, filter, OPEN) !! PullsIn(t, filter, CLOSED);
    assert PullsIn(t, filter, OPEN) + PullsIn(t, filter, CLOSED) !! PullsIn(t, filter, MERGED);
  }

  lemma MergedItems(t: Tables, filter: Option<Id>)
    requires SchemaOk(t)
    ensures Items(EventUnion(t), filter, PullRequests, Merged) == PullsIn(t, filter, MERGED)
  {
    var items := Items(EventUnion(t), filter, PullRequests, Merged);
    forall id | id in items ensures id in PullsIn(t, filter, MERGED) {
      var e :| e in EventUnion(t) && e.panel == PullRequests && e.kind == Merged &&
               Matches(filter, e.repositoryId) && e.item == id;
      EventIff(t, e);
    }
    forall id | id in PullsIn(t, filter, MERGED) ensures id in items {
      var p := t.pulls[id];
      assert PullCheck(p);
      var e := Event(id, PullRequests, Merged, p.repositoryId, p.mergedAt.value);
      EventIff(t, e);
      assert e.item == id;
    }
  }

  lemma ClosedItems(t: Tables, filter: Option<Id>)
    requires SchemaOk(t)
    ensures Items(EventUnion(t), filter, PullRequests, ClosedUnmerged) == PullsIn(t, filter, CLOSED)
  {
    var items := Items(EventUnion(t), filter, PullRequests, ClosedUnmerged);
    forall id | id in items ensures id in PullsIn(t, filter, CLOSED) {
      var e :| e in EventUnion(t) && e.panel == PullRequests && e.kind == ClosedUnmerged &&
               Matches(filter, e.repositoryId) && e.item == id;
      EventIff(t, e);
    }
    forall id | id in PullsIn(t, filter, CLOSED) ensures id in items {
      var p := t.pulls[id];
      assert PullCheck(p);
      var e := Event(id, PullRequests, ClosedUnmerged, p.repositoryId, p.closedAt.value);
      EventIff(t, e);
      assert e.item == id;
    }
  }

  lemma OpenedPullItems(t: Tables, filter: Option<Id>)
    requires SchemaOk(t)
    ensures Items(EventUnion(t), filter, PullRequests, Opened)
         == PullsIn(t, filter, OPEN) + PullsIn(t, filter, CLOSED) + PullsIn(t, filter, MERGED)
  {
    var items := Items(EventUnion(t), filter, PullRequests, Opened);
    forall id | id in items ensures id in t.pulls && Matches(filter, t.pulls[id].repositoryId) {
      var e :| e in EventUnion(t) && e.panel == PullRequests && e.kind == Opened &&
               Matches(filter, e.repositoryId) && e.item == id;
      EventIff(t, e);
    }
    forall id | id in t.pulls && Matches(filter, t.pulls[id].repositoryId) ensures id in items {
      var p := t.pulls[id];
      assert PullCheck(p);
      var e := Event(id, PullRequests, Opened, p.repositoryId, p.createdAt);
      EventIff(t, e);
      assert e.item == id;
    }
  }

  lemma OpenPullsAreCounted(t: Tables, filter: Option<Id>, w: Window)
    requires SchemaOk(t) && Covers(EventUnion(t), filter, w)
    ensures OpenPulls(t, filter, w) == |PullsIn(t, filter, OPEN)|
  {
    forall id | id in PullsIn(t, filter, OPEN)
      ensures PublicPull(t, id) && w.start <= t.pulls[id].createdAt < w.end
    {
      assert PullCheck(t.pulls[id]);
      EventIff(t, Event(id, PullRequests, Opened, t.pulls[id].repositoryId, t.pulls[id].createdAt));
    }
    assert PullsIn(t, filter, OPEN)
        == set id | id in t.pulls && PublicPull(t, id) && t.pulls[id].state == OPEN
                    && w.start <= t.pulls[id].createdAt < w.end && Matches(filter, t.pulls[id].repositoryId);
  }

  /** Pull requests opened = merged + closed unmerged + currently open, whenever the window covers their events. */
  lemma PullRequestsBalance(t: Tables, filter: Option<Id>, w: Window)
    requires SchemaOk(t) && Covers(EventUnion(t), filter, w)
    ensures var events := EventUnion(t);
      Naive(events, filter, PullRequests, Opened, w.start, w.end)
      == Naive(events, filter, PullRequests, Merged, w.start, w.end)
       + Naive(events, filter, PullRequests, ClosedUnmerged, w.start, w.end)
       + OpenPulls(t, filter, w)
  {
    var events := EventUnion(t);
    UnionIsOnePerKind(t);
    SeriesSize(events, filter, w, PullRequests, Opened);
    SeriesSize(events, filter, w, PullRequests, Merged);
    SeriesSize(events, filter, w, PullRequests, ClosedUnmerged);
    OpenedPullItems(t, filter);
    MergedItems(t, filter);
    ClosedItems(t, filter);
    OpenPullsAreCounted(t, filter, w);
    PullsSplit(t, filter);
  }

  // Issues

  /** The filtered issues in one state, for one of the given reasons. */
  function IssuesIn(t: Tables, filter: Option<Id>, state: ItemState, reason: string): set<Id> {
    set id | id in t.issues && Matches(filter, t.issues[id].repositoryId) && t.issues[id].state == state
             && t.issues[id].stateReason == Some(reason)
  }

  function IssuesOpen(t: Tables, filter: Option<Id>): set<Id> {
    set id | id in t.issues && Matches(filter, t.issues[id].repositoryId) && t.issues[id].state == OPEN
  }

  function IssuesOther(t: Tables, filter: Option<Id>): set<Id> {
    set id | id in t.issues && Matches(filter, t.issues[id].repositoryId) && t.issues[id].state == CLOSED
             && t.issues[id].stateReason != Some("COMPLETED") && t.issues[id].stateReason != Some("NOT_PLANNED")
  }

  function OutcomeReason(kind: Kind): string
    requires kind in {Completed, NotPlanned}
  {
    if kind == Completed then "COMPLETED" else "NOT_PLANNED"
  }

  lemma OutcomeItems(t: Tables, filter: Option<Id>, kind: Kind)
    requires SchemaOk(t) && kind in {Completed, NotPlanned}
    ensures Items(EventUnion(t), filter, Issues, kind) == IssuesIn(t, filter, CLOSED, OutcomeReason(kind))
  {
    var items := Items(EventUnion(t), filter, Issues, kind);
    var wanted := IssuesIn(t, filter, CLOSED, OutcomeReason(kind));
    forall id | id in items ensures id in wanted {
      var e :| e in EventUnion(t) && e.panel == Issues && e.kind == kind &&
               Matches(filter, e.repositoryId) && e.item == id;
      EventIff(t, e);
    }
    forall id | id in wanted ensures id in items {
      var i := t.issues[id];
      assert IssueCheck(i);
      var e := Event(id, Issues, kind, i.repositoryId, i.closedAt.value);
      EventIff(t, e);
      assert e.item == id;
    }
  }

  function AllIssues(t: Tables, filter: Option<Id>): set<Id> {
    set id | id in t.issues && Matches(filter, t.issues[id].repositoryId)
  }

  lemma OpenedIssueItems(t: Tables, filter: Option<Id>)
    requires SchemaOk(t)
    ensures Items(EventUnion(t), filter, Issues, Opened) == AllIssues(t, filter)
  {
    var items := Items(EventUnion(t), filter, Issues, Opened);
    forall id | id in items ensures id in t.issues && Matches(filter, t.issues[id].repositoryId) {
      var e :| e in EventUnion(t) && e.panel == Issues && e.kind == Opened &&
               Matches(filter, e.repositoryId) && e.item == id;
      EventIff(t, e);
    }
    forall id | id in t.issues && Matches(filter, t.issues[id].repositoryId) ensures id in items {
      var i := t.issues[id];
      assert IssueCheck(i);
      var e := Event(id, Issues, Opened, i.repositoryId, i.createdAt);
      EventIff(t, e);
      assert e.item == id;
    }
  }

  lemma OpenIssuesAreCounted(t: Tables, filter: Option<Id>, w: Window)
    requires SchemaOk(t) && Covers(EventUnion(t), filter, w)
    ensures OpenIssues(t, filter, w) == |IssuesOpen(t, filter)|
    ensures OtherwiseClosed(t, filter) == |IssuesOther(t, filter)|
  {
    forall id | id in t.issues && Matches(filter, t.issues[id].repositoryId)
      ensures PublicIssue(t, id) && w.start <= t.issues[id].createdAt < w.end
    {
      assert IssueCheck(t.issues[id]);
      EventIff(t, Event(id, Issues, Opened, t.issues[id].repositoryId, t.issues[id].createdAt));
    }
    assert IssuesOpen(t, filter)
        == set id | id in t.issues && PublicIssue(t, id) && t.issues[id].state == OPEN
                    && w.start <= t.issues[id].createdAt < w.end && Matches(filter, t.issues[id].repositoryId);
    assert IssuesOther(t, filter)
        == set id | id in t.issues && PublicIssue(t, id) && t.issues[id].state == CLOSED
                    && t.issues[id].stateReason !in {Some("COMPLETED"), Some("NOT_PLANNED")}
                    && Matches(filter, t.issues[id].repositoryId);
  }

  lemma IssuesCovered(t: Tables, filter: Option<Id>)
    requires SchemaOk(t)
    ensures AllIssues(t, filter)
         == IssuesIn(t, filter, CLOSED, "COMPLETED") + IssuesIn(t, filter, CLOSED, "NOT_PLANNED")
          + IssuesOpen(t, filter) + IssuesOther(t, filter)
  {
    forall id | id in t.issues ensures t.issues[id].state == OPEN || t.issues[id].state == CLOSED {
      assert IssueCheck(t.issues[id]);
    }
  }

  lemma IssuesDisjoint(t: Tables, filter: Option<Id>)
    ensures IssuesIn(t, filter, CLOSED, "COMPLETED") !! IssuesIn(t, filter, CLOSED, "NOT_PLANNED")
    ensures IssuesIn(t, filter, CLOSED, "COMPLETED") + IssuesIn(t, filter, CLOSED, "NOT_PLANNED")
         !! IssuesOpen(t, filter)
    ensures IssuesIn(t, filter, CLOSED, "COMPLETED") + IssuesIn(t, filter, CLOSED, "NOT_PLANNED")
          + IssuesOpen(t, filter) !! IssuesOther(t, filter)
  {
    assert |"COMPLETED"| != |"NOT_PLANNED"|;
  }

  lemma IssuesSplit(t: Tables, filter: Option<Id>)
    requires SchemaOk(t)
    ensures |AllIssues(t, filter)|
         == |IssuesIn(t, filter, CLOSED, "COMPLETED")| + |IssuesIn(t, filter, CLOSED, "NOT_PLANNED")|
          + |IssuesOpen(t, filter)| + |IssuesOther(t, filter)|
  {
    IssuesCovered(t, filter);
    IssuesDisjoint(t, filter);
    DisjointSizes(IssuesIn(t, filter, CLOSED, "COMPLETED"), IssuesIn(t, filter, CLOSED, "NOT_PLANNED"),
                  IssuesOpen(t, filter), IssuesOther(t, filter));
  }

  /** Issues opened = completed + not planned + currently open + closed for any other reason. */
  lemma IssuesBalance(t: Tables, filter: Option<Id>, w: Window)
    requires SchemaOk(t) && Covers(EventUnion(t), filter, w)
    ensures var events := EventUnion(t);
      Naive(events, filter, Issues, Opened, w.start, w.end)
      == Naive(events, filter, Issues, Completed, w.start, w.end)
       + Naive(events, filter, Issues, NotPlanned, w.start, w.end)
       + OpenIssues(t, filter, w) + OtherwiseClosed(t, filter)
  {
    var events := EventUnion(t);
    UnionIsOnePerKind(t);
    SeriesSize(events, filter, w, Issues, Opened);
    SeriesSize(events, filter, w, Issues, Completed);
    SeriesSize(events, filter, w, Issues, NotPlanned);
    OpenedIssueItems(t, filter);
    OutcomeItems(t, filter, Completed);
    OutcomeItems(t, filter, NotPlanned);
    OpenIssuesAreCounted(t, filter, w);
    IssuesSplit(t, filter);
  }
}
