/**
  From the server's buckets to the browser's chart. Timestamps reach the browser
  through some monotone coarsening of time (microseconds to milliseconds, say);
  rows that become zero-width are stripped, and the rest must still be a cover.
 */
module ClientCover {
  import opened Wrappers
  import opened Charts
  import opened MergeScan
  import opened StackedChart
  import A = Aggregate
  import B = Buckets
  import Numbers
  import R = Records

  /** A bucket row as parsed by the browser: start and end are None when the timestamp does not parse. */
  datatype WireRow = WireRow(start: Option<int>, end: Option<int>, columns: map<Key, Amount>)

  const DAY_MS := 86_400_000

  predicate Visible(row: WireRow) {
    row.start.Some? && row.end.Some? && row.end.value > row.start.value
  }

  /** normalizeBuckets: keeps the rows with finite edges and a positive width. */
  function NormalizeBuckets(rows: seq<WireRow>): seq<WireRow> {
    if rows == [] then []
    else
      var last := rows[|rows| - 1];
      NormalizeBuckets(rows[..|rows| - 1]) + if Visible(last) then [last] else []
  }

  /** The chart input of a kept row: the parsed edges become its own start and end. */
  function AsEvent(row: WireRow): RawEvent {
    RawEvent(row.start, Some(row.start), Some(row.end), None, Missing, row.columns)
  }

  function ChartInput(rows: seq<WireRow>): seq<RawEvent> {
    seq(|rows|, i requires 0 <= i < |rows| => AsEvent(rows[i]))
  }

  /** The range dashboardToViewModel hands to the chart; now is the browser's clock. */
  function ViewRange(start: Option<int>, end: Option<int>, now: int): Span {
    var safeStart := if start.Some? then start.value else now - DAY_MS;
    Span(safeStart, if end.Some? && end.value > safeStart then end.value else safeStart + DAY_MS)
  }

  function ViewBinMs(bucketS: Option<int>, range: Span): int {
    if bucketS.Some? && bucketS.value > 0 then bucketS.value * 1000 else range.end - range.start
  }

  ghost predicate Monotone(f: int -> int) {
    forall a, b :: a <= b ==> f(a) <= f(b)
  }

  /** The rows are the window's bins, seen through f. */
  ghost predicate Served(rows: seq<WireRow>, w: B.Window, f: int -> int)
    requires w.bucketS > 0
  {
    var bins := B.DenseBounds(w.start, w.end, w.bucketS);
    && |rows| == |bins|
    && forall i :: 0 <= i < |rows| ==> rows[i].start == Some(f(bins[i].left)) && rows[i].end == Some(f(bins[i].right))
  }

  /** Visible rows that follow one another from lo to hi; no rows only if nothing lies between. */
  ghost predicate Chain(rows: seq<WireRow>, lo: int, hi: int) {
    && (forall i :: 0 <= i < |rows| ==> Visible(rows[i]))
    && (forall i :: 0 < i < |rows| ==> rows[i - 1].end == rows[i].start)
    && (if rows == [] then lo == hi else rows[0].start == Some(lo) && rows[|rows| - 1].end == Some(hi))
  }

  /** Stripping leaves a chain over every prefix of the bins. */
  lemma {:induction false} StrippedChain(rows: seq<WireRow>, w: B.Window, f: int -> int, i: nat)
    requires w.bucketS > 0 && !B.Skips(w.start, w.bucketS) && Monotone(f) && Served(rows, w, f) && i <= |rows|
    ensures Chain(NormalizeBuckets(rows[..i]), f(w.start), f(B.Reach(w.start, w.end, w.bucketS, i)))
  {
    hide B.DenseBounds;
    if i > 0 {
      StrippedChain(rows, w, f, i - 1);
      assert rows[..i][..i - 1] == rows[..i - 1];
      B.BinContinues(w.start, w.end, w.bucketS, i - 1);
    }
  }

  lemma ChainIsDense(rows: seq<WireRow>, lo: int, hi: int)
    requires Chain(rows, lo, hi) && lo < hi
    ensures DenseInput(ChartInput(rows)) && DenseOk(ChartInput(rows), Span(lo, hi))
  {
    var events := ChartInput(rows);
    assert events[0].start.Some?;
    assert |Spans(events)| == |rows|;
  }

  /** A non-empty window seen through a monotone clock always passes the chart's validator. */
  lemma ServedRowsCover(rows: seq<WireRow>, w: B.Window, f: int -> int)
    requires w.bucketS > 0 && !B.Skips(w.start, w.bucketS) && Monotone(f) && Served(rows, w, f)
    requires f(w.start) < f(w.end)
    ensures DenseInput(ChartInput(NormalizeBuckets(rows)))
    ensures DenseOk(ChartInput(NormalizeBuckets(rows)), Span(f(w.start), f(w.end)))
  {
    StrippedChain(rows, w, f, |rows|);
    assert rows[..|rows|] == rows;
    assert w.start < w.end;
    B.LastBinReachesEnd(w.start, w.end, w.bucketS);
    ChainIsDense(NormalizeBuckets(rows), f(w.start), f(w.end));
  }

  /** A window that collapses loses all its rows. */
  lemma {:induction false} CollapsedWindow(rows: seq<WireRow>, w: B.Window, f: int -> int, i: nat)
    requires w.bucketS > 0 && Monotone(f) && Served(rows, w, f) && i <= |rows|
    requires f(w.end) <= f(w.start)
    ensures NormalizeBuckets(rows[..i]) == []
  {
    if i > 0 {
      CollapsedWindow(rows, w, f, i - 1);
      assert rows[..i][..i - 1] == rows[..i - 1];
      B.EpochOfBin(w.start, w.end, w.bucketS, i - 1);
      var bin := B.DenseBounds(w.start, w.end, w.bucketS)[i - 1];
      assert f(w.start) <= f(bin.left) && f(bin.right) <= f(w.end);
    }
  }

  /**
    A view that has lost all its rows is drawn in empty bins: one for the whole range if the server gave no
    bucket width, otherwise bins of that many seconds, the last one shorter if need be.
   */
  lemma EmptyViewBins(d: ChartData, keys: seq<Key>, range: Span, bucketS: Option<int>)
    requires range.start < range.end && PointChart(d, [], keys, range, ViewBinMs(bucketS, range))
    ensures bucketS.None? || bucketS.value <= 0 ==> BinSpans(d.bins) == [range]
    ensures bucketS.Some? && bucketS.value > 0 ==>
      forall i :: 0 <= i < |d.bins| ==>
        d.bins[i].end == d.bins[i].start + 1000 * bucketS.value
        || (i == |d.bins| - 1 && d.bins[i].end == range.end < d.bins[i].start + 1000 * bucketS.value)
    ensures forall i, k :: 0 <= i < |d.bins| && k in keys ==> d.bins[i].values[k] == 0
  {
    var spans, width := BinSpans(d.bins), ViewBinMs(bucketS, range);
    assert Regular(spans, range, width);
    forall i | 0 <= i < |spans|
      ensures range.start <= spans[i].start && spans[i].end <= range.end
      ensures spans[i].end == range.end ==> i == |spans| - 1
      ensures spans[i].end == Numbers.Min(spans[i].start + width, range.end)
      ensures spans[i] == Span(d.bins[i].start, d.bins[i].end)
    {
      CoverIsInside(spans, range, i);
      if i < |spans| - 1 {
        CoverIsInside(spans, range, i + 1);
      }
    }
    if bucketS.None? || bucketS.value <= 0 {
      assert spans[0].end == range.end;
    }
  }

  /** Whatever window the server answers for, the view built from its answer never makes the chart throw. */
  lemma ServedViewNeverThrows(
    rows: seq<WireRow>, w: B.Window, f: int -> int, now: int, series: seq<SeriesItem>)
    requires w.bucketS > 0 && !B.Skips(w.start, w.bucketS) && Monotone(f) && Served(rows, w, f) && SeriesOk(series)
    ensures var range := ViewRange(Some(f(w.start)), Some(f(w.end)), now);
      Accepts(ChartInput(NormalizeBuckets(rows)), series, range, ViewBinMs(Some(w.bucketS), range))
  {
    if f(w.start) < f(w.end) {
      ServedRowsCover(rows, w, f);
    } else {
      CollapsedWindow(rows, w, f, |rows|);
      assert rows[..|rows|] == rows;
    }
  }

  // ---------------------------------------------------------- when it throws

  function Verbatim(w: B.Window): (rows: seq<WireRow>)
    requires w.bucketS > 0
  {
    var bins := B.DenseBounds(w.start, w.end, w.bucketS);
    seq(|bins|, i requires 0 <= i < |bins| => WireRow(Some(bins[i].left), Some(bins[i].right), map[]))
  }

  lemma {:induction false} KeptFromRows(rows: seq<WireRow>, kept: WireRow)
    requires kept in NormalizeBuckets(rows)
    ensures kept in rows && Visible(kept)
  {
    var n := |rows| - 1;
    if kept in NormalizeBuckets(rows[..n]) {
      KeptFromRows(rows[..n], kept);
    }
  }

  /** If truncation skips the left edge, what is left of the rows is no cover of the window. */
  lemma SkippedRowsFail(w: B.Window)
    requires w.bucketS > 0 && w.start < w.end && B.Skips(w.start, w.bucketS)
    ensures var events := ChartInput(NormalizeBuckets(Verbatim(w)));
      DenseInput(events) ==> !DenseOk(events, Span(w.start, w.end))
  {
    var rows := NormalizeBuckets(Verbatim(w));
    var events := ChartInput(rows);
    if DenseInput(events) && DenseOk(events, Span(w.start, w.end)) {
      KeptFromRows(Verbatim(w), rows[0]);
      var i :| 0 <= i < |Verbatim(w)| && Verbatim(w)[i] == rows[0];
      B.SkippedBinsStartLate(w.start, w.end, w.bucketS, i);
    }
  }

  /**
    The rows of a window cover it under every clock that keeps it non-empty exactly when
    truncation spares its left edge.
   */
  lemma CoverIff(w: B.Window)
    requires w.bucketS > 0 && w.start < w.end
    ensures !B.Skips(w.start, w.bucketS)
       <==> forall rows: seq<WireRow>, f: int -> int :: Monotone(f) && Served(rows, w, f) && f(w.start) < f(w.end) ==>
              && DenseInput(ChartInput(NormalizeBuckets(rows)))
              && DenseOk(ChartInput(NormalizeBuckets(rows)), Span(f(w.start), f(w.end)))
  {
    if B.Skips(w.start, w.bucketS) {
      var same := (t: int) => t;
      assert Monotone(same) && Served(Verbatim(w), w, same) && same(w.start) < same(w.end);
      SkippedRowsFail(w);
    } else {
      forall rows: seq<WireRow>, f: int -> int | Monotone(f) && Served(rows, w, f) && f(w.start) < f(w.end)
        ensures DenseInput(ChartInput(NormalizeBuckets(rows)))
        ensures DenseOk(ChartInput(NormalizeBuckets(rows)), Span(f(w.start), f(w.end)))
      {
        ServedRowsCover(rows, w, f);
      }
    }
  }

  /** The chart throws on the rows of a window over a range only if there are rows and they are no cover. */
  ghost predicate Throws(rows: seq<WireRow>, range: Span) {
    var events := ChartInput(NormalizeBuckets(rows));
    DenseInput(events) && !DenseOk(events, range)
  }

  /** If all bins lie past the right edge, no clock leaves a row. */
  lemma {:induction false} BinsPastTheEnd(rows: seq<WireRow>, w: B.Window, f: int -> int, i: nat)
    requires w.bucketS > 0 && w.start < w.end <= B.AtEpoch(B.BucketEpoch(w.start, w.bucketS))
    requires Monotone(f) && Served(rows, w, f) && i <= |rows|
    ensures NormalizeBuckets(rows[..i]) == []
  {
    if i > 0 {
      BinsPastTheEnd(rows, w, f, i - 1);
      assert rows[..i][..i - 1] == rows[..i - 1];
      B.EpochOfBin(w.start, w.end, w.bucketS, i - 1);
      B.MulLe(0, i - 1, w.bucketS);
    }
  }

  lemma {:induction false} KeepsVisible(rows: seq<WireRow>, i: nat)
    requires i < |rows| && Visible(rows[i])
    ensures NormalizeBuckets(rows) != []
  {
    if i < |rows| - 1 {
      KeepsVisible(rows[..|rows| - 1], i);
    }
  }

  lemma FirstBinIsVisible(w: B.Window)
    requires w.bucketS > 0 && w.start < B.AtEpoch(B.BucketEpoch(w.start, w.bucketS)) < w.end
    ensures NormalizeBuckets(Verbatim(w)) != []
  {
    B.BinCountNat(w.start, w.end, w.bucketS);
    var first := B.BucketEpoch(w.start, w.bucketS);
    B.BucketVersusGroup(w.end - 1, w.bucketS);
    B.GroupContains(w.end - 1, w.bucketS);
    B.Multiples(B.EpochSeconds(w.start) / w.bucketS, w.bucketS);
    B.GroupContains(B.AtEpoch(first), w.bucketS);
    B.GroupUnique(B.AtEpoch(first), first, w.bucketS);
    B.GroupMonotone(B.AtEpoch(first), w.end - 1, w.bucketS);
    B.BeforeLast(0, B.BinCount(w.start, w.end, w.bucketS), w.bucketS);
    B.BinOf(w.start, w.end, w.bucketS, 0);
    KeepsVisible(Verbatim(w), 0);
  }

  /**
    No clock makes the chart throw exactly when truncation spares the left edge or pushes
    every bin past the right one.
   */
  lemma NeverThrowsIff(w: B.Window)
    requires w.bucketS > 0 && w.start < w.end
    ensures !B.Skips(w.start, w.bucketS) || w.end <= B.AtEpoch(B.BucketEpoch(w.start, w.bucketS))
       <==> forall rows: seq<WireRow>, f: int -> int ::
              Monotone(f) && Served(rows, w, f) && f(w.start) < f(w.end) ==> !Throws(rows, Span(f(w.start), f(w.end)))
  {
    if w.end <= B.AtEpoch(B.BucketEpoch(w.start, w.bucketS)) {
      forall rows: seq<WireRow>, f: int -> int | Monotone(f) && Served(rows, w, f)
        ensures !Throws(rows, Span(f(w.start), f(w.end)))
      {
        BinsPastTheEnd(rows, w, f, |rows|);
        assert rows[..|rows|] == rows;
      }
    } else if B.Skips(w.start, w.bucketS) {
      var same := (t: int) => t;
      assert Monotone(same) && Served(Verbatim(w), w, same) && same(w.start) < same(w.end);
      B.BucketVersusGroup(w.start, w.bucketS);
      B.GroupContains(w.start, w.bucketS);
      FirstBinIsVisible(w);
      SkippedRowsFail(w);
      assert ChartInput(NormalizeBuckets(Verbatim(w)))[0].start.Some?;
    } else {
      CoverIff(w);
    }
  }

  // --------------------------------------- what the chart shows of the events

  function KeyOf(kind: A.Kind): Key {
    match kind
    case Opened => Key("opened")
    case Completed => Key("completed")
    case NotPlanned => Key("not_planned")
    case Merged => Key("merged")
    case ClosedUnmerged => Key("closed_unmerged")
  }

  /** No two series share a column. */
  lemma KeysDiffer(a: A.Kind, b: A.Kind)
    requires a != b
    ensures KeyOf(a) != KeyOf(b)
  {
    assert |"opened"| == 6 && |"completed"| == 9 && |"not_planned"| == 11 && |"closed_unmerged"| == 15;
    assert "opened"[0] != "merged"[0];
  }

  /** The rows carry, for one kind, the number of its events in each bin. */
  ghost predicate Counts(
    rows: seq<WireRow>, w: B.Window, events: set<A.Event>, filter: Option<R.Id>, panel: A.Panel, kind: A.Kind)
    requires w.bucketS > 0
  {
    var bins := B.DenseBounds(w.start, w.end, w.bucketS);
    && |rows| == |bins|
    && forall i :: 0 <= i < |rows| ==>
         && KeyOf(kind) in rows[i].columns
         && rows[i].columns[KeyOf(kind)]
            == Number(A.Naive(events, filter, panel, kind, bins[i].left, bins[i].right))
  }

  /** The events of the first i bins whose rows are stripped. */
  ghost function Hidden(
    w: B.Window, f: int -> int, events: set<A.Event>, filter: Option<R.Id>, panel: A.Panel, kind: A.Kind, i: nat): nat
    requires w.bucketS > 0 && i <= |B.DenseBounds(w.start, w.end, w.bucketS)|
  {
    if i == 0 then 0
    else
      var bin := B.DenseBounds(w.start, w.end, w.bucketS)[i - 1];
      Hidden(w, f, events, filter, panel, kind, i - 1)
      + (if f(bin.left) < f(bin.right) then 0 else A.Naive(events, filter, panel, kind, bin.left, bin.right))
  }

  function RowSum(rows: seq<WireRow>, key: Key): nat {
    if rows == [] then 0
    else RowSum(rows[..|rows| - 1], key) + EventAmount(Charts.Column(AsEvent(rows[|rows| - 1]), key), 0)
  }

  lemma RowSumSnoc(rows: seq<WireRow>, row: WireRow, key: Key)
    ensures RowSum(rows + [row], key) == RowSum(rows, key) + EventAmount(Charts.Column(AsEvent(row), key), 0)
  {
    assert (rows + [row])[..|rows|] == rows;
  }

  lemma KeptStep(rows: seq<WireRow>, i: nat, key: Key)
    requires i < |rows|
    ensures RowSum(NormalizeBuckets(rows[..i + 1]), key)
         == RowSum(NormalizeBuckets(rows[..i]), key)
          + (if Visible(rows[i]) then EventAmount(Charts.Column(AsEvent(rows[i]), key), 0) else 0)
  {
    assert rows[..i + 1][..i] == rows[..i];
    RowSumSnoc(NormalizeBuckets(rows[..i]), rows[i], key);
    assert NormalizeBuckets(rows[..i]) + [] == NormalizeBuckets(rows[..i]);
  }

  lemma NoRows(rows: seq<WireRow>, key: Key)
    ensures RowSum(NormalizeBuckets(rows[..0]), key) == 0
  {
  }

  lemma ServedRow(
    rows: seq<WireRow>, w: B.Window, f: int -> int, events: set<A.Event>, filter: Option<R.Id>,
    panel: A.Panel, kind: A.Kind, i: nat)
    requires w.bucketS > 0 && Served(rows, w, f) && Counts(rows, w, events, filter, panel, kind) && i < |rows|
    ensures var bin := B.DenseBounds(w.start, w.end, w.bucketS)[i];
      && (Visible(rows[i]) <==> f(bin.left) < f(bin.right))
      && EventAmount(Charts.Column(AsEvent(rows[i]), KeyOf(kind)), 0)
         == A.Naive(events, filter, panel, kind, bin.left, bin.right)
  {
  }

  lemma {:induction false} KeptPlusHidden(
    rows: seq<WireRow>, w: B.Window, f: int -> int, events: set<A.Event>, filter: Option<R.Id>,
    panel: A.Panel, kind: A.Kind, i: nat)
    requires w.bucketS > 0 && Served(rows, w, f) && Counts(rows, w, events, filter, panel, kind) && i <= |rows|
    ensures RowSum(NormalizeBuckets(rows[..i]), KeyOf(kind)) + Hidden(w, f, events, filter, panel, kind, i)
         == A.Column(events, filter, w, panel, kind, i)
  {
    NoRows(rows, KeyOf(kind));
    hide NormalizeBuckets, RowSum, Counts, KeyOf, Visible, AsEvent, Charts.Column, EventAmount;
    hide B.DenseBounds, A.Naive;
    if i > 0 {
      KeptPlusHidden(rows, w, f, events, filter, panel, kind, i - 1);
      KeptStep(rows, i - 1, KeyOf(kind));
      ServedRow(rows, w, f, events, filter, panel, kind, i - 1);
    }
  }

  lemma {:induction false} ChartSumsRows(bins: seq<ChartBin>, rows: seq<WireRow>, keys: seq<Key>, key: Key)
    requires |bins| == |rows| && key in keys
    requires forall i :: 0 <= i < |bins| ==> bins[i].values == RowValues(AsEvent(rows[i]), keys)
    ensures BinSum(bins, key) == RowSum(rows, key)
  {
    if bins != [] {
      var n := |bins| - 1;
      ChartSumsRows(bins[..n], rows[..n], keys, key);
    }
  }

  lemma {:induction false} HiddenIsZeroIff(
    w: B.Window, f: int -> int, events: set<A.Event>, filter: Option<R.Id>, panel: A.Panel, kind: A.Kind, n: nat)
    requires w.bucketS > 0 && n <= |B.DenseBounds(w.start, w.end, w.bucketS)|
    ensures Hidden(w, f, events, filter, panel, kind, n) == 0
       <==> forall i :: 0 <= i < n ==>
              var bin := B.DenseBounds(w.start, w.end, w.bucketS)[i];
              f(bin.left) < f(bin.right) || A.Naive(events, filter, panel, kind, bin.left, bin.right) == 0
  {
    if n > 0 {
      HiddenIsZeroIff(w, f, events, filter, panel, kind, n - 1);
    }
  }

  /**
    The chart's series total is the number of selected events of that kind, less those in
    stripped rows; the two agree exactly when no stripped row holds an event.
    (The proof needs no induction, and an induction hypothesis over sequences of rows would only get in its way.)
   */
  lemma {:induction false} ChartTotalIff(
    d: ChartData, rows: seq<WireRow>, w: B.Window, f: int -> int, events: set<A.Event>, filter: Option<R.Id>,
    panel: A.Panel, kind: A.Kind, keys: seq<Key>, range: Span)
    requires w.bucketS > 0 && w.start < w.end && !B.Skips(w.start, w.bucketS)
    requires Served(rows, w, f) && Counts(rows, w, events, filter, panel, kind) && KeyOf(kind) in keys
    requires DenseChart(d, ChartInput(NormalizeBuckets(rows)), keys, range)
    ensures d.totals[KeyOf(kind)] + Hidden(w, f, events, filter, panel, kind, |rows|)
         == A.Naive(events, filter, panel, kind, w.start, w.end)
    ensures var bins := B.DenseBounds(w.start, w.end, w.bucketS);
      d.totals[KeyOf(kind)] == A.Naive(events, filter, panel, kind, w.start, w.end)
      <==> forall i :: 0 <= i < |bins| ==>
             f(bins[i].left) < f(bins[i].right)
             || A.Naive(events, filter, panel, kind, bins[i].left, bins[i].right) == 0
  {
    var n := |rows|;
    KeptPlusHidden(rows, w, f, events, filter, panel, kind, n);
    assert rows[..n] == rows;
    A.ColumnTotal(events, filter, w, panel, kind);
    HiddenIsZeroIff(w, f, events, filter, panel, kind, n);
    var kept := NormalizeBuckets(rows);
    assert |d.bins| == |kept|;
    forall i | 0 <= i < |d.bins| ensures d.bins[i].values == RowValues(AsEvent(kept[i]), keys) {
      assert ChartInput(kept)[i] == AsEvent(kept[i]);
    }
    ChartSumsRows(d.bins, kept, keys, KeyOf(kind));
  }

  // ------------------------------------------------------- an event that is lost

  /** The rows a server sends for one series. */
  function RowsOf(
    w: B.Window, f: int -> int, events: set<A.Event>, filter: Option<R.Id>, panel: A.Panel, kind: A.Kind): seq<WireRow>
    requires w.bucketS > 0
  {
    var bins := B.DenseBounds(w.start, w.end, w.bucketS);
    seq(|bins|, i requires 0 <= i < |bins| =>
      WireRow(Some(f(bins[i].left)), Some(f(bins[i].right)),
              map[KeyOf(kind) := Number(A.Naive(events, filter, panel, kind, bins[i].left, bins[i].right))]))
  }

  /** The chart of a dense list. */
  ghost function ChartOf(events: seq<RawEvent>, keys: seq<Key>, range: Span): ChartData
    requires AllSpans(events)
  {
    var bins := seq(|events|, i requires 0 <= i < |events| =>
      ChartBin(SpanOf(events[i]).start, SpanOf(events[i]).end, RowValues(events[i], keys),
               KeySum(RowValues(events[i], keys), keys)));
    ChartData(bins, map k | k in keys :: CumulativeLine(bins, k, range.start), map k | k in keys :: BinSum(bins, k))
  }

  lemma ChartOfIsDense(events: seq<RawEvent>, keys: seq<Key>, range: Span)
    requires DenseOk(events, range)
    ensures DenseChart(ChartOf(events, keys, range), events, keys, range)
  {
    var d := ChartOf(events, keys, range);
    assert BinSpans(d.bins) == Spans(events);
  }

  /** The browser's milliseconds. */
  function Milliseconds(t: int): int {
    t / 1000
  }

  /** A minute and 300 microseconds: the last bin is too narrow for the browser's clock. */
  const NARROW := B.Window(0, 60_000_300, 60)

  lemma NarrowBins()
    ensures B.DenseBounds(NARROW.start, NARROW.end, NARROW.bucketS)
         == [B.Bin(0, 60_000_000, 0), B.Bin(60_000_000, 60_000_300, 60)]
    ensures !B.Skips(NARROW.start, NARROW.bucketS)
  {
    assert B.BinCount(0, 60_000_300, 60) == 2;
  }

  /** One event in the narrow bin. */
  function Lost(panel: A.Panel, kind: A.Kind): set<A.Event> {
    {A.Event(R.Id("lost"), panel, kind, R.Id("repo"), 60_000_000)}
  }

  lemma LostIsCounted(panel: A.Panel, kind: A.Kind, lo: int, hi: int)
    requires lo <= 60_000_000 < hi
    ensures A.Naive(Lost(panel, kind), None, panel, kind, lo, hi) == 1
  {
    assert A.Selected(Lost(panel, kind), None, panel, kind, lo, hi) == Lost(panel, kind);
  }

  lemma RowsOfServe(
    w: B.Window, f: int -> int, events: set<A.Event>, filter: Option<R.Id>, panel: A.Panel, kind: A.Kind)
    requires w.bucketS > 0
    ensures Served(RowsOf(w, f, events, filter, panel, kind), w, f)
    ensures Counts(RowsOf(w, f, events, filter, panel, kind), w, events, filter, panel, kind)
    ensures |RowsOf(w, f, events, filter, panel, kind)| == |B.DenseBounds(w.start, w.end, w.bucketS)|
  {
    hide B.DenseBounds, A.Naive, KeyOf;
  }

  lemma NarrowHides(panel: A.Panel, kind: A.Kind)
    ensures |B.DenseBounds(NARROW.start, NARROW.end, NARROW.bucketS)| == 2
    ensures Hidden(NARROW, Milliseconds, Lost(panel, kind), None, panel, kind, 2) > 0
  {
    hide B.DenseBounds, A.Naive;
    NarrowBins();
    LostIsCounted(panel, kind, 60_000_000, 60_000_300);
  }

  /** The summary of that window counts the event; the chart drawn from the same answer does not. */
  lemma HiddenEventWitness(panel: A.Panel, kind: A.Kind)
    ensures var w, f, lost := NARROW, Milliseconds, Lost(panel, kind);
      var rows := RowsOf(w, f, lost, None, panel, kind);
      var events, keys, range := ChartInput(NormalizeBuckets(rows)), [KeyOf(kind)], Span(0, 60_000);
      && Monotone(f) && Served(rows, w, f) && DenseOk(events, range)
      && DenseChart(ChartOf(events, keys, range), events, keys, range)
      && A.Naive(lost, None, panel, kind, w.start, w.end) == 1
      && ChartOf(events, keys, range).totals[KeyOf(kind)] == 0
  {
    hide B.DenseBounds, A.Naive, Hidden, Served, Counts, NormalizeBuckets, DenseChart, RowsOf, DenseOk;
    var w, f, lost := NARROW, Milliseconds, Lost(panel, kind);
    var rows := RowsOf(w, f, lost, None, panel, kind);
    var events, keys, range := ChartInput(NormalizeBuckets(rows)), [KeyOf(kind)], Span(0, 60_000);
    NarrowBins();
    RowsOfServe(w, f, lost, None, panel, kind);
    ServedRowsCover(rows, w, f);
    ChartOfIsDense(events, keys, range);
    LostIsCounted(panel, kind, w.start, w.end);
    NarrowHides(panel, kind);
    ChartTotalIff(ChartOf(events, keys, range), rows, w, f, lost, None, panel, kind, keys, range);
  }
}
