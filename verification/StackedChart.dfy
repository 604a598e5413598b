/**
  The assembled stacked chart: series validation, the choice between the dense and
  the point path, totals and cumulative lines, and what the whole chart conserves.
 */
module StackedChart {
  import opened Wrappers
  import opened Charts
  import opened MergeScan
  import opened Numbers

  /** key is None when the item is missing or its key is not a string. */
  datatype SeriesItem = SeriesItem(key: Option<Key>)

  predicate SeriesOk(series: seq<SeriesItem>) {
    && (forall i :: 0 <= i < |series| ==> series[i].key.Some? && series[i].key.value.name != "")
    && (forall i, j :: 0 <= i < j < |series| ==> series[i].key != series[j].key)
  }

  /** validateSeries: collects the keys, or refuses the first bad or repeated one. */
  method ValidateSeries(series: seq<SeriesItem>) returns (r: Result<seq<Key>, TypeError>)
    ensures r.Ok? <==> SeriesOk(series)
    ensures r.Ok? ==> |r.value| == |series|
    ensures r.Ok? ==> forall i :: 0 <= i < |series| ==> series[i].key == Some(r.value[i])
  {
    var keys: seq<Key> := [];
    for i := 0 to |series|
      invariant |keys| == i && SeriesOk(series[..i])
      invariant forall j :: 0 <= j < i ==> series[j].key == Some(keys[j])
    {
      var item := series[i];
      if item.key.None? || item.key.value.name == "" || item.key.value in keys {
        return Err(TypeError);
      }
      keys := keys + [item.key.value];
    }
    assert series[..|series|] == series;
    r := Ok(keys);
  }

  ghost function BinSpans(bins: seq<ChartBin>): seq<Span> {
    seq(|bins|, i requires 0 <= i < |bins| => Span(bins[i].start, bins[i].end))
  }

  /** The sum of the bin totals. */
  function TotalSum(bins: seq<ChartBin>): nat {
    if bins == [] then 0 else TotalSum(bins[..|bins| - 1]) + bins[|bins| - 1].total
  }

  // ------------------------------------------------------- cumulative lines

  /** The running sum of one series, from zero at the left edge. */
  function CumulativeLine(bins: seq<ChartBin>, key: Key, left: int): seq<CumulativePoint> {
    if bins == [] then [CumulativePoint(left, 0, -1)]
    else
      var n := |bins| - 1;
      CumulativeLine(bins[..n], key, left) + [CumulativePoint(bins[n].end, BinSum(bins, key), n)]
  }

  method Cumulative(bins: seq<ChartBin>, key: Key, left: int) returns (points: seq<CumulativePoint>)
    ensures points == CumulativeLine(bins, key, left)
  {
    var value := 0;
    points := [CumulativePoint(left, 0, -1)];
    for i := 0 to |bins|
      invariant value == BinSum(bins[..i], key) && points == CumulativeLine(bins[..i], key, left)
    {
      BinSumSnoc(bins, i, key);
      assert bins[..i + 1][..i] == bins[..i];
      value := value + Get(bins[i].values, key);
      points := points + [CumulativePoint(bins[i].end, value, i)];
    }
    assert bins[..|bins|] == bins;
  }

  /** Point i + 1 of a line is bin i's right edge and the sum of the bins up to it. */
  lemma {:induction false} CumulativeAt(bins: seq<ChartBin>, key: Key, left: int, i: nat)
    requires i <= |bins|
    ensures var line := CumulativeLine(bins, key, left);
      && |line| == |bins| + 1
      && line[i] == CumulativePoint(if i == 0 then left else bins[i - 1].end, BinSum(bins[..i], key), i - 1)
  {
    if i == |bins| {
      assert bins[..i] == bins;
      if i > 0 {
        CumulativeAt(bins[..i - 1], key, left, 0);
      }
    } else {
      CumulativeAt(bins[..|bins| - 1], key, left, i);
      assert bins[..|bins| - 1][..i] == bins[..i];
    }
  }

  lemma {:induction false} BinSumGrows(bins: seq<ChartBin>, key: Key, i: nat, j: nat)
    requires i <= j <= |bins|
    ensures BinSum(bins[..i], key) <= BinSum(bins[..j], key)
  {
    if i < j {
      BinSumGrows(bins, key, i, j - 1);
      BinSumSnoc(bins, j - 1, key);
    }
  }

  /** A cumulative line starts at zero, never decreases, and ends at the total of its series. */
  lemma CumulativeRises(bins: seq<ChartBin>, key: Key, left: int, i: nat, j: nat)
    requires i <= j <= |bins|
    ensures var line := CumulativeLine(bins, key, left);
      && |line| == |bins| + 1 && line[0] == CumulativePoint(left, 0, -1)
      && line[i].v <= line[j].v
      && line[|bins|].v == BinSum(bins, key)
  {
    CumulativeAt(bins, key, left, 0);
    CumulativeAt(bins, key, left, i);
    CumulativeAt(bins, key, left, j);
    CumulativeAt(bins, key, left, |bins|);
    BinSumGrows(bins, key, i, j);
    assert bins[..|bins|] == bins && bins[..0] == [];
  }

  // -------------------------------------------------------------- the chart

  /** Totals and lines follow from the bins. */
  ghost predicate Derived(d: ChartData, keys: seq<Key>, range: Span) {
    && WellFormed(d.bins, keys) && ContiguousCover(BinSpans(d.bins), range)
    && Summed(d.totals, d.bins, keys) && d.cumulative.Keys == KeySet(keys)
    && (forall k :: k in keys ==> d.cumulative[k] == CumulativeLine(d.bins, k, range.start))
  }

  /** A chart of server rows: one bin per row, with the row's own edges and columns. */
  ghost predicate DenseChart(d: ChartData, events: seq<RawEvent>, keys: seq<Key>, range: Span) {
    && Derived(d, keys, range) && DenseOk(events, range) && |d.bins| == |events|
    && forall i :: 0 <= i < |events| ==>
         && Span(d.bins[i].start, d.bins[i].end) == SpanOf(events[i])
         && d.bins[i].values == RowValues(events[i], keys)
  }

  /** A chart of point events: regular bins, each holding what the naive filter over its interval yields. */
  ghost predicate PointChart(d: ChartData, events: seq<RawEvent>, keys: seq<Key>, range: Span, binMs: int) {
    && Derived(d, keys, range) && Regular(BinSpans(d.bins), range, binMs)
    && forall i, k :: 0 <= i < |d.bins| && k in keys ==>
         d.bins[i].values[k] == RawSum(events, keys, k, d.bins[i].start, d.bins[i].end)
  }

  ghost predicate Accepts(events: seq<RawEvent>, series: seq<SeriesItem>, range: Span, binMs: int) {
    && range.start < range.end && binMs > 0 && SeriesOk(series)
    && (DenseInput(events) ==> DenseOk(events, range))
  }

  /** Rows with edges must be complete: one that has only one edge, or an edge that is no instant, is refused. */
  lemma HalfARowThrows(events: seq<RawEvent>, series: seq<SeriesItem>, range: Span, binMs: int, i: nat)
    requires i < |events| && events[i].RawEvent?
    requires events[i].start.None? != events[i].end.None?
             || events[i].start == Some(None) || events[i].end == Some(None)
    ensures !Accepts(events, series, range, binMs)
  {
    assert DenseInput(events);
  }

  /** Events without edges are never taken for rows: only the range, the width and the series can be refused. */
  lemma PointsAreAccepted(events: seq<RawEvent>, series: seq<SeriesItem>, range: Span, binMs: int)
    requires forall i :: 0 <= i < |events| && events[i].RawEvent? ==> events[i].start.None? && events[i].end.None?
    ensures !DenseInput(events)
    ensures Accepts(events, series, range, binMs) <==> range.start < range.end && binMs > 0 && SeriesOk(series)
  {
  }

  /** A dense chart shows each row's own columns: a positive number as it is, anything else as zero. */
  lemma DenseChartShowsColumns(d: ChartData, events: seq<RawEvent>, keys: seq<Key>, range: Span, i: nat, key: Key)
    requires DenseChart(d, events, keys, range) && i < |events| && key in keys
    ensures d.bins[i].start == events[i].start.value.value && d.bins[i].end == events[i].end.value.value
    ensures d.bins[i].values[key] == if key in events[i].columns then Counted(events[i].columns[key], 0) else 0
  {
    assert Span(d.bins[i].start, d.bins[i].end) == SpanOf(events[i]);
  }

  /** The dense half: rows in, validated bins out. */
  method DenseBins(events: seq<RawEvent>, keys: seq<Key>, range: Span) returns (r: Result<seq<ChartBin>, TypeError>)
    ensures r.Ok? <==> DenseOk(events, range)
    ensures r.Ok? ==> WellFormed(r.value, keys) && ContiguousCover(BinSpans(r.value), range)
    ensures r.Ok? ==> |r.value| == |events| && forall i :: 0 <= i < |events| ==>
      && Span(r.value[i].start, r.value[i].end) == SpanOf(events[i])
      && r.value[i].values == RowValues(events[i], keys)
  {
    r := NormalizedDenseIntervals(events, keys, range);
    if r.Ok? {
      assert BinSpans(r.value) == Spans(events);
    }
  }

  /** The point half: regular bins filled by the scan. */
  method PointBins(events: seq<RawEvent>, keys: seq<Key>, range: Span, binMs: int)
    returns (bins: seq<ChartBin>, totals: Values)
    requires range.start < range.end && binMs > 0
    ensures WellFormed(bins, keys) && Regular(BinSpans(bins), range, binMs)
    ensures forall i, k :: 0 <= i < |bins| && k in keys ==>
      bins[i].values[k] == RawSum(events, keys, k, bins[i].start, bins[i].end)
    ensures Summed(totals, bins, keys)
  {
    var intervals := BoundedTimeIntervals(range, binMs);
    var spans := intervals.value;
    var points := NormalizedSeriesEvents(events, keys, range);
    bins, totals := Scan(spans, points, keys, range);
    assert BinSpans(bins) == spans;
    forall i, k | 0 <= i < |bins| && k in keys
      ensures bins[i].values[k] == RawSum(events, keys, k, bins[i].start, bins[i].end)
    {
      CoverIsInside(spans, range, i);
    }
  }

  /** The loop over the series that builds the cumulative lines. */
  method Lines(bins: seq<ChartBin>, keys: seq<Key>, left: int) returns (lines: map<Key, seq<CumulativePoint>>)
    ensures lines.Keys == KeySet(keys) && forall k :: k in keys ==> lines[k] == CumulativeLine(bins, k, left)
  {
    lines := map[];
    for i := 0 to |keys|
      invariant lines.Keys == KeySet(keys[..i])
      invariant forall k :: k in keys[..i] ==> lines[k] == CumulativeLine(bins, k, left)
    {
      var line := Cumulative(bins, keys[i], left);
      lines := lines[keys[i] := line];
      assert keys[..i + 1] == keys[..i] + [keys[i]];
    }
    assert keys[..|keys|] == keys;
  }

  /** buildStackedTimeSeriesData. */
  method BuildStackedTimeSeriesData(events: seq<RawEvent>, series: seq<SeriesItem>, range: Span, binMs: int)
    returns (r: Result<ChartData, TypeError>, ghost keys: seq<Key>)
    ensures r.Ok? <==> Accepts(events, series, range, binMs)
    ensures r.Ok? ==> |keys| == |series| && forall i :: 0 <= i < |series| ==> series[i].key == Some(keys[i])
    ensures r.Ok? && DenseInput(events) ==> DenseChart(r.value, events, keys, range)
    ensures r.Ok? && !DenseInput(events) ==> PointChart(r.value, events, keys, range, binMs)
  {
    if range.end <= range.start || binMs <= 0 {
      return Err(TypeError), [];
    }
    var validated := ValidateSeries(series);
    if validated.Err? {
      return Err(TypeError), [];
    }
    var names := validated.value;
    keys := names;
    var bins: seq<ChartBin>;
    var totals: Values;
    if DenseInput(events) {
      var dense := DenseBins(events, names, range);
      if dense.Err? {
        return Err(TypeError), [];
      }
      bins := dense.value;
      totals := Totals(bins, names);
    } else {
      bins, totals := PointBins(events, names, range, binMs);
    }
    var cumulative := Lines(bins, names, range.start);
    r := Ok(ChartData(bins, cumulative, totals));
  }

  // ------------------------------------------------------------ conservation

  lemma {:induction false} RawSumSplits(events: seq<RawEvent>, keys: seq<Key>, key: Key, lo: int, mid: int, hi: int)
    requires lo <= mid <= hi
    ensures RawSum(events, keys, key, lo, hi)
         == RawSum(events, keys, key, lo, mid) + RawSum(events, keys, key, mid, hi)
  {
    if events != [] {
      RawSumSplits(events[..|events| - 1], keys, key, lo, mid, hi);
    }
  }

  /** Bins that follow one another and hold their intervals' sums hold together the sum of the whole stretch. */
  lemma {:induction false} BinsAddUp(
    bins: seq<ChartBin>, n: nat, events: seq<RawEvent>, keys: seq<Key>, key: Key, range: Span)
    requires 0 < n <= |bins| && key in keys && ContiguousCover(BinSpans(bins), range) && WellFormed(bins, keys)
    requires forall i :: 0 <= i < |bins| ==>
      bins[i].values[key] == RawSum(events, keys, key, bins[i].start, bins[i].end)
    ensures range.start < bins[n - 1].end
    ensures BinSum(bins[..n], key) == RawSum(events, keys, key, range.start, bins[n - 1].end)
  {
    var spans := BinSpans(bins);
    assert spans[n - 1] == Span(bins[n - 1].start, bins[n - 1].end);
    BinSumSnoc(bins, n - 1, key);
    if n == 1 {
      assert bins[..0] == [];
    } else {
      assert spans[n - 2].end == bins[n - 2].end;
      BinsAddUp(bins, n - 1, events, keys, key, range);
      RawSumSplits(events, keys, key, range.start, bins[n - 1].start, bins[n - 1].end);
    }
  }

  /** No event is lost or counted twice: a series total is the naive sum over the whole range. */
  lemma MassIsConserved(d: ChartData, events: seq<RawEvent>, keys: seq<Key>, range: Span, binMs: int, key: Key)
    requires PointChart(d, events, keys, range, binMs) && key in keys
    ensures d.totals[key] == RawSum(events, keys, key, range.start, range.end)
    ensures d.cumulative[key][|d.cumulative[key]| - 1].v == d.totals[key]
  {
    var n := |d.bins|;
    assert |BinSpans(d.bins)| == n;
    BinsAddUp(d.bins, n, events, keys, key, range);
    assert d.bins[..n] == d.bins && BinSpans(d.bins)[n - 1].end == d.bins[n - 1].end;
    CumulativeRises(d.bins, key, range.start, 0, n);
  }

  /** Summing bin totals or series totals gives the same number. */
  lemma TotalsAgree(d: ChartData, keys: seq<Key>, range: Span)
    requires Derived(d, keys, range)
    ensures TotalSum(d.bins) == KeySum(d.totals, keys)
  {
    TotalsByColumn(d.bins, d.totals, keys, keys);
  }

  lemma {:induction false} TotalsByColumn(bins: seq<ChartBin>, totals: Values, keys: seq<Key>, sub: seq<Key>)
    requires WellFormed(bins, keys) && forall k :: k in sub ==> k in keys && k in totals && totals[k] == BinSum(bins, k)
    ensures KeySum(totals, sub) == RowTotals(bins, sub)
    ensures sub == keys ==> RowTotals(bins, sub) == TotalSum(bins)
  {
    if sub == [] {
      NoColumns(bins);
    } else {
      assert sub[|sub| - 1] in sub;
      TotalsByColumn(bins, totals, keys, sub[..|sub| - 1]);
      OneColumn(bins, sub);
    }
    if sub == keys {
      AllColumns(bins, keys);
    }
  }

  function RowTotals(bins: seq<ChartBin>, sub: seq<Key>): nat {
    if bins == [] then 0 else RowTotals(bins[..|bins| - 1], sub) + KeySum(bins[|bins| - 1].values, sub)
  }

  lemma {:induction false} NoColumns(bins: seq<ChartBin>)
    ensures RowTotals(bins, []) == 0
  {
    if bins != [] {
      NoColumns(bins[..|bins| - 1]);
    }
  }

  lemma {:induction false} OneColumn(bins: seq<ChartBin>, sub: seq<Key>)
    requires sub != []
    ensures RowTotals(bins, sub) == RowTotals(bins, sub[..|sub| - 1]) + BinSum(bins, sub[|sub| - 1])
  {
    if bins != [] {
      OneColumn(bins[..|bins| - 1], sub);
    }
  }

  lemma {:induction false} AllColumns(bins: seq<ChartBin>, keys: seq<Key>)
    requires WellFormed(bins, keys)
    ensures RowTotals(bins, keys) == TotalSum(bins)
  {
    if bins != [] {
      AllColumns(bins[..|bins| - 1], keys);
    }
  }

  // ------------------------------------------------------ order independence

  lemma {:induction false} RegularIsUnique(a: seq<Span>, b: seq<Span>, range: Span, binMs: int, i: nat)
    requires Regular(a, range, binMs) && Regular(b, range, binMs) && i < |a|
    ensures i < |b| && a[i] == b[i]
  {
    if i > 0 {
      RegularIsUnique(a, b, range, binMs, i - 1);
      CoverIsInside(a, range, i);
    }
  }

  lemma RegularSpansAreEqual(a: seq<Span>, b: seq<Span>, range: Span, binMs: int)
    requires Regular(a, range, binMs) && Regular(b, range, binMs)
    ensures a == b
  {
    forall i | 0 <= i < |a| ensures i < |b| && a[i] == b[i] {
      RegularIsUnique(a, b, range, binMs, i);
    }
    RegularIsUnique(a, b, range, binMs, |a| - 1);
    RegularIsUnique(b, a, range, binMs, |b| - 1);
  }

  /** Bins with equal edges and equal sums of permuted events are equal. */
  lemma SameBin(a: seq<RawEvent>, b: seq<RawEvent>, x: ChartBin, y: ChartBin, keys: seq<Key>)
    requires multiset(a) == multiset(b)
    requires x.start == y.start && x.end == y.end && x.values.Keys == y.values.Keys == KeySet(keys)
    requires x.total == KeySum(x.values, keys) && y.total == KeySum(y.values, keys)
    requires forall k :: k in keys ==> x.values[k] == RawSum(a, keys, k, x.start, x.end)
    requires forall k :: k in keys ==> y.values[k] == RawSum(b, keys, k, y.start, y.end)
    ensures x == y
  {
    forall k | k in keys ensures x.values[k] == y.values[k] {
      OrderIsIrrelevant(a, b, keys, k, x.start, x.end);
    }
    assert x.values == y.values;
  }

  lemma SameDerived(a: ChartData, b: ChartData, keys: seq<Key>, range: Span)
    requires Derived(a, keys, range) && Derived(b, keys, range) && a.bins == b.bins
    ensures a == b
  {
    assert a.totals == b.totals;
    assert a.cumulative == b.cumulative;
  }

  /** Reordering point events changes nothing in the chart. */
  lemma ChartIgnoresOrder(a: seq<RawEvent>, b: seq<RawEvent>, da: ChartData, db: ChartData,
                          keys: seq<Key>, range: Span, binMs: int)
    requires multiset(a) == multiset(b)
    requires PointChart(da, a, keys, range, binMs) && PointChart(db, b, keys, range, binMs)
    ensures da == db
  {
    var sa, sb := BinSpans(da.bins), BinSpans(db.bins);
    RegularSpansAreEqual(sa, sb, range, binMs);
    assert |da.bins| == |sa| == |sb| == |db.bins|;
    forall i | 0 <= i < |da.bins| ensures da.bins[i] == db.bins[i] {
      assert sa[i] == sb[i];
      SameBin(a, b, da.bins[i], db.bins[i], keys);
    }
    SameDerived(da, db, keys, range);
  }
}
