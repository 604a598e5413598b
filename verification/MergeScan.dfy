/**
  The point path of the chart: normalising and sorting events, and the
  single-pointer scan over bins and events.
 */
module MergeScan {
  import opened Wrappers
  import opened Charts

  // ------------------------------------------------------------ normalising

  /** What one raw event adds to the series. */
  function PointValues(e: RawEvent, keys: seq<Key>): Values
    requires e.RawEvent?
  {
    if e.key.Some? then
      if e.key.value in keys then map[e.key.value := EventAmount(e.value, 1)] else map[]
    else
      map k | k in keys && k in e.columns :: EventAmount(e.columns[k], 0)
  }

  predicate InRange(e: RawEvent, lo: int, hi: int) {
    e.RawEvent? && e.ts.Some? && lo <= e.ts.value < hi
  }

  /** The naive per-interval filter: what the raw events with lo <= ts < hi add to one series. */
  function RawSum(events: seq<RawEvent>, keys: seq<Key>, key: Key, lo: int, hi: int): nat {
    if events == [] then 0
    else
      var e := events[|events| - 1];
      RawSum(events[..|events| - 1], keys, key, lo, hi)
      + (if InRange(e, lo, hi) then Get(PointValues(e, keys), key) else 0)
  }

  /** The same sum over normalised points. */
  function PointSum(points: seq<Point>, key: Key, lo: int, hi: int): nat {
    if points == [] then 0
    else
      var p := points[|points| - 1];
      PointSum(points[..|points| - 1], key, lo, hi) + (if lo <= p.ts < hi then Get(p.values, key) else 0)
  }

  ghost predicate Sorted(points: seq<Point>) {
    forall i, j :: 0 <= i < j < |points| ==> points[i].ts <= points[j].ts
  }

  ghost predicate Within(points: seq<Point>, range: Span) {
    forall i :: 0 <= i < |points| ==> range.start <= points[i].ts < range.end
  }

  predicate Before(p: Point, q: Point) {
    p.ts < q.ts || (p.ts == q.ts && p.index < q.index)
  }

  function InsertPoint(points: seq<Point>, p: Point): seq<Point> {
    if points == [] then [p]
    else
      var last := points[|points| - 1];
      if Before(p, last) then InsertPoint(points[..|points| - 1], p) + [last] else points + [p]
  }

  /** Sorting by timestamp, then by input position. */
  function SortPoints(points: seq<Point>): seq<Point> {
    if points == [] then [] else InsertPoint(SortPoints(points[..|points| - 1]), points[|points| - 1])
  }

  lemma PointSumSnoc(points: seq<Point>, p: Point, key: Key, lo: int, hi: int)
    ensures PointSum(points + [p], key, lo, hi)
         == PointSum(points, key, lo, hi) + (if lo <= p.ts < hi then Get(p.values, key) else 0)
  {
    assert (points + [p])[..|points|] == points;
  }

  lemma {:induction false} InsertPermutes(points: seq<Point>, p: Point)
    ensures multiset(InsertPoint(points, p)) == multiset(points) + multiset{p}
  {
    if points != [] {
      var n := |points| - 1;
      var rest, last := points[..n], points[n];
      assert points == rest + [last];
      if Before(p, last) {
        InsertPermutes(rest, p);
      }
    }
  }

  lemma {:induction false} InsertSorts(points: seq<Point>, p: Point)
    requires Sorted(points)
    ensures Sorted(InsertPoint(points, p))
  {
    if points != [] {
      var n := |points| - 1;
      var rest, last := points[..n], points[n];
      if Before(p, last) {
        InsertSorts(rest, p);
        InsertPermutes(rest, p);
        var inserted := InsertPoint(rest, p);
        forall i | 0 <= i < |inserted| ensures inserted[i].ts <= last.ts {
          assert inserted[i] in multiset(inserted);
          assert inserted[i] in rest || inserted[i] == p;
        }
      }
    }
  }

  lemma {:induction false} InsertSum(points: seq<Point>, p: Point, key: Key, lo: int, hi: int)
    ensures PointSum(InsertPoint(points, p), key, lo, hi)
         == PointSum(points, key, lo, hi) + (if lo <= p.ts < hi then Get(p.values, key) else 0)
  {
    if points == [] {
      PointSumSnoc([], p, key, lo, hi);
      assert [] + [p] == [p];
    } else {
      var n := |points| - 1;
      if Before(p, points[n]) {
        InsertSum(points[..n], p, key, lo, hi);
        PointSumSnoc(InsertPoint(points[..n], p), points[n], key, lo, hi);
      } else {
        PointSumSnoc(points, p, key, lo, hi);
      }
    }
  }

  lemma {:induction false} SortPermutes(points: seq<Point>)
    ensures multiset(SortPoints(points)) == multiset(points)
  {
    if points != [] {
      var n := |points| - 1;
      SortPermutes(points[..n]);
      InsertPermutes(SortPoints(points[..n]), points[n]);
      assert points == points[..n] + [points[n]];
    }
  }

  lemma {:induction false} SortSorts(points: seq<Point>)
    ensures Sorted(SortPoints(points))
  {
    if points != [] {
      var n := |points| - 1;
      SortSorts(points[..n]);
      InsertSorts(SortPoints(points[..n]), points[n]);
    }
  }

  lemma {:induction false} SortSum(points: seq<Point>, key: Key, lo: int, hi: int)
    ensures PointSum(SortPoints(points), key, lo, hi) == PointSum(points, key, lo, hi)
  {
    if points != [] {
      var n := |points| - 1;
      SortSum(points[..n], key, lo, hi);
      InsertSum(SortPoints(points[..n]), points[n], key, lo, hi);
    }
  }

  /** The points agree with the raw events on every interval inside the range. */
  ghost predicate SumsAgree(points: seq<Point>, events: seq<RawEvent>, keys: seq<Key>, range: Span) {
    forall key, lo, hi :: range.start <= lo <= hi <= range.end ==>
      PointSum(points, key, lo, hi) == RawSum(events, keys, key, lo, hi)
  }

  lemma SumsAgreeStep(points: seq<Point>, events: seq<RawEvent>, keys: seq<Key>, range: Span, i: nat)
    requires i < |events| && SumsAgree(points, events[..i], keys, range)
    ensures !InRange(events[i], range.start, range.end) || PointValues(events[i], keys) == map[]
      ==> SumsAgree(points, events[..i + 1], keys, range)
    ensures InRange(events[i], range.start, range.end) ==>
      SumsAgree(points + [Point(events[i].ts.value, i, PointValues(events[i], keys))], events[..i + 1], keys, range)
  {
    assert events[..i + 1][..i] == events[..i];
    if InRange(events[i], range.start, range.end) {
      var p := Point(events[i].ts.value, i, PointValues(events[i], keys));
      forall key, lo, hi | range.start <= lo <= hi <= range.end
        ensures PointSum(points + [p], key, lo, hi) == RawSum(events[..i + 1], keys, key, lo, hi)
      {
        PointSumSnoc(points, p, key, lo, hi);
      }
    }
  }

  /** normalizedSeriesEvents: keeps the in-range events that touch a known series, sorted. */
  method NormalizedSeriesEvents(events: seq<RawEvent>, keys: seq<Key>, range: Span) returns (points: seq<Point>)
    ensures Sorted(points) && Within(points, range) && SumsAgree(points, events, keys, range)
    ensures forall p :: p in points ==> forall k :: k in p.values ==> k in keys
  {
    var normalized: seq<Point> := [];
    for i := 0 to |events|
      invariant SumsAgree(normalized, events[..i], keys, range)
      invariant Within(normalized, range)
      invariant forall p :: p in normalized ==> forall k :: k in p.values ==> k in keys
    {
      SumsAgreeStep(normalized, events, keys, range, i);
      var e := events[i];
      if InRange(e, range.start, range.end) {
        var values := PointValues(e, keys);
        if values != map[] {
          normalized := normalized + [Point(e.ts.value, i, values)];
        }
      }
    }
    assert events[..|events|] == events;
    points := SortPoints(normalized);
    SortSorts(normalized);
    SortPermutes(normalized);
    forall p | p in points ensures p in normalized {
      assert p in multiset(points);
    }
    forall key, lo, hi | range.start <= lo <= hi <= range.end
      ensures PointSum(points, key, lo, hi) == RawSum(events, keys, key, lo, hi)
    {
      SortSum(normalized, key, lo, hi);
    }
    forall i | 0 <= i < |points| ensures range.start <= points[i].ts < range.end {
      assert points[i] in normalized;
    }
  }

  lemma WithoutOne<T>(b: seq<T>, i: nat)
    requires i < |b|
    ensures multiset(b) == multiset(b[..i] + b[i + 1..]) + multiset{b[i]}
    ensures var n := |b| - 1; i < n ==>
      && (b[..i] + b[i + 1..])[..n - 1] == b[..n][..i] + b[..n][i + 1..]
      && (b[..i] + b[i + 1..])[n - 1] == b[n]
  {
    assert b == b[..i] + [b[i]] + b[i + 1..];
  }

  /** Any reordering of the events has the same sums. */
  lemma {:induction false} OrderIsIrrelevant(
    a: seq<RawEvent>, b: seq<RawEvent>, keys: seq<Key>, key: Key, lo: int, hi: int)
    requires multiset(a) == multiset(b)
    ensures RawSum(a, keys, key, lo, hi) == RawSum(b, keys, key, lo, hi)
  {
    if a == [] {
      assert |multiset(b)| == 0;
    } else {
      var n := |a| - 1;
      assert a == a[..n] + [a[n]];
      assert a[n] in multiset(b);
      var i :| 0 <= i < |b| && b[i] == a[n];
      var rest := b[..i] + b[i + 1..];
      WithoutOne(b, i);
      assert multiset(a) == multiset(a[..n]) + multiset{a[n]};
      assert multiset(a[..n]) == multiset(a) - multiset{a[n]};
      assert multiset(rest) == multiset(b) - multiset{b[i]};
      OrderIsIrrelevant(a[..n], rest, keys, key, lo, hi);
      RemoveOne(b, i, keys, key, lo, hi);
    }
  }

  lemma {:induction false} RemoveOne(b: seq<RawEvent>, i: nat, keys: seq<Key>, key: Key, lo: int, hi: int)
    requires i < |b|
    ensures RawSum(b, keys, key, lo, hi)
         == RawSum(b[..i] + b[i + 1..], keys, key, lo, hi)
          + (if InRange(b[i], lo, hi) then Get(PointValues(b[i], keys), key) else 0)
  {
    var n := |b| - 1;
    if i == n {
      assert b[..i] + b[i + 1..] == b[..n];
    } else {
      RemoveOne(b[..n], i, keys, key, lo, hi);
      WithoutOne(b, i);
    }
  }

  // ------------------------------------------------------------------- scan

  function KeySet(keys: seq<Key>): set<Key> {
    set k | k in keys
  }

  function Zeros(keys: seq<Key>): Values {
    map k | k in keys :: 0
  }

  /** Adds the values of one event to an accumulator that has every key. */
  function Add(acc: Values, values: Values): Values {
    map k | k in acc :: acc[k] + Get(values, k)
  }

  lemma {:induction false} KeySumAdd(acc: Values, values: Values, keys: seq<Key>)
    requires forall k :: k in keys ==> k in acc
    ensures KeySum(Add(acc, values), keys) == KeySum(acc, keys) + KeySum(values, keys)
  {
    if keys != [] {
      assert keys[|keys| - 1] in keys;
      KeySumAdd(acc, values, keys[..|keys| - 1]);
    }
  }

  lemma {:induction false} KeySumZeros(keys: seq<Key>, sub: seq<Key>)
    ensures KeySum(Zeros(keys), sub) == 0
  {
    if sub != [] {
      KeySumZeros(keys, sub[..|sub| - 1]);
    }
  }

  /** The points before the pointer lie before the interval, those up to the next pointer inside, the rest after. */
  ghost predicate Cut(points: seq<Point>, from: nat, to: nat, lo: int, hi: int) {
    && from <= to <= |points|
    && (forall i :: 0 <= i < from ==> points[i].ts < lo)
    && (forall i :: from <= i < to ==> lo <= points[i].ts < hi)
    && (forall i :: to <= i < |points| ==> hi <= points[i].ts)
  }

  /** Everything from one position up to another. */
  function Block(points: seq<Point>, key: Key, from: nat, to: nat): nat
    requires from <= to <= |points|
  {
    if from == to then 0 else Block(points, key, from, to - 1) + Get(points[to - 1].values, key)
  }

  lemma {:induction false} CutSum(points: seq<Point>, key: Key, from: nat, to: nat, lo: int, hi: int, n: nat)
    requires Cut(points, from, to, lo, hi) && n <= |points|
    ensures PointSum(points[..n], key, lo, hi)
         == if n <= from then 0 else Block(points, key, from, if n <= to then n else to)
  {
    if n > 0 {
      CutSum(points, key, from, to, lo, hi, n - 1);
      assert points[..n][..n - 1] == points[..n - 1];
    }
  }

  /** The pointer passes over exactly the naive sum of the interval. */
  lemma BlockIsSum(points: seq<Point>, key: Key, from: nat, to: nat, lo: int, hi: int)
    requires Cut(points, from, to, lo, hi)
    ensures Block(points, key, from, to) == PointSum(points, key, lo, hi)
  {
    CutSum(points, key, from, to, lo, hi, |points|);
    assert points[..|points|] == points;
  }

  /** One bin: consumes the events before its right edge, adding each to the bin and to the running totals. */
  method ScanBin(points: seq<Point>, keys: seq<Key>, from: nat, span: Span, before: Values)
    returns (to: nat, bin: ChartBin, totals: Values)
    requires before.Keys == KeySet(keys)
    requires Sorted(points) && from <= |points| && span.start < span.end
    requires forall i :: 0 <= i < from ==> points[i].ts < span.start
    requires forall i :: from <= i < |points| ==> span.start <= points[i].ts
    ensures Cut(points, from, to, span.start, span.end)
    ensures bin.start == span.start && bin.end == span.end && bin.values.Keys == KeySet(keys)
    ensures bin.total == KeySum(bin.values, keys)
    ensures forall k :: k in keys ==> bin.values[k] == PointSum(points, k, span.start, span.end)
    ensures totals.Keys == KeySet(keys) && forall k :: k in keys ==> totals[k] == before[k] + bin.values[k]
  {
    to, totals := from, before;
    var values := Zeros(keys);
    var total := 0;
    KeySumZeros(keys, keys);
    hide KeySum, PointSum;
    while to < |points| && points[to].ts < span.end
      invariant from <= to <= |points| && forall i :: from <= i < to ==> points[i].ts < span.end
      invariant values.Keys == KeySet(keys) && total == KeySum(values, keys)
      invariant forall k :: k in keys ==> values[k] == Block(points, k, from, to)
      invariant totals.Keys == KeySet(keys) && forall k :: k in keys ==> totals[k] == before[k] + values[k]
    {
      KeySumAdd(values, points[to].values, keys);
      total := total + KeySum(points[to].values, keys);
      values := Add(values, points[to].values);
      totals := Add(totals, points[to].values);
      to := to + 1;
    }
    forall k | k in keys {
      BlockIsSum(points, k, from, to, span.start, span.end);
    }
    bin := ChartBin(span.start, span.end, values, total);
  }

  /** The sum of one series over bins. */
  function BinSum(bins: seq<ChartBin>, key: Key): nat {
    if bins == [] then 0 else BinSum(bins[..|bins| - 1], key) + Get(bins[|bins| - 1].values, key)
  }

  lemma BinSumSnoc(bins: seq<ChartBin>, i: nat, key: Key)
    requires i < |bins|
    ensures BinSum(bins[..i + 1], key) == BinSum(bins[..i], key) + Get(bins[i].values, key)
  {
    assert bins[..i + 1][..i] == bins[..i];
  }

  /** Every bin covers exactly the listed series and its total is their sum. */
  ghost predicate WellFormed(bins: seq<ChartBin>, keys: seq<Key>) {
    forall i :: 0 <= i < |bins| ==>
      bins[i].values.Keys == KeySet(keys) && bins[i].total == KeySum(bins[i].values, keys)
  }

  /** The totals are the sums of the bins, series by series. */
  ghost predicate Summed(totals: Values, bins: seq<ChartBin>, keys: seq<Key>) {
    totals.Keys == KeySet(keys) && forall k :: k in keys ==> totals[k] == BinSum(bins, k)
  }

  /** The totals loop of the dense path. */
  method Totals(bins: seq<ChartBin>, keys: seq<Key>) returns (totals: Values)
    requires WellFormed(bins, keys)
    ensures Summed(totals, bins, keys)
  {
    totals := Zeros(keys);
    for i := 0 to |bins|
      invariant totals.Keys == KeySet(keys) && forall k :: k in keys ==> totals[k] == BinSum(bins[..i], k)
    {
      forall k {
        BinSumSnoc(bins, i, k);
      }
      totals := Add(totals, bins[i].values);
    }
    assert bins[..|bins|] == bins;
  }

  /** Each bin has the edges of its span and the naive sums of its interval. */
  ghost predicate Filled(bins: seq<ChartBin>, spans: seq<Span>, points: seq<Point>, keys: seq<Key>) {
    && |bins| <= |spans| && WellFormed(bins, keys)
    && (forall j :: 0 <= j < |bins| ==> bins[j].start == spans[j].start && bins[j].end == spans[j].end)
    && (forall j, k :: 0 <= j < |bins| && k in keys ==>
          bins[j].values[k] == PointSum(points, k, spans[j].start, spans[j].end))
  }

  /** The pointer stands at the first point that is not before the next span. */
  ghost predicate Stands(points: seq<Point>, pointer: nat, spans: seq<Span>, i: nat) {
    pointer <= |points| && (i < |spans| ==>
      && (forall j :: 0 <= j < pointer ==> points[j].ts < spans[i].start)
      && (forall j :: pointer <= j < |points| ==> spans[i].start <= points[j].ts))
  }

  lemma FilledSnoc(bins: seq<ChartBin>, bin: ChartBin, spans: seq<Span>, points: seq<Point>, keys: seq<Key>)
    requires Filled(bins, spans, points, keys) && |bins| < |spans|
    requires var span := spans[|bins|];
      && bin.start == span.start && bin.end == span.end && bin.values.Keys == KeySet(keys)
      && bin.total == KeySum(bin.values, keys)
      && forall k :: k in keys ==> bin.values[k] == PointSum(points, k, span.start, span.end)
    ensures Filled(bins + [bin], spans, points, keys)
  {
    hide PointSum, KeySum;
  }

  lemma SummedSnoc(before: Values, totals: Values, bins: seq<ChartBin>, bin: ChartBin, keys: seq<Key>)
    requires Summed(before, bins, keys) && bin.values.Keys == KeySet(keys) && totals.Keys == KeySet(keys)
    requires forall k :: k in keys ==> totals[k] == before[k] + bin.values[k]
    ensures Summed(totals, bins + [bin], keys)
  {
    assert (bins + [bin])[..|bins|] == bins && (bins + [bin])[..|bins| + 1] == bins + [bin];
    forall k | k in keys {
      BinSumSnoc(bins + [bin], |bins|, k);
    }
  }

  lemma StandsNext(points: seq<Point>, from: nat, to: nat, spans: seq<Span>, i: nat, range: Span)
    requires ContiguousCover(spans, range) && i < |spans| && Cut(points, from, to, spans[i].start, spans[i].end)
    ensures Stands(points, to, spans, i + 1)
  {
  }

  /** The whole scan: one pointer, never moved back; the totals grow with the bins. */
  method Scan(spans: seq<Span>, points: seq<Point>, keys: seq<Key>, range: Span)
    returns (bins: seq<ChartBin>, totals: Values)
    requires spans != [] && ContiguousCover(spans, range) && Sorted(points) && Within(points, range)
    ensures |bins| == |spans| && Filled(bins, spans, points, keys)
    ensures Summed(totals, bins, keys)
  {
    bins, totals := [], Zeros(keys);
    var eventIndex := 0;
    assert Filled(bins, spans, points, keys) && Summed(totals, bins, keys) && Stands(points, 0, spans, 0);
    hide Filled, Summed, BinSum, PointSum, KeySum, Sorted;
    for i := 0 to |spans|
      invariant |bins| == i && Filled(bins, spans, points, keys) && Summed(totals, bins, keys)
      invariant totals.Keys == KeySet(keys) && Stands(points, eventIndex, spans, i)
    {
      ghost var from, before := eventIndex, totals;
      var bin;
      eventIndex, bin, totals := ScanBin(points, keys, eventIndex, spans[i], totals);
      StandsNext(points, from, eventIndex, spans, i, range);
      FilledSnoc(bins, bin, spans, points, keys);
      SummedSnoc(before, totals, bins, bin, keys);
      bins := bins + [bin];
    }
  }

  // ------------------------------------------------------ what an event adds

  lemma {:induction false} RawSumConcat(
    a: seq<RawEvent>, b: seq<RawEvent>, keys: seq<Key>, key: Key, lo: int, hi: int)
    ensures RawSum(a + b, keys, key, lo, hi) == RawSum(a, keys, key, lo, hi) + RawSum(b, keys, key, lo, hi)
  {
    if b == [] {
      assert a + b == a;
    } else {
      var n := |b| - 1;
      assert (a + b)[..|a + b| - 1] == a + b[..n];
      RawSumConcat(a, b[..n], keys, key, lo, hi);
    }
  }

  /** A number counts if it is positive; what is not a number counts nothing. */
  function Counted(a: Amount, absent: nat): nat {
    if a == Missing then absent else if a.Number? && a.n > 0 then a.n else 0
  }

  /**
    One event adds to a listed series, and only from lo up to but not including hi: with a key its value, or one if it
    carries none, to the series of that key alone; without a key the column of each series, or nothing.
   */
  lemma OneEventAdds(e: RawEvent, keys: seq<Key>, key: Key, lo: int, hi: int)
    requires key in keys
    ensures RawSum([e], keys, key, lo, hi)
         == if e.Junk? || e.ts.None? || e.ts.value < lo || hi <= e.ts.value then 0
            else if e.key.Some? then (if e.key == Some(key) then Counted(e.value, 1) else 0)
            else if key in e.columns then Counted(e.columns[key], 0)
            else 0
  {
    assert [e][..0] == [];
    assert RawSum([], keys, key, lo, hi) == 0;
  }

  /** A series that is not listed gets nothing. */
  lemma {:induction false} UnlistedGetsNothing(events: seq<RawEvent>, keys: seq<Key>, key: Key, lo: int, hi: int)
    requires key !in keys
    ensures RawSum(events, keys, key, lo, hi) == 0
  {
    if events != [] {
      UnlistedGetsNothing(events[..|events| - 1], keys, key, lo, hi);
    }
  }

  /** The positions of the plain events of one series in an interval. */
  function PlainIn(events: seq<RawEvent>, key: Key, lo: int, hi: int): set<nat> {
    set i: nat | i < |events| && events[i].RawEvent? && events[i].key == Some(key) && events[i].ts.Some?
                 && lo <= events[i].ts.value < hi
  }

  /** Events with a key and no value are simply counted. */
  lemma {:induction false} PlainEventsAreCounted(events: seq<RawEvent>, keys: seq<Key>, key: Key, lo: int, hi: int)
    requires key in keys
    requires forall i :: 0 <= i < |events| ==> events[i].RawEvent? && events[i].key.Some? && events[i].value.Missing?
    ensures RawSum(events, keys, key, lo, hi) == |PlainIn(events, key, lo, hi)|
  {
    if events != [] {
      var n := |events| - 1;
      var before, e := events[..n], events[n];
      PlainEventsAreCounted(before, keys, key, lo, hi);
      RawSumConcat(before, [e], keys, key, lo, hi);
      OneEventAdds(e, keys, key, lo, hi);
      assert before + [e] == events;
      var adds := e.key == Some(key) && e.ts.Some? && lo <= e.ts.value < hi;
      assert PlainIn(events, key, lo, hi) == PlainIn(before, key, lo, hi) + (if adds then {n} else {});
    }
  }

  // ------------------------------------------------------------- the order

  /** By timestamp, then by position in the input. */
  ghost predicate InOrder(points: seq<Point>) {
    forall i, j :: 0 <= i < j < |points| ==>
      points[i].ts < points[j].ts || (points[i].ts == points[j].ts && points[i].index < points[j].index)
  }

  lemma {:induction false} InsertKeepsOrder(points: seq<Point>, p: Point)
    requires InOrder(points) && forall q :: q in points ==> q.index < p.index
    ensures InOrder(InsertPoint(points, p))
  {
    if points != [] {
      var n := |points| - 1;
      var rest, last := points[..n], points[n];
      if Before(p, last) {
        InsertKeepsOrder(rest, p);
        InsertPermutes(rest, p);
        var inserted := InsertPoint(rest, p);
        forall i | 0 <= i < |inserted| ensures inserted[i] == p || inserted[i] in rest {
          assert inserted[i] in multiset(inserted);
        }
      }
    }
  }

  /** Points taken from the input in order are sorted by timestamp, ties by their position. */
  lemma {:induction false} SortIsStable(points: seq<Point>)
    requires forall i, j :: 0 <= i < j < |points| ==> points[i].index < points[j].index
    ensures InOrder(SortPoints(points))
  {
    if points != [] {
      var n := |points| - 1;
      SortIsStable(points[..n]);
      SortPermutes(points[..n]);
      forall q | q in SortPoints(points[..n]) ensures q.index < points[n].index {
        assert q in multiset(SortPoints(points[..n]));
        assert q in points[..n];
      }
      InsertKeepsOrder(SortPoints(points[..n]), points[n]);
    }
  }
}
