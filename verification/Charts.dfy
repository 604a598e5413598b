/**
  The data behind the stacked chart: interval construction, the contiguous-cover
  validator for server buckets, the single-pointer merge of sorted point events,
  and the cumulative series. Timestamps and counts are integers.
 */
module Charts {
  import opened Numbers
  import opened Wrappers

  datatype Key = Key(name: string)

  datatype Span = Span(start: int, end: int)

  /** A raw count: absent or empty, something that is not a number, or a number. */
  datatype Amount = Missing | NotANumber | Number(n: int)

  /** eventAmount. */
  function EventAmount(a: Amount, fallback: nat): nat {
    match a
    case Missing => fallback
    case NotANumber => 0
    case Number(n) => if n < 0 then 0 else n
  }

  /**
    One raw chart input. ts is what the timestamp fields resolve to (None for NaN);
    start and end are None when the row has no such property.
   */
  datatype RawEvent =
    | Junk
    | RawEvent(ts: Option<int>, start: Option<Option<int>>, end: Option<Option<int>>,
               key: Option<Key>, value: Amount, columns: map<Key, Amount>)

  type Values = map<Key, nat>

  datatype Point = Point(ts: int, index: nat, values: Values)

  datatype ChartBin = ChartBin(start: int, end: int, values: Values, total: nat)

  datatype CumulativePoint = CumulativePoint(ts: int, v: nat, binIdx: int)

  datatype ChartData = ChartData(
    bins: seq<ChartBin>, cumulative: map<Key, seq<CumulativePoint>>, totals: Values)

  datatype TypeError = TypeError

  // -------------------------------------------------------------- intervals

  /** Non-empty spans that cover the range without gap or overlap, or no span at all. */
  ghost predicate ContiguousCover(spans: seq<Span>, range: Span) {
    && (forall i :: 0 <= i < |spans| ==> spans[i].start < spans[i].end)
    && (forall i :: 0 < i < |spans| ==> spans[i - 1].end == spans[i].start)
    && (spans != [] ==> spans[0].start == range.start && spans[|spans| - 1].end == range.end)
  }

  ghost predicate Capped(spans: seq<Span>, right: int, binMs: int) {
    forall i :: 0 <= i < |spans| ==> spans[i].end == Min(spans[i].start + binMs, right)
  }

  /** Equal-width spans from the left edge; the last one is capped. */
  ghost predicate Regular(spans: seq<Span>, range: Span, binMs: int) {
    spans != [] && ContiguousCover(spans, range) && Capped(spans, range.end, binMs)
  }

  lemma CoverGrows(spans: seq<Span>, left: int, start: int, right: int, binMs: int)
    requires ContiguousCover(spans, Span(left, start)) && (spans == [] ==> start == left) && start < right && binMs > 0
    requires Capped(spans, right, binMs)
    ensures var end := Min(start + binMs, right); var next := spans + [Span(start, end)];
      ContiguousCover(next, Span(left, end)) && Capped(next, right, binMs)
  {
  }

  /** boundedTimeIntervals: equal widths from the left edge, the last one capped at the right edge. */
  method BoundedTimeIntervals(range: Span, binMs: int) returns (r: Result<seq<Span>, TypeError>)
    ensures r.Ok? <==> range.start < range.end && binMs > 0
    ensures r.Ok? ==> Regular(r.value, range, binMs)
  {
    if range.end <= range.start || binMs <= 0 {
      return Err(TypeError);
    }
    var bins: seq<Span> := [];
    var start := range.start;
    assert ContiguousCover(bins, Span(start, start)) && Capped(bins, range.end, binMs);
    hide ContiguousCover, Capped;
    while start < range.end
      invariant start <= range.end
      invariant ContiguousCover(bins, Span(range.start, start)) && (bins == [] ==> start == range.start)
      invariant Capped(bins, range.end, binMs)
      decreases range.end - start
    {
      var end := Min(start + binMs, range.end);
      CoverGrows(bins, range.start, start, range.end, binMs);
      bins := bins + [Span(start, end)];
      if end >= range.end {
        break;
      }
      start := end;
    }
    r := Ok(bins);
  }

  // ------------------------------------------------------------ dense buckets

  /** denseIntervalInput. */
  predicate DenseInput(events: seq<RawEvent>) {
    exists i :: 0 <= i < |events| && events[i].RawEvent? && (events[i].start.Some? || events[i].end.Some?)
  }

  /** A row with finite own edges. */
  predicate HasSpan(e: RawEvent) {
    e.RawEvent? && e.start.Some? && e.start.value.Some? && e.end.Some? && e.end.value.Some?
  }

  function SpanOf(e: RawEvent): Span
    requires HasSpan(e)
  {
    Span(e.start.value.value, e.end.value.value)
  }

  ghost predicate AllSpans(events: seq<RawEvent>) {
    forall i :: 0 <= i < |events| ==> HasSpan(events[i])
  }

  ghost function Spans(events: seq<RawEvent>): seq<Span>
    requires AllSpans(events)
  {
    seq(|events|, i requires 0 <= i < |events| => SpanOf(events[i]))
  }

  /** The rows the dense path accepts. */
  ghost predicate DenseOk(events: seq<RawEvent>, range: Span) {
    AllSpans(events) && ContiguousCover(Spans(events), range)
  }

  function Column(e: RawEvent, key: Key): Amount {
    if e.RawEvent? && key in e.columns then e.columns[key] else Missing
  }

  function RowValues(e: RawEvent, keys: seq<Key>): Values {
    map k | k in keys :: EventAmount(Column(e, k), 0)
  }

  /** The sum of a row over the listed keys. */
  function KeySum(values: Values, keys: seq<Key>): nat {
    if keys == [] then 0
    else KeySum(values, keys[..|keys| - 1]) + Get(values, keys[|keys| - 1])
  }

  function Get(values: Values, key: Key): nat {
    if key in values then values[key] else 0
  }

  /** normalizedDenseIntervals: accepts exactly the contiguous covers of the range. */
  method NormalizedDenseIntervals(events: seq<RawEvent>, keys: seq<Key>, range: Span)
    returns (r: Result<seq<ChartBin>, TypeError>)
    ensures r.Ok? <==> DenseOk(events, range)
    ensures r.Ok? ==> |r.value| == |events|
    ensures r.Ok? ==> forall i :: 0 <= i < |events| ==>
      r.value[i] == ChartBin(SpanOf(events[i]).start, SpanOf(events[i]).end, RowValues(events[i], keys),
                             KeySum(RowValues(events[i], keys), keys))
  {
    hide RowValues, KeySum;
    var intervals: seq<ChartBin> := [];
    var previousEnd: Option<int> := None;
    for i := 0 to |events|
      invariant |intervals| == i && AllSpans(events[..i])
      invariant forall j :: 0 <= j < i ==>
        intervals[j] == ChartBin(SpanOf(events[j]).start, SpanOf(events[j]).end, RowValues(events[j], keys),
                                 KeySum(RowValues(events[j], keys), keys))
      invariant previousEnd == if i == 0 then None else Some(intervals[i - 1].end)
      invariant forall j :: 0 <= j < i ==> range.start <= intervals[j].start < intervals[j].end <= range.end
      invariant forall j :: 0 < j < i ==> intervals[j - 1].end == intervals[j].start
      invariant i > 0 ==> intervals[0].start == range.start
    {
      var e := events[i];
      if !HasSpan(e) {
        return Err(TypeError);
      }
      var span := SpanOf(e);
      if span.end <= span.start {
        NotACover(events, range, i);
        return Err(TypeError);
      }
      if span.start < range.start || span.end > range.end {
        NotACover(events, range, i);
        return Err(TypeError);
      }
      if i == 0 && span.start != range.start {
        NotACover(events, range, i);
        return Err(TypeError);
      }
      if previousEnd.Some? && span.start != previousEnd.value {
        NotACover(events, range, i);
        return Err(TypeError);
      }
      var values := RowValues(e, keys);
      intervals := intervals + [ChartBin(span.start, span.end, values, KeySum(values, keys))];
      previousEnd := Some(span.end);
    }
    if previousEnd.Some? && previousEnd.value != range.end {
      return Err(TypeError);
    }
    r := Ok(intervals);
  }

  /** What each row of an accepted list must look like; the contrapositive justifies every refusal. */
  lemma NotACover(events: seq<RawEvent>, range: Span, i: nat)
    requires i < |events|
    ensures DenseOk(events, range) ==>
      && range.start <= SpanOf(events[i]).start < SpanOf(events[i]).end <= range.end
      && (i == 0 ==> SpanOf(events[i]).start == range.start)
      && (i > 0 ==> SpanOf(events[i]).start == SpanOf(events[i - 1]).end)
  {
    if DenseOk(events, range) {
      var spans := Spans(events);
      CoverIsInside(spans, range, i);
      assert spans[i] == SpanOf(events[i]) && (i > 0 ==> spans[i - 1] == SpanOf(events[i - 1]));
    }
  }

  lemma CoverIsInside(spans: seq<Span>, range: Span, i: nat)
    requires ContiguousCover(spans, range) && i < |spans|
    ensures range.start <= spans[i].start && spans[i].end <= range.end
  {
    CoverPrefix(spans, range, i);
    CoverSuffix(spans, range, i);
  }

  lemma {:induction false} CoverPrefix(spans: seq<Span>, range: Span, i: nat)
    requires ContiguousCover(spans, range) && i < |spans|
    ensures range.start <= spans[i].start
  {
    if i > 0 {
      CoverPrefix(spans, range, i - 1);
    }
  }

  lemma {:induction false} CoverSuffix(spans: seq<Span>, range: Span, i: nat)
    requires ContiguousCover(spans, range) && i < |spans|
    ensures spans[i].end <= range.end
    decreases |spans| - i
  {
    if i < |spans| - 1 {
      CoverSuffix(spans, range, i + 1);
    }
  }
}
