/**
  Where the chart draws: the time-to-pixel mapping and its inverse, bars, and the
  stacked segments of a bar. Pixels and instants are exact reals, bin edges integers.
 */
module Geometry {
  import opened Charts
  import opened Numbers

  datatype Rect = Rect(x: real, width: real)

  function Length(range: Span): real {
    range.end as real - range.start as real
  }

  /** timeX: linear over the range, clamped to the plot. */
  function TimeX(ts: real, range: Span, padL: real, plotW: real): real {
    var width := MaxReal(0.0, plotW);
    if range.end <= range.start then padL
    else
      var raw := padL + (ts - range.start as real) / Length(range) * width;
      MinReal(padL + width, MaxReal(padL, raw))
  }

  /** timeBarRect: nine tenths of the bin's width, from its left edge. */
  function TimeBarRect(start: int, end: int, range: Span, padL: real, plotW: real): Rect {
    var x := TimeX(start as real, range, padL, plotW);
    var endX := TimeX(end as real, range, padL, plotW);
    Rect(x, MinReal(MaxReal(0.0, plotW), MaxReal(0.0, (endX - x) * 0.9)))
  }

  /** The instant under a pixel. */
  function TimeAt(x: real, range: Span, padL: real, plotW: real): real
    requires plotW > 0.0
  {
    range.start as real + (x - padL) / plotW * Length(range)
  }

  predicate Hit(bins: seq<Span>, i: nat, ts: real)
    requires i < |bins|
  {
    bins[i].start as real <= ts && (ts < bins[i].end as real || (i == |bins| - 1 && ts == bins[i].end as real))
  }

  /** The first bin from position i on that is hit, or -1. */
  function FindBin(bins: seq<Span>, ts: real, i: nat): int
    requires i <= |bins|
    decreases |bins| - i
  {
    if i == |bins| then -1 else if Hit(bins, i, ts) then i else FindBin(bins, ts, i + 1)
  }

  /** timeBinIndexAtX: the bin under a pixel, or -1 outside the plot. */
  function TimeBinIndexAtX(bins: seq<Span>, range: Span, padL: real, plotW: real, x: real): int {
    if bins == [] || plotW <= 0.0 || x < padL || x > padL + plotW then -1
    else FindBin(bins, TimeAt(x, range, padL, plotW), 0)
  }

  /** The fraction of the range an instant has reached. */
  lemma Fraction(ts: real, range: Span)
    requires range.start as real <= ts <= range.end as real && range.start < range.end
    ensures 0.0 <= (ts - range.start as real) / Length(range) <= 1.0
  {
    var part, whole := ts - range.start as real, Length(range);
    DivMonotone(0.0, part, whole);
    DivMonotone(part, whole, whole);
  }

  // --------------------------------------------------------------- inverses

  /** Inside the range nothing is clamped. */
  lemma TimeXInside(ts: real, range: Span, padL: real, plotW: real)
    requires range.start as real <= ts <= range.end as real && range.start < range.end && plotW >= 0.0
    ensures TimeX(ts, range, padL, plotW) == padL + (ts - range.start as real) / Length(range) * plotW
    ensures padL <= TimeX(ts, range, padL, plotW) <= padL + plotW
  {
    Fraction(ts, range);
    MulMonotone(0.0, (ts - range.start as real) / Length(range), plotW);
    MulMonotone((ts - range.start as real) / Length(range), 1.0, plotW);
  }

  /** The instant under the pixel of an instant is that instant. */
  lemma TimeAtInvertsTimeX(ts: real, range: Span, padL: real, plotW: real)
    requires range.start as real <= ts <= range.end as real && range.start < range.end && plotW > 0.0
    ensures TimeAt(TimeX(ts, range, padL, plotW), range, padL, plotW) == ts
  {
    TimeXInside(ts, range, padL, plotW);
    var fraction := (ts - range.start as real) / Length(range);
    MulDiv(fraction, plotW);
    DivMul(ts - range.start as real, Length(range));
  }

  /** The pixel of the instant under a pixel is that pixel. */
  lemma TimeXInvertsTimeAt(x: real, range: Span, padL: real, plotW: real)
    requires padL <= x <= padL + plotW && range.start < range.end && plotW > 0.0
    ensures TimeX(TimeAt(x, range, padL, plotW), range, padL, plotW) == x
  {
    var fraction := (x - padL) / plotW;
    DivMul(x - padL, plotW);
    MulDiv(fraction, Length(range));
  }

  lemma {:induction false} CoverOrder(bins: seq<Span>, range: Span, i: nat, j: nat)
    requires ContiguousCover(bins, range) && i < j < |bins|
    ensures bins[i].end <= bins[j].start
  {
    if i < j - 1 {
      CoverOrder(bins, range, i, j - 1);
    }
  }

  /** Only the bin that contains an instant is hit by it. */
  lemma {:induction false} FindsHit(bins: seq<Span>, range: Span, ts: real, k: nat, i: nat)
    requires ContiguousCover(bins, range) && i <= k < |bins| && Hit(bins, k, ts)
    ensures FindBin(bins, ts, i) == k
    decreases k - i
  {
    if i < k {
      CoverOrder(bins, range, i, k);
      FindsHit(bins, range, ts, k, i + 1);
    }
  }

  /** The lookup inverts the mapping: at the pixel of an instant it returns the bin that contains the instant. */
  lemma LookupInvertsTimeX(bins: seq<Span>, range: Span, padL: real, plotW: real, ts: real, k: nat)
    requires ContiguousCover(bins, range) && range.start < range.end && plotW > 0.0
    requires k < |bins| && Hit(bins, k, ts)
    ensures range.start as real <= ts <= range.end as real
    ensures TimeBinIndexAtX(bins, range, padL, plotW, TimeX(ts, range, padL, plotW)) == k
  {
    CoverIsInside(bins, range, k);
    TimeXInside(ts, range, padL, plotW);
    TimeAtInvertsTimeX(ts, range, padL, plotW);
    FindsHit(bins, range, ts, k, 0);
  }

  /** Every instant of the range is in some bin, the right edge in the last one. */
  lemma {:induction false} SomeBinIsHit(bins: seq<Span>, range: Span, ts: real, i: nat)
    requires ContiguousCover(bins, range) && i < |bins|
    requires bins[i].start as real <= ts <= range.end as real
    ensures exists k :: i <= k < |bins| && Hit(bins, k, ts)
    decreases |bins| - i
  {
    if !Hit(bins, i, ts) {
      SomeBinIsHit(bins, range, ts, i + 1);
    }
  }

  lemma TimeAtInside(x: real, range: Span, padL: real, plotW: real)
    requires padL <= x <= padL + plotW && range.start < range.end && plotW > 0.0
    ensures range.start as real <= TimeAt(x, range, padL, plotW) <= range.end as real
  {
    var fraction := (x - padL) / plotW;
    DivMonotone(0.0, x - padL, plotW);
    DivMonotone(x - padL, plotW, plotW);
    MulMonotone(0.0, fraction, Length(range));
    MulMonotone(fraction, 1.0, Length(range));
  }

  /** The lookup answers a bin exactly inside the plot, and then the bin whose interval contains the instant there. */
  lemma LookupIff(bins: seq<Span>, range: Span, padL: real, plotW: real, x: real)
    requires ContiguousCover(bins, range) && range.start < range.end
    ensures var k := TimeBinIndexAtX(bins, range, padL, plotW, x);
      if bins != [] && plotW > 0.0 && padL <= x <= padL + plotW
      then 0 <= k < |bins| && Hit(bins, k, TimeAt(x, range, padL, plotW))
      else k == -1
  {
    hide TimeAt;
    if bins != [] && plotW > 0.0 && padL <= x <= padL + plotW {
      var ts := TimeAt(x, range, padL, plotW);
      TimeAtInside(x, range, padL, plotW);
      SomeBinIsHit(bins, range, ts, 0);
      var k :| 0 <= k < |bins| && Hit(bins, k, ts);
      FindsHit(bins, range, ts, k, 0);
    }
  }

  /** How far along the plot an instant would be drawn if nothing were clamped. */
  function Unclamped(ts: real, range: Span, plotW: real): real
    requires range.start < range.end
  {
    (ts - range.start as real) / Length(range) * MaxReal(0.0, plotW)
  }

  lemma ClampOf(ts: real, range: Span, padL: real, plotW: real)
    requires range.start < range.end
    ensures TimeX(ts, range, padL, plotW)
         == padL + MinReal(MaxReal(0.0, plotW), MaxReal(0.0, Unclamped(ts, range, plotW)))
  {
  }

  lemma UnclampedRises(a: real, b: real, range: Span, plotW: real)
    requires range.start < range.end && a <= b
    ensures Unclamped(a, range, plotW) <= Unclamped(b, range, plotW)
  {
    var whole := Length(range);
    DivMonotone(a - range.start as real, b - range.start as real, whole);
    MulMonotone((a - range.start as real) / whole, (b - range.start as real) / whole, MaxReal(0.0, plotW));
  }

  lemma UnclampedEdges(range: Span, plotW: real)
    requires range.start < range.end
    ensures Unclamped(range.start as real, range, plotW) == 0.0
    ensures Unclamped(range.end as real, range, plotW) == MaxReal(0.0, plotW)
  {
    var whole := Length(range);
    DivMul(0.0, whole);
    MulDiv(1.0, whole);
  }

  /** Outside the range the mapping stays at the plot's edges, and nowhere does it run backwards. */
  lemma TimeXClamps(a: real, b: real, range: Span, padL: real, plotW: real)
    requires range.start < range.end && a <= b
    ensures padL <= TimeX(a, range, padL, plotW) <= TimeX(b, range, padL, plotW) <= padL + MaxReal(0.0, plotW)
    ensures b <= range.start as real ==> TimeX(b, range, padL, plotW) == padL
    ensures a >= range.end as real ==> TimeX(a, range, padL, plotW) == padL + MaxReal(0.0, plotW)
  {
    ClampOf(a, range, padL, plotW);
    ClampOf(b, range, padL, plotW);
    UnclampedRises(a, b, range, plotW);
    UnclampedEdges(range, plotW);
    if b <= range.start as real {
      UnclampedRises(b, range.start as real, range, plotW);
    }
    if a >= range.end as real {
      UnclampedRises(range.end as real, a, range, plotW);
    }
    hide TimeX, Unclamped;
  }

  /** A range without extent is drawn at the left edge. */
  lemma NoRangeNoExtent(ts: real, range: Span, padL: real, plotW: real, start: int, end: int)
    requires range.end <= range.start
    ensures TimeX(ts, range, padL, plotW) == padL
    ensures TimeBarRect(start, end, range, padL, plotW) == Rect(padL, 0.0)
  {
  }

  // ------------------------------------------------------------------- bars

  lemma TimeXMonotone(a: real, b: real, range: Span, padL: real, plotW: real)
    requires range.start as real <= a <= b <= range.end as real && range.start < range.end
    ensures padL <= TimeX(a, range, padL, plotW) <= TimeX(b, range, padL, plotW) <= padL + MaxReal(0.0, plotW)
  {
    var width := MaxReal(0.0, plotW);
    TimeXInside(a, range, padL, width);
    TimeXInside(b, range, padL, width);
    DivMonotone(a - range.start as real, b - range.start as real, Length(range));
    MulMonotone((a - range.start as real) / Length(range), (b - range.start as real) / Length(range), width);
  }

  /** A bar starts at its bin's left edge and ends a tenth before its right edge, inside the plot. */
  lemma BarInsideBin(bins: seq<Span>, range: Span, padL: real, plotW: real, i: nat)
    requires ContiguousCover(bins, range) && range.start < range.end && i < |bins|
    ensures var rect := TimeBarRect(bins[i].start, bins[i].end, range, padL, plotW);
      var left := TimeX(bins[i].start as real, range, padL, plotW);
      var right := TimeX(bins[i].end as real, range, padL, plotW);
      && padL <= left <= right <= padL + MaxReal(0.0, plotW)
      && rect.x == left && rect.width == (right - left) * 0.9
      && rect.x + rect.width <= right
  {
    CoverIsInside(bins, range, i);
    TimeXMonotone(bins[i].start as real, bins[i].end as real, range, padL, plotW);
  }

  /** Bars of distinct bins do not overlap. */
  lemma BarsAreDisjoint(bins: seq<Span>, range: Span, padL: real, plotW: real, i: nat, j: nat)
    requires ContiguousCover(bins, range) && range.start < range.end && i < j < |bins|
    ensures var a := TimeBarRect(bins[i].start, bins[i].end, range, padL, plotW);
      var b := TimeBarRect(bins[j].start, bins[j].end, range, padL, plotW);
      a.x + a.width <= b.x
  {
    BarInsideBin(bins, range, padL, plotW, i);
    BarInsideBin(bins, range, padL, plotW, j);
    CoverOrder(bins, range, i, j);
    CoverIsInside(bins, range, i);
    CoverIsInside(bins, range, j);
    TimeXMonotone(bins[i].end as real, bins[j].start as real, range, padL, plotW);
  }

  lemma TimeXStrict(a: real, b: real, range: Span, padL: real, plotW: real)
    requires range.start as real <= a < b <= range.end as real && plotW > 0.0
    ensures TimeX(a, range, padL, plotW) < TimeX(b, range, padL, plotW)
  {
    TimeXMonotone(a, b, range, padL, plotW);
    TimeAtInvertsTimeX(a, range, padL, plotW);
    TimeAtInvertsTimeX(b, range, padL, plotW);
  }

  lemma TimeAtMonotone(x: real, y: real, range: Span, padL: real, plotW: real)
    requires x <= y && plotW > 0.0 && range.start < range.end
    ensures TimeAt(x, range, padL, plotW) <= TimeAt(y, range, padL, plotW)
  {
    DivMonotone(x - padL, y - padL, plotW);
    MulMonotone((x - padL) / plotW, (y - padL) / plotW, Length(range));
  }

  /** Pointing anywhere at a bar finds its bin. */
  lemma PointingAtABar(bins: seq<Span>, range: Span, padL: real, plotW: real, i: nat, x: real)
    requires ContiguousCover(bins, range) && range.start < range.end && plotW > 0.0 && i < |bins|
    requires var rect := TimeBarRect(bins[i].start, bins[i].end, range, padL, plotW);
      rect.x <= x <= rect.x + rect.width
    ensures TimeBinIndexAtX(bins, range, padL, plotW, x) == i
  {
    var start, end := bins[i].start as real, bins[i].end as real;
    var left, right := TimeX(start, range, padL, plotW), TimeX(end, range, padL, plotW);
    BarInsideBin(bins, range, padL, plotW, i);
    CoverIsInside(bins, range, i);
    TimeXStrict(start, end, range, padL, plotW);
    var ts := TimeAt(x, range, padL, plotW);
    TimeAtMonotone(left, x, range, padL, plotW);
    TimeAtMonotone(x, right, range, padL, plotW);
    TimeAtInvertsTimeX(start, range, padL, plotW);
    TimeAtInvertsTimeX(end, range, padL, plotW);
    if ts == end {
      TimeXInvertsTimeAt(x, range, padL, plotW);
    }
    FindsHit(bins, range, ts, i, 0);
  }

  // --------------------------------------------------------------- segments

  datatype Segment = Segment(key: Key, value: nat, x: real, width: real, y: real, height: real)

  /** The stack so far in pixels. */
  function Pixels(value: nat, safeMax: real, height: real): real
    requires safeMax > 0.0
  {
    value as real / safeMax * height
  }

  lemma PixelsAdd(a: nat, b: nat, safeMax: real, height: real)
    requires safeMax > 0.0 && height >= 0.0
    ensures Pixels(a + b, safeMax, height) == Pixels(a, safeMax, height) + Pixels(b, safeMax, height)
    ensures Pixels(b, safeMax, height) >= 0.0
  {
    DivAdd(a as real, b as real, safeMax);
    DivMonotone(0.0, b as real, safeMax);
    MulMonotone(0.0, b as real / safeMax, height);
  }

  /** Where the stack of the first i series ends. */
  function Stacked(values: Values, keys: seq<Key>, i: nat): nat
    requires i <= |keys|
  {
    KeySum(values, keys[..i])
  }

  lemma StackedStep(values: Values, keys: seq<Key>, i: nat)
    requires i < |keys|
    ensures Stacked(values, keys, i + 1) == Stacked(values, keys, i) + Get(values, keys[i])
  {
    assert keys[..i + 1][..i] == keys[..i];
  }

  /** buildStackedBarSegments: each segment as tall as its share of the maximum, on top of the previous ones. */
  method BuildStackedBarSegments(
    values: Values, keys: seq<Key>, rect: Rect, maxValue: real, plotH: real, padT: real)
    returns (segments: seq<Segment>)
    ensures |segments| == |keys|
    ensures var safeMax, height := MaxReal(1.0, maxValue), MaxReal(0.0, plotH);
      forall i :: 0 <= i < |keys| ==>
        && segments[i].key == keys[i] && segments[i].value == Get(values, keys[i])
        && segments[i].x == rect.x && segments[i].width == rect.width
        && segments[i].height == Pixels(Get(values, keys[i]), safeMax, height)
        && segments[i].y == padT + height - Pixels(Stacked(values, keys, i + 1), safeMax, height)
  {
    hide Pixels;
    var safeMax, height := MaxReal(1.0, maxValue), MaxReal(0.0, plotH);
    var baseline := 0;
    segments := [];
    assert keys[..0] == [];
    for i := 0 to |keys|
      invariant |segments| == i && baseline == Stacked(values, keys, i)
      invariant forall j :: 0 <= j < i ==>
        && segments[j].key == keys[j] && segments[j].value == Get(values, keys[j])
        && segments[j].x == rect.x && segments[j].width == rect.width
        && segments[j].height == Pixels(Get(values, keys[j]), safeMax, height)
        && segments[j].y == padT + height - Pixels(Stacked(values, keys, j + 1), safeMax, height)
    {
      var value := Get(values, keys[i]);
      var bottom := padT + height - Pixels(baseline, safeMax, height);
      StackedStep(values, keys, i);
      PixelsAdd(baseline, value, safeMax, height);
      baseline := baseline + value;
      var top := padT + height - Pixels(baseline, safeMax, height);
      segments := segments + [Segment(keys[i], value, rect.x, rect.width, top, MaxReal(0.0, bottom - top))];
    }
  }

  /** The segments of one bar, as the method lays them out. */
  ghost predicate StackOf(
    segments: seq<Segment>, values: Values, keys: seq<Key>, safeMax: real, height: real, padT: real)
    requires safeMax > 0.0
  {
    && |segments| == |keys|
    && forall i :: 0 <= i < |keys| ==>
         && segments[i].height == Pixels(Get(values, keys[i]), safeMax, height)
         && segments[i].y == padT + height - Pixels(Stacked(values, keys, i + 1), safeMax, height)
  }

  /** Segments tile upward from the bottom of the plot: each starts exactly where the previous one ends. */
  lemma SegmentsTile(
    segments: seq<Segment>, values: Values, keys: seq<Key>, safeMax: real, height: real, padT: real, i: nat)
    requires safeMax > 0.0 && height >= 0.0 && StackOf(segments, values, keys, safeMax, height, padT) && i < |segments|
    ensures segments[i].height >= 0.0
    ensures segments[i].y + segments[i].height == if i == 0 then padT + height else segments[i - 1].y
  {
    StackedStep(values, keys, i);
    PixelsAdd(Stacked(values, keys, i), Get(values, keys[i]), safeMax, height);
    assert keys[..0] == [];
  }

  lemma {:induction false} StackedGrows(values: Values, keys: seq<Key>, i: nat)
    requires i <= |keys|
    ensures Stacked(values, keys, i) <= KeySum(values, keys)
    decreases |keys| - i
  {
    if i < |keys| {
      StackedStep(values, keys, i);
      StackedGrows(values, keys, i + 1);
    } else {
      assert keys[..i] == keys;
    }
  }

  lemma PixelsFitIff(value: nat, safeMax: real, height: real)
    requires safeMax > 0.0 && height >= 0.0
    ensures Pixels(value, safeMax, height) <= height <==> value as real <= safeMax || height == 0.0
  {
    var share := value as real / safeMax;
    DivMul(value as real, safeMax);
    if value as real <= safeMax {
      DivMonotone(value as real, safeMax, safeMax);
      MulMonotone(share, 1.0, height);
    } else if height > 0.0 {
      DivMonotone(safeMax, value as real, safeMax);
      MulStrict(1.0, share, height);
    }
  }

  /** A stack stays in the plot exactly when the bin total does not exceed the maximum, or the plot is flat. */
  lemma StackFitsIff(
    segments: seq<Segment>, values: Values, keys: seq<Key>, safeMax: real, height: real, padT: real)
    requires safeMax > 0.0 && height >= 0.0 && StackOf(segments, values, keys, safeMax, height, padT) && keys != []
    ensures (forall i :: 0 <= i < |segments| ==> segments[i].y >= padT)
       <==> KeySum(values, keys) as real <= safeMax || height == 0.0
  {
    var n, total := |keys| - 1, KeySum(values, keys);
    assert keys[..n + 1] == keys;
    PixelsFitIff(total, safeMax, height);
    if total as real <= safeMax || height == 0.0 {
      forall i | 0 <= i < |segments| ensures segments[i].y >= padT {
        StackedGrows(values, keys, i + 1);
        PixelsFitIff(Stacked(values, keys, i + 1), safeMax, height);
      }
    } else {
      assert segments[n].y < padT;
    }
  }
}
