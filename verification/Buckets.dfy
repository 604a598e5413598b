/**
  Range windows and epoch-aligned buckets. Instants are whole microseconds since
  the Unix epoch, bucket widths and bucket epochs are whole seconds.
 */
module Buckets {
  import opened Numbers

  const MICROS := 1_000_000

  datatype Window = Window(start: int, end: int, bucketS: nat)

  datatype Bin = Bin(left: int, right: int, epoch: int)

  /** The first microsecond of an epoch second. */
  function AtEpoch(epoch: int): int {
    epoch * MICROS
  }

  /** epoch_seconds: whole seconds since the epoch, truncated toward zero. */
  function EpochSeconds(at: int): int {
    if at >= 0 then at / MICROS else -((-at) / MICROS)
  }

  /** bucket_epoch: the aligned start of the bucket of an instant, as the server computes it. */
  function BucketEpoch(at: int, bucketS: nat): int
    requires bucketS > 0
  {
    EpochSeconds(at) / bucketS * bucketS
  }

  /** The aligned start of the bucket of an instant, as the grouping query computes it. */
  function GroupEpoch(at: int, bucketS: nat): int
    requires bucketS > 0
  {
    at / (bucketS * MICROS) * bucketS
  }

  /**
    Truncation moves an instant into the next bucket: it lies before 1970, strictly
    inside the last second before a bucket boundary.
   */
  predicate Skips(at: int, bucketS: nat)
    requires bucketS > 0
  {
    at < 0 && 0 < (-at) % (bucketS * MICROS) < MICROS
  }

  // ------------------------------------------------------------- division

  lemma MulLe(a: int, b: int, d: int)
    requires a <= b && 0 <= d
    ensures a * d <= b * d
  {
  }

  lemma MulSucc(a: int, d: int)
    ensures (a + 1) * d == a * d + d && (a - 1) * d == a * d - d
  {
  }

  lemma Scale(k: int, b: int)
    ensures k * (b * MICROS) == k * b * MICROS
  {
  }

  /** Division with remainder is unique. */
  lemma Quotient(a: int, d: int, q: int, r: int)
    requires 0 <= r < d && a == q * d + r
    ensures a / d == q && a % d == r
  {
    var q' := a / d;
    assert a == q' * d + a % d;
    if q' < q {
      MulLe(q' + 1, q, d);
      MulSucc(q', d);
    } else if q < q' {
      MulLe(q + 1, q', d);
      MulSucc(q, d);
    }
  }

  lemma NestedQuotient(a: int, m: int, b: int)
    requires m > 0 && b > 0
    ensures b * m > 0 && a / m / b == a / (b * m)
  {
    var s, r := a / m, a % m;
    var q, t := s / b, s % b;
    Regroup(q, b, t, m);
    MulLe(1, b, m);
    MulLe(0, t, m);
    MulLe(t, b - 1, m);
    MulSucc(b, m);
    Quotient(a, b * m, q, t * m + r);
  }

  lemma Regroup(q: int, b: int, t: int, m: int)
    ensures (q * b + t) * m == q * (b * m) + t * m
  {
  }

  lemma Multiples(q: int, b: int)
    requires b > 0
    ensures q * b / b == q && q * b % b == 0
  {
    Quotient(q * b, b, q, 0);
  }

  /** The server's bucket and the query's bucket agree except where truncation skips ahead by one. */
  lemma BucketVersusGroup(at: int, bucketS: nat)
    requires bucketS > 0
    ensures BucketEpoch(at, bucketS) == GroupEpoch(at, bucketS) + (if Skips(at, bucketS) then bucketS else 0)
  {
    if at >= 0 {
      NestedQuotient(at, MICROS, bucketS);
    } else {
      BackFromBoundary(at, bucketS);
    }
  }

  /** An instant before 1970, as the distance back from the first boundary at or after it. */
  lemma BackFromBoundary(at: int, bucketS: nat)
    requires bucketS > 0 && at < 0
    ensures BucketEpoch(at, bucketS) == GroupEpoch(at, bucketS) + (if Skips(at, bucketS) then bucketS else 0)
  {
    var p, rest := (-at) / (bucketS * MICROS), (-at) % (bucketS * MICROS);
    SecondsBack(at, bucketS, p, rest);
    GroupBack(at, bucketS, p, rest);
    BucketBack(-p, bucketS, rest / MICROS);
  }

  /** Truncation keeps the whole seconds of the distance. */
  lemma SecondsBack(at: int, bucketS: nat, p: int, rest: int)
    requires bucketS > 0 && at < 0 && -at == p * (bucketS * MICROS) + rest && 0 <= rest < bucketS * MICROS
    ensures EpochSeconds(at) == -p * bucketS - rest / MICROS && 0 <= rest / MICROS < bucketS
  {
    Scale(p, bucketS);
    Quotient(-at, MICROS, p * bucketS + rest / MICROS, rest % MICROS);
  }

  lemma GroupBack(at: int, bucketS: nat, p: int, rest: int)
    requires bucketS > 0 && -at == p * (bucketS * MICROS) + rest && 0 <= rest < bucketS * MICROS
    ensures GroupEpoch(at, bucketS) == -p * bucketS - (if rest == 0 then 0 else bucketS)
  {
    var width := bucketS * MICROS;
    MulSucc(-p, width);
    MulSucc(-p, bucketS);
    if rest == 0 {
      Quotient(at, width, -p, 0);
    } else {
      Quotient(at, width, -p - 1, width - rest);
    }
  }

  lemma BucketBack(q: int, bucketS: nat, k: int)
    requires 0 <= k < bucketS
    ensures (q * bucketS - k) / bucketS * bucketS == q * bucketS - (if k == 0 then 0 else bucketS)
  {
    MulSucc(q, bucketS);
    if k == 0 {
      Quotient(q * bucketS, bucketS, q, 0);
    } else {
      Quotient(q * bucketS - k, bucketS, q - 1, bucketS - k);
    }
  }

  /** The bucket of the query contains the instant. */
  lemma GroupContains(at: int, bucketS: nat)
    requires bucketS > 0
    ensures AtEpoch(GroupEpoch(at, bucketS)) <= at < AtEpoch(GroupEpoch(at, bucketS)) + bucketS * MICROS
    ensures GroupEpoch(at, bucketS) % bucketS == 0
  {
    var q := at / (bucketS * MICROS);
    assert AtEpoch(q * bucketS) == q * (bucketS * MICROS);
    Multiples(q, bucketS);
  }

  /** No other aligned bucket contains it. */
  lemma GroupUnique(at: int, epoch: int, bucketS: nat)
    requires bucketS > 0 && epoch % bucketS == 0
    requires AtEpoch(epoch) <= at < AtEpoch(epoch) + bucketS * MICROS
    ensures epoch == GroupEpoch(at, bucketS)
  {
    var q := epoch / bucketS;
    assert AtEpoch(epoch) == q * (bucketS * MICROS);
    Quotient(at, bucketS * MICROS, q, at - AtEpoch(epoch));
  }

  // ------------------------------------------------------------ dense bounds

  function BinAt(start: int, end: int, bucketS: nat, epoch: int): Bin {
    Bin(Max(AtEpoch(epoch), start), Min(AtEpoch(epoch) + bucketS * MICROS, end), epoch)
  }

  /** How many aligned buckets the window is cut into. */
  function BinCount(start: int, end: int, bucketS: nat): (n: int)
    requires bucketS > 0
  {
    if end <= start then 0
    else (BucketEpoch(end - 1, bucketS) - BucketEpoch(start, bucketS)) / bucketS + 1
  }

  lemma BinCountNat(start: int, end: int, bucketS: nat)
    requires bucketS > 0
    ensures BinCount(start, end, bucketS) >= 0
    ensures start < end ==>
      BucketEpoch(end - 1, bucketS) == BucketEpoch(start, bucketS) + (BinCount(start, end, bucketS) - 1) * bucketS
  {
    if start < end {
      var first, last := BucketEpoch(start, bucketS), BucketEpoch(end - 1, bucketS);
      var p, q := EpochSeconds(start) / bucketS, EpochSeconds(end - 1) / bucketS;
      assert last - first == (q - p) * bucketS;
      Multiples(q - p, bucketS);
      BucketVersusGroup(start, bucketS);
      BucketVersusGroup(end - 1, bucketS);
      GroupMonotone(start, end - 1, bucketS);
      if q - p < -1 {
        MulLe(q - p + 1, -1, bucketS);
        MulSucc(q - p, bucketS);
      }
    }
  }

  lemma GroupMonotone(a: int, b: int, bucketS: nat)
    requires a <= b && bucketS > 0
    ensures GroupEpoch(a, bucketS) <= GroupEpoch(b, bucketS)
  {
    var width := bucketS * MICROS;
    var p, q := a / width, b / width;
    if q < p {
      MulLe(q + 1, p, width);
      MulSucc(q, width);
    }
    MulLe(p, q, bucketS);
  }

  /** The bins of a window, in closed form; the count is never negative. */
  function DenseBounds(start: int, end: int, bucketS: nat): seq<Bin>
    requires bucketS > 0
  {
    seq(Max(0, BinCount(start, end, bucketS)), i requires 0 <= i =>
      BinAt(start, end, bucketS, BucketEpoch(start, bucketS) + i * bucketS))
  }

  /** dense_bucket_bounds: walks the aligned epochs and clips both edges. */
  method DenseBucketBounds(start: int, end: int, bucketS: nat) returns (out: seq<Bin>)
    requires bucketS > 0
    ensures out == DenseBounds(start, end, bucketS)
  {
    out := [];
    if end <= start {
      return;
    }
    var first := BucketEpoch(start, bucketS);
    var last := BucketEpoch(end - 1, bucketS);
    var current := first;
    ghost var n := BinCount(start, end, bucketS);
    BinCountNat(start, end, bucketS);
    while current <= last
      invariant |out| <= n && current == first + |out| * bucketS
      invariant forall i :: 0 <= i < |out| ==> out[i] == BinAt(start, end, bucketS, first + i * bucketS)
      decreases n - |out|
    {
      BeforeLast(|out|, n, bucketS);
      MulSucc(|out|, bucketS);
      out := out + [BinAt(start, end, bucketS, current)];
      current := current + bucketS;
    }
    if |out| < n {
      MulLe(|out|, n - 1, bucketS);
    }
  }

  lemma BeforeLast(k: int, n: int, bucketS: nat)
    requires bucketS > 0 && k * bucketS <= (n - 1) * bucketS
    ensures k < n
  {
    MulSucc(n, bucketS);
    if k >= n {
      MulLe(n, k, bucketS);
    }
  }

  /** Non-empty bins that cover [start, end) without gap or overlap. */
  ghost predicate Partition(bins: seq<Bin>, start: int, end: int) {
    && |bins| > 0 && bins[0].left == start && bins[|bins| - 1].right == end
    && (forall i :: 0 <= i < |bins| ==> bins[i].left < bins[i].right)
    && (forall i :: 0 < i < |bins| ==> bins[i - 1].right == bins[i].left)
  }

  /** Aligned, consecutive bins; only the outer edges are clipped. */
  ghost predicate Aligned(bins: seq<Bin>, start: int, end: int, bucketS: nat)
    requires bucketS > 0
  {
    && (forall i :: 0 <= i < |bins| ==> bins[i].epoch % bucketS == 0)
    && (forall i :: 0 < i < |bins| ==> bins[i].epoch == bins[i - 1].epoch + bucketS)
    && (forall i :: 0 < i < |bins| ==> bins[i].left == AtEpoch(bins[i].epoch))
  }

  /** The bounds partition a non-empty window exactly when neither edge is skipped by truncation. */
  lemma PartitionIff(start: int, end: int, bucketS: nat)
    requires bucketS > 0 && start < end
    ensures Partition(DenseBounds(start, end, bucketS), start, end)
       <==> !Skips(start, bucketS) && !Skips(end - 1, bucketS)
  {
    var bins := DenseBounds(start, end, bucketS);
    BinCountNat(start, end, bucketS);
    BucketVersusGroup(start, bucketS);
    BucketVersusGroup(end - 1, bucketS);
    GroupContains(start, bucketS);
    GroupContains(end - 1, bucketS);
    if Skips(start, bucketS) {
      if |bins| > 0 {
        assert bins[0].left > start;
      }
    } else if Skips(end - 1, bucketS) {
      assert bins[|bins| - 1].left >= end;
    } else {
      BinsPartition(start, end, bucketS);
    }
  }

  /** Without skips the first and the last bin hold the two edges of the window. */
  lemma EdgeEpochs(start: int, end: int, bucketS: nat)
    requires bucketS > 0 && start < end && !Skips(start, bucketS) && !Skips(end - 1, bucketS)
    ensures var first, n := BucketEpoch(start, bucketS), BinCount(start, end, bucketS);
      && n >= 1 && first % bucketS == 0
      && AtEpoch(first) <= start < AtEpoch(first) + bucketS * MICROS
      && AtEpoch(first + (n - 1) * bucketS) < end <= AtEpoch(first + (n - 1) * bucketS) + bucketS * MICROS
  {
    BinCountNat(start, end, bucketS);
    BucketVersusGroup(start, bucketS);
    BucketVersusGroup(end - 1, bucketS);
    GroupContains(start, bucketS);
    GroupContains(end - 1, bucketS);
    GroupMonotone(start, end - 1, bucketS);
    BeforeLast(0, BinCount(start, end, bucketS), bucketS);
  }

  /** Aligned epoch i of n whose outer ones hold start and end: where it lies in the window. */
  lemma InteriorEpoch(first: int, n: nat, bucketS: nat, i: nat, start: int, end: int)
    requires bucketS > 0 && i < n && first % bucketS == 0
    requires AtEpoch(first) <= start < AtEpoch(first) + bucketS * MICROS
    requires AtEpoch(first + (n - 1) * bucketS) < end <= AtEpoch(first + (n - 1) * bucketS) + bucketS * MICROS
    ensures var epoch := first + i * bucketS;
      && epoch % bucketS == 0
      && start < AtEpoch(epoch) + bucketS * MICROS && AtEpoch(epoch) < end
      && (if i == 0 then AtEpoch(epoch) <= start else start < AtEpoch(epoch))
      && (if i == n - 1 then end <= AtEpoch(epoch) + bucketS * MICROS else AtEpoch(epoch) + bucketS * MICROS < end)
  {
    MulLe(i, n - 1, bucketS);
    assert first == first / bucketS * bucketS;
    assert first + i * bucketS == (first / bucketS + i) * bucketS;
    Multiples(first / bucketS + i, bucketS);
    if i > 0 {
      MulLe(1, i, bucketS);
    }
    if i < n - 1 {
      MulLe(i + 1, n - 1, bucketS);
      MulSucc(i, bucketS);
    }
  }

  /** Bin i of a window that truncation leaves alone. */
  lemma BinShape(start: int, end: int, bucketS: nat, i: nat)
    requires bucketS > 0 && start < end && !Skips(start, bucketS) && !Skips(end - 1, bucketS)
    requires i < BinCount(start, end, bucketS)
    ensures var n := BinCount(start, end, bucketS);
      var epoch := BucketEpoch(start, bucketS) + i * bucketS;
      var left := if i == 0 then start else AtEpoch(epoch);
      var right := if i == n - 1 then end else AtEpoch(epoch) + bucketS * MICROS;
      && epoch % bucketS == 0
      && DenseBounds(start, end, bucketS)[i] == Bin(left, right, epoch)
      && left < right
  {
    EdgeEpochs(start, end, bucketS);
    InteriorEpoch(BucketEpoch(start, bucketS), BinCount(start, end, bucketS), bucketS, i, start, end);
  }

  lemma NextBin(start: int, end: int, bucketS: nat, i: nat)
    requires bucketS > 0 && start < end && !Skips(start, bucketS) && !Skips(end - 1, bucketS)
    requires 0 < i < BinCount(start, end, bucketS)
    ensures var bins := DenseBounds(start, end, bucketS);
      && bins[i].epoch == bins[i - 1].epoch + bucketS
      && bins[i - 1].right == bins[i].left == AtEpoch(bins[i].epoch)
  {
    BinShape(start, end, bucketS, i);
    BinShape(start, end, bucketS, i - 1);
    MulSucc(i, bucketS);
  }

  lemma BinsPartition(start: int, end: int, bucketS: nat)
    requires bucketS > 0 && start < end && !Skips(start, bucketS) && !Skips(end - 1, bucketS)
    ensures Partition(DenseBounds(start, end, bucketS), start, end)
    ensures Aligned(DenseBounds(start, end, bucketS), start, end, bucketS)
  {
    var bins := DenseBounds(start, end, bucketS);
    EdgeEpochs(start, end, bucketS);
    BinShape(start, end, bucketS, 0);
    BinShape(start, end, bucketS, |bins| - 1);
    forall i | 0 <= i < |bins| ensures bins[i].left < bins[i].right && bins[i].epoch % bucketS == 0 {
      BinShape(start, end, bucketS, i);
    }
    forall i | 0 < i < |bins|
      ensures bins[i].epoch == bins[i - 1].epoch + bucketS
      ensures bins[i - 1].right == bins[i].left == AtEpoch(bins[i].epoch)
    {
      NextBin(start, end, bucketS, i);
    }
  }

  // --------------------------------------------- bins of an arbitrary window

  lemma AlignedSum(epoch: int, bucketS: nat, i: int)
    requires bucketS > 0 && epoch % bucketS == 0
    ensures (epoch + i * bucketS) % bucketS == 0
  {
    var q := epoch / bucketS;
    assert epoch == q * bucketS;
    assert (q + i) * bucketS == q * bucketS + i * bucketS;
    Multiples(q + i, bucketS);
  }

  lemma BinOf(start: int, end: int, bucketS: nat, i: nat)
    requires bucketS > 0 && i < |DenseBounds(start, end, bucketS)|
    ensures start < end
    ensures DenseBounds(start, end, bucketS)[i]
         == BinAt(start, end, bucketS, BucketEpoch(start, bucketS) + i * bucketS)
  {
  }

  lemma EpochOfBin(start: int, end: int, bucketS: nat, i: nat)
    requires bucketS > 0 && i < |DenseBounds(start, end, bucketS)|
    ensures start < end
    ensures var bin := DenseBounds(start, end, bucketS)[i];
      && bin.epoch == BucketEpoch(start, bucketS) + i * bucketS
      && bin.epoch % bucketS == 0
      && bin == BinAt(start, end, bucketS, bin.epoch)
  {
    BinOf(start, end, bucketS, i);
    Multiples(EpochSeconds(start) / bucketS, bucketS);
    AlignedSum(BucketEpoch(start, bucketS), bucketS, i);
  }

  /** An instant of the window falls in the bin whose epoch the grouping query gives it, and in no other. */
  lemma BinHolds(start: int, end: int, bucketS: nat, i: nat, at: int)
    requires bucketS > 0 && i < |DenseBounds(start, end, bucketS)|
    ensures var bin := DenseBounds(start, end, bucketS)[i];
      start <= at < end && GroupEpoch(at, bucketS) == bin.epoch <==> bin.left <= at < bin.right
  {
    var bin := DenseBounds(start, end, bucketS)[i];
    EpochOfBin(start, end, bucketS, i);
    HoldsAligned(start, end, bucketS, bin.epoch, at);
  }

  lemma HoldsAligned(start: int, end: int, bucketS: nat, epoch: int, at: int)
    requires bucketS > 0 && epoch % bucketS == 0
    ensures var bin := BinAt(start, end, bucketS, epoch);
      start <= at < end && GroupEpoch(at, bucketS) == epoch <==> bin.left <= at < bin.right
  {
    var bin := BinAt(start, end, bucketS, epoch);
    GroupContains(at, bucketS);
    if bin.left <= at < bin.right {
      GroupUnique(at, epoch, bucketS);
    }
  }

  /** Where the bins before bin i end. */
  function Reach(start: int, end: int, bucketS: nat, i: nat): int
    requires bucketS > 0 && i <= |DenseBounds(start, end, bucketS)|
  {
    if i == 0 then start else DenseBounds(start, end, bucketS)[i - 1].right
  }

  /** If truncation leaves the left edge alone, each bin continues the previous ones or is empty beyond the end. */
  lemma BinContinues(start: int, end: int, bucketS: nat, i: nat)
    requires bucketS > 0 && !Skips(start, bucketS) && i < |DenseBounds(start, end, bucketS)|
    ensures var bin := DenseBounds(start, end, bucketS)[i];
      var reach := Reach(start, end, bucketS, i);
      && start <= reach <= bin.right <= end
      && (bin.left == reach || (bin.left >= bin.right && reach == bin.right))
  {
    EpochOfBin(start, end, bucketS, i);
    BucketVersusGroup(start, bucketS);
    GroupContains(start, bucketS);
    if i > 0 {
      EpochOfBin(start, end, bucketS, i - 1);
      MulSucc(i, bucketS);
      MulLe(1, i, bucketS);
    }
  }

  lemma LastBinReachesEnd(start: int, end: int, bucketS: nat)
    requires bucketS > 0 && start < end && !Skips(start, bucketS)
    ensures |DenseBounds(start, end, bucketS)| > 0
    ensures Reach(start, end, bucketS, |DenseBounds(start, end, bucketS)|) == end
  {
    var n := BinCount(start, end, bucketS);
    BinCountNat(start, end, bucketS);
    BucketVersusGroup(start, bucketS);
    BucketVersusGroup(end - 1, bucketS);
    GroupContains(end - 1, bucketS);
    GroupMonotone(start, end - 1, bucketS);
    BeforeLast(0, n, bucketS);
    EpochOfBin(start, end, bucketS, n - 1);
  }

  /** If truncation skips the left edge, every bin starts after it. */
  lemma SkippedBinsStartLate(start: int, end: int, bucketS: nat, i: nat)
    requires bucketS > 0 && Skips(start, bucketS) && i < |DenseBounds(start, end, bucketS)|
    ensures DenseBounds(start, end, bucketS)[i].left > start
  {
    EpochOfBin(start, end, bucketS, i);
    BucketVersusGroup(start, bucketS);
    GroupContains(start, bucketS);
    MulLe(0, i, bucketS);
  }

  // ------------------------------------------------------------ bucket width

  const CANDIDATES: seq<nat> := [60, 300, 900, 1800, 3600, 21600, 43200, 86400]

  /** The span the width is chosen for: whole seconds, at least one. */
  function SpanSeconds(delta: int): nat {
    Max(1, EpochSeconds(delta))
  }

  /** The largest candidate that still gives a hundred bins, or the smallest candidate. */
  ghost predicate IsBucketWidth(span: nat, chosen: nat) {
    && chosen in CANDIDATES
    && (chosen == 60 || span >= 100 * chosen)
    && forall c :: c in CANDIDATES && span >= 100 * c ==> c <= chosen
  }

  method BucketSeconds(delta: int) returns (chosen: nat)
    ensures IsBucketWidth(SpanSeconds(delta), chosen)
  {
    var span := SpanSeconds(delta);
    chosen := CANDIDATES[0];
    for i := 0 to |CANDIDATES|
      invariant chosen == CANDIDATES[if i == 0 then 0 else i - 1]
      invariant forall k :: 0 <= k < i ==> span >= 100 * CANDIDATES[k]
    {
      if span < 100 * CANDIDATES[i] {
        break;
      }
      chosen := CANDIDATES[i];
    }
  }

  lemma GroupBinCount(start: int, end: int, bucketS: nat)
    requires bucketS > 0 && start < end
    ensures var n := BinCount(start, end, bucketS)
              + (if Skips(start, bucketS) then 1 else 0) - (if Skips(end - 1, bucketS) then 1 else 0);
      (n - 2) * (bucketS * MICROS) < end - start <= n * (bucketS * MICROS)
  {
    BinCountNat(start, end, bucketS);
    BucketVersusGroup(start, bucketS);
    BucketVersusGroup(end - 1, bucketS);
    GroupContains(start, bucketS);
    GroupContains(end - 1, bucketS);
    var n := BinCount(start, end, bucketS)
      + (if Skips(start, bucketS) then 1 else 0) - (if Skips(end - 1, bucketS) then 1 else 0);
    MulSucc(BinCount(start, end, bucketS) - 1, bucketS);
    MulSucc(BinCount(start, end, bucketS), bucketS);
    MulSucc(BinCount(start, end, bucketS) - 2, bucketS);
    assert GroupEpoch(end - 1, bucketS) - GroupEpoch(start, bucketS) == (n - 1) * bucketS;
    MulSucc(n - 1, bucketS);
    Scale(n, bucketS);
    Scale(n - 2, bucketS);
  }

  lemma Cancel(a: int, b: int, d: int)
    requires d > 0 && a * d < b * d
    ensures a < b
  {
    if a >= b {
      MulLe(b, a, d);
    }
  }

  /** A chart gets at least 100 bins from 100 minutes on, and at most 601 below 100 days; skips shift this by one. */
  lemma BinCountBounds(end: int, delta: int, bucketS: nat)
    requires delta > 0 && IsBucketWidth(SpanSeconds(delta), bucketS)
    ensures var n := BinCount(end - delta, end, bucketS)
              + (if Skips(end - delta, bucketS) then 1 else 0) - (if Skips(end - 1, bucketS) then 1 else 0);
      && (SpanSeconds(delta) >= 6000 ==> n >= 100)
      && (SpanSeconds(delta) < 100 * 86400 ==> n <= 601)
  {
    var span, width := SpanSeconds(delta), bucketS * MICROS;
    var n := BinCount(end - delta, end, bucketS)
      + (if Skips(end - delta, bucketS) then 1 else 0) - (if Skips(end - 1, bucketS) then 1 else 0);
    GroupBinCount(end - delta, end, bucketS);
    hide BinCount, Skips;
    WidthOfSpan(delta, bucketS);
    if span >= 6000 {
      Cancel(99, n, width);
    }
    if span < 100 * 86400 {
      Cancel(n - 2, 600, width);
    }
  }

  lemma WidthOfSpan(delta: int, bucketS: nat)
    requires delta > 0 && IsBucketWidth(SpanSeconds(delta), bucketS)
    ensures SpanSeconds(delta) >= 6000 ==> delta >= 100 * (bucketS * MICROS)
    ensures SpanSeconds(delta) < 100 * 86400 ==> delta <= 600 * (bucketS * MICROS)
  {
    var span := SpanSeconds(delta);
    assert delta < (span + 1) * MICROS;
    if span >= 6000 {
      assert 60 in CANDIDATES && span >= 100 * bucketS;
    }
    if span < 100 * 86400 {
      NextWidth(span, bucketS);
    }
  }

  lemma NextWidth(span: nat, bucketS: nat)
    requires IsBucketWidth(span, bucketS) && span < 100 * 86400
    ensures span < 600 * bucketS
  {
    var i :| 0 <= i < |CANDIDATES| && CANDIDATES[i] == bucketS;
    assert i < 7 ==> CANDIDATES[i + 1] in CANDIDATES;
    assert CANDIDATES[0] == 60 && CANDIDATES[1] == 300 && CANDIDATES[2] == 900 && CANDIDATES[3] == 1800;
    assert CANDIDATES[4] == 3600 && CANDIDATES[5] == 21600 && CANDIDATES[6] == 43200 && CANDIDATES[7] == 86400;
  }
}
