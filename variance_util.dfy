/** The variance engine: squared distances between the tracks of one
    playlist, accumulated over adjacent pairs at a fixed step (sequential
    variance) and over all unordered pairs (pairwise variance), with
    missing features skipped and an optional artist-overlap gate. */
module VarianceUtil {
  import opened Common
  import opened AudioFeatures

  /** One playlist position as the engine sees it: the track's feature
      value (None when the track has no features) and its artist set.
      The Python code passes None instead of a set when the gate is off;
      the set is never inspected then, so the model uses the empty set. */
  datatype Slot<T> = Slot(feature: Option<T>, artists: set<string>)

  /** `get_coherence`: NaN when the all-pairs variance is below the
      threshold, otherwise one minus the ratio of the two variances.
      Comparing a NaN variance is false, so NaN flows through the division;
      dividing by a zero variance raises. */
  function GetCoherence(sq: Float, pl: Float, threshold: real): (r: Result<Float>)
    ensures FloatLt(pl, Num(threshold)) ==> r == Success(NaN)
    ensures pl.Num? && pl.val >= threshold && pl.val != 0.0 && sq.Num? ==>
              r == Success(Num(1.0 - sq.val / pl.val))
    ensures r.Failure? <==> pl == Num(0.0) && threshold <= 0.0
    ensures r.Failure? ==> r.error == ZeroDivisionError
    ensures (pl.NaN? || sq.NaN?) && r.Success? ==> r.value.NaN?
    ensures pl.Num? && sq.Num? && pl.val > 0.0 && sq.val >= 0.0 && r.Success? && r.value.Num? ==>
              r.value.val <= 1.0
  {
    if FloatLt(pl, Num(threshold)) then Success(NaN)
    else
      match pl
      case NaN => Success(NaN)
      case Num(p) =>
        if p == 0.0 then Failure(ZeroDivisionError)
        else
          match sq
          case NaN => Success(NaN)
          case Num(s) => Success(Num(1.0 - s / p))
  }

  /** `jaccard_similarity`: shared artists over all artists; dividing by
      zero when both sets are empty. */
  function JaccardSimilarity(a: set<string>, b: set<string>): (r: Result<real>)
    ensures r.Failure? <==> a == {} && b == {}
    ensures r.Failure? ==> r.error == ZeroDivisionError
    ensures r.Success? ==> 0.0 <= r.value <= 1.0
    ensures r.Success? ==> (r.value == 1.0 <==> a == b)
    ensures r.Success? ==> (r.value == 0.0 <==> a * b == {})
  {
    var union := a + b;
    if |union| == 0 then Failure(ZeroDivisionError)
    else
      IntersectionWithinUnion(a, b);
      Ratio(|a * b|, |union|);
      Success(|a * b| as real / |union| as real)
  }

  /** A count over a larger positive count lies in [0, 1], is 1 exactly
      when they are equal and 0 exactly when the first is. */
  lemma Ratio(n: nat, d: nat)
    requires 0 < d && n <= d
    ensures 0.0 <= n as real / d as real <= 1.0
    ensures n as real / d as real == 1.0 <==> n == d
    ensures n as real / d as real == 0.0 <==> n == 0
  {
    var q := n as real / d as real;
    assert q * d as real == n as real;
  }

  lemma IntersectionWithinUnion(a: set<string>, b: set<string>)
    ensures |a * b| <= |a + b|
    ensures |a * b| == |a + b| <==> a == b
  {
    SubsetCardinality(a * b, a + b);
    if a == b {
      assert a * b == a + b;
    }
    if |a * b| == |a + b| {
      assert a == b by {
        forall x | x in a ensures x in b { assert x in a + b; }
        forall x | x in b ensures x in a { assert x in a + b; }
      }
    }
  }

  /** A subset is no larger, and a subset of the same size is the set. */
  lemma {:induction false} SubsetCardinality<T>(s: set<T>, t: set<T>)
    requires s <= t
    ensures |s| <= |t|
    ensures |s| == |t| ==> s == t
    decreases |s|
  {
    if s != {} {
      var x :| x in s;
      assert |t - {x}| == |t| - 1;
      SubsetCardinality(s - {x}, t - {x});
      assert s == (s - {x}) + {x};
      assert t == (t - {x}) + {x};
    }
  }

  /** `jaccard_distance`: one minus the similarity. */
  function JaccardDistance(a: set<string>, b: set<string>): (r: Result<real>)
    ensures r.Failure? <==> a == {} && b == {}
    ensures r.Success? ==> 0.0 <= r.value <= 1.0
    ensures r.Success? ==> (r.value == 0.0 <==> a == b)
  {
    var s :- JaccardSimilarity(a, b);
    Success(1.0 - s)
  }

  /** Jaccard distance is symmetric. */
  lemma JaccardDistanceSymmetric(a: set<string>, b: set<string>)
    ensures JaccardDistance(a, b) == JaccardDistance(b, a)
  {
    assert a * b == b * a && a + b == b + a;
  }

  /** `pair_distance`: the absolute difference. */
  function PairDistance(a: real, b: real): (r: real)
    ensures r >= 0.0
    ensures r == 0.0 <==> a == b
    ensures r == b - a || r == a - b
  {
    Abs(b - a)
  }

  lemma PairDistanceSymmetric(a: real, b: real)
    ensures PairDistance(a, b) == PairDistance(b, a)
  {
  }

  /** The row/column of a tonality in the 24 x 24 distance table. */
  function TonalityTableIndex(t: Tonality): int {
    12 * t.mode + t.key
  }

  /** `tonality_distance`: a lookup in the tonality table, which is a
      parameter here. */
  function TonalityDistance(table: (int, int) -> real, a: Tonality, b: Tonality): real {
    table(TonalityTableIndex(a), TonalityTableIndex(b))
  }

  /** With mode in {0,1} and key in 0..12, as the feature validator admits,
      the table index lies in 0..24: key 12 reaches index 24, one past a
      24-row table, and (0, 12) shares index 12 with (1, 0). */
  lemma TonalityIndexRange(t: Tonality)
    requires t.mode == 0 || t.mode == 1
    requires 0 <= t.key <= 12
    ensures 0 <= TonalityTableIndex(t) <= 24
    ensures TonalityTableIndex(t) == 24 <==> t == Tonality(1, 12)
    ensures TonalityTableIndex(Tonality(0, 12)) == TonalityTableIndex(Tonality(1, 0))
  {
  }

  // ---------------------------------------------------------------------
  // Which pairs are accumulated

  /** A position takes part in pairs: it has a feature, and when the gate
      is on it has at least one artist. */
  predicate Usable<T>(s: Slot<T>, threshold: real) {
    s.feature.Some? && !(threshold > 0.0 && |s.artists| == 0)
  }

  /** The overlap gate: the artist sets are far enough apart. */
  predicate FarApart(a: set<string>, b: set<string>, threshold: real) {
    match JaccardDistance(a, b)
    case Success(d) => d >= threshold
    case Failure(_) => false
  }

  /** A pair `(a, b)` is accumulated. */
  predicate Counted<T>(a: Slot<T>, b: Slot<T>, threshold: real) {
    Usable(a, threshold) && Usable(b, threshold) &&
    (threshold <= 0.0 || FarApart(a.artists, b.artists, threshold))
  }

  /** The squared distance a counted pair adds, zero for any other pair. */
  function Term<T>(a: Slot<T>, b: Slot<T>, threshold: real, f: (T, T) -> real): real {
    if Counted(a, b, threshold) then
      var d := f(a.feature.value, b.feature.value); d * d
    else 0.0
  }

  /** `sum_ / counter / 2`, or NaN when nothing was counted. */
  function VarianceOf(sum: real, count: nat): (v: Float)
    ensures v.NaN? <==> count == 0
  {
    if count > 0 then Num(sum / count as real / 2.0) else NaN
  }

  // All-pairs: pairs (i, k) with i < k

  /** Counted pairs (i, k) with i < k < j. */
  function RowCount<T>(p: seq<Slot<T>>, i: nat, j: nat, threshold: real): nat
    requires i < |p| && j <= |p|
    decreases j
  {
    if j <= i + 1 then 0
    else RowCount(p, i, j - 1, threshold) + (if Counted(p[i], p[j - 1], threshold) then 1 else 0)
  }

  function RowSum<T>(p: seq<Slot<T>>, i: nat, j: nat, threshold: real, f: (T, T) -> real): real
    requires i < |p| && j <= |p|
    decreases j
  {
    if j <= i + 1 then 0.0
    else RowSum(p, i, j - 1, threshold, f) + Term(p[i], p[j - 1], threshold, f)
  }

  /** Counted pairs whose first index is below `i`. */
  function PairCountUpTo<T>(p: seq<Slot<T>>, i: nat, threshold: real): nat
    requires i <= |p|
  {
    if i == 0 then 0 else PairCountUpTo(p, i - 1, threshold) + RowCount(p, i - 1, |p|, threshold)
  }

  function PairSumUpTo<T>(p: seq<Slot<T>>, i: nat, threshold: real, f: (T, T) -> real): real
    requires i <= |p|
  {
    if i == 0 then 0.0 else PairSumUpTo(p, i - 1, threshold, f) + RowSum(p, i - 1, |p|, threshold, f)
  }

  /** The number of unordered pairs the all-pairs estimator accumulates. */
  function PairCount<T>(p: seq<Slot<T>>, threshold: real): nat {
    PairCountUpTo(p, |p|, threshold)
  }

  /** The sum of squared distances over those pairs. */
  function PairSum<T>(p: seq<Slot<T>>, threshold: real, f: (T, T) -> real): real {
    PairSumUpTo(p, |p|, threshold, f)
  }

  // Sequential: pairs (i, i + d)

  /** The length of `playlist[:-d]`: empty for d == 0 and for d >= n. */
  function SeqBound(n: nat, d: nat): (r: nat)
    ensures r <= n
    ensures r == 0 <==> d == 0 || d >= n
    ensures r > 0 ==> r + d == n
  {
    if d == 0 || d >= n then 0 else n - d
  }

  /** Counted pairs (k, k + d) with k < i. */
  function SeqCountUpTo<T>(p: seq<Slot<T>>, d: nat, i: nat, threshold: real): nat
    requires i <= SeqBound(|p|, d)
  {
    if i == 0 then 0
    else SeqCountUpTo(p, d, i - 1, threshold) + (if Counted(p[i - 1], p[i - 1 + d], threshold) then 1 else 0)
  }

  function SeqSumUpTo<T>(p: seq<Slot<T>>, d: nat, i: nat, threshold: real, f: (T, T) -> real): real
    requires i <= SeqBound(|p|, d)
  {
    if i == 0 then 0.0
    else SeqSumUpTo(p, d, i - 1, threshold, f) + Term(p[i - 1], p[i - 1 + d], threshold, f)
  }

  /** The number of step-d pairs the sequential estimator accumulates. */
  function SeqCount<T>(p: seq<Slot<T>>, d: nat, threshold: real): nat {
    SeqCountUpTo(p, d, SeqBound(|p|, d), threshold)
  }

  function SeqSum<T>(p: seq<Slot<T>>, d: nat, threshold: real, f: (T, T) -> real): real {
    SeqSumUpTo(p, d, SeqBound(|p|, d), threshold, f)
  }

  // ---------------------------------------------------------------------
  // The two estimators

  /** `playlist_variance`: all unordered pairs i < j. A row whose first
      position is unusable is skipped whole; it holds no counted pair. */
  method PlaylistVariance<T>(playlist: seq<Slot<T>>, threshold: real, f: (T, T) -> real)
    returns (v: Float, counter: nat)
    ensures counter == PairCount(playlist, threshold)
    ensures v == VarianceOf(PairSum(playlist, threshold, f), counter)
  {
    var n := |playlist|;
    var sum := 0.0;
    counter := 0;
    var i := 0;
    while i + 1 < n
      invariant i <= n
      invariant n > 0 ==> i <= n - 1
      invariant counter == PairCountUpTo(playlist, i, threshold)
      invariant sum == PairSumUpTo(playlist, i, threshold, f)
    {
      var a := playlist[i];
      if !Usable(a, threshold) {
        RowOfUnusableIsEmpty(playlist, i, n, threshold, f);
        i := i + 1;
        continue;
      }
      var rowSum, rowCount := RowPairs(playlist, i, threshold, f);
      sum := sum + rowSum;
      counter := counter + rowCount;
      i := i + 1;
    }
    if n > 0 {
      assert PairCountUpTo(playlist, n, threshold) == PairCountUpTo(playlist, n - 1, threshold);
      assert PairSumUpTo(playlist, n, threshold, f) == PairSumUpTo(playlist, n - 1, threshold, f);
    }
    v := if counter > 0 then Num(sum / counter as real / 2.0) else NaN;
  }

  /** The inner loop of `playlist_variance`: the pairs (i, j) for j > i,
      from a usable first position. */
  method RowPairs<T>(playlist: seq<Slot<T>>, i: nat, threshold: real, f: (T, T) -> real)
    returns (sum: real, counter: nat)
    requires i < |playlist| && Usable(playlist[i], threshold)
    ensures counter == RowCount(playlist, i, |playlist|, threshold)
    ensures sum == RowSum(playlist, i, |playlist|, threshold, f)
  {
    var n := |playlist|;
    var a := playlist[i];
    sum, counter := 0.0, 0;
    var j := i + 1;
    while j < n
      invariant i + 1 <= j <= n
      invariant counter == RowCount(playlist, i, j, threshold)
      invariant sum == RowSum(playlist, i, j, threshold, f)
    {
      var b := playlist[j];
      if !Usable(b, threshold) {
        j := j + 1;
        continue;
      }
      var pass := threshold <= 0.0;
      if !pass {
        var dist := JaccardDistance(a.artists, b.artists);
        pass := dist.value >= threshold;
      }
      if pass {
        var d := f(a.feature.value, b.feature.value);
        sum := sum + d * d;
        counter := counter + 1;
      }
      j := j + 1;
    }
  }

  lemma {:induction false} RowOfUnusableIsEmpty<T>(p: seq<Slot<T>>, i: nat, j: nat, threshold: real, f: (T, T) -> real)
    requires i < |p| && j <= |p|
    requires !Usable(p[i], threshold)
    ensures RowCount(p, i, j, threshold) == 0
    ensures RowSum(p, i, j, threshold, f) == 0.0
    decreases j
  {
    if j > i + 1 {
      RowOfUnusableIsEmpty(p, i, j - 1, threshold, f);
    }
  }

  /** `sequential_variance`: the pairs (i, i + d) for i over `playlist[:-d]`. */
  method SequentialVariance<T>(playlist: seq<Slot<T>>, d: nat, threshold: real, f: (T, T) -> real)
    returns (v: Float, counter: nat)
    ensures counter == SeqCount(playlist, d, threshold)
    ensures v == VarianceOf(SeqSum(playlist, d, threshold, f), counter)
  {
    var bound := SeqBound(|playlist|, d);
    var sum := 0.0;
    counter := 0;
    var i := 0;
    while i < bound
      invariant i <= bound
      invariant counter == SeqCountUpTo(playlist, d, i, threshold)
      invariant sum == SeqSumUpTo(playlist, d, i, threshold, f)
    {
      var a := playlist[i];
      if !Usable(a, threshold) {
        i := i + 1;
        continue;
      }
      var b := playlist[i + d];
      if !Usable(b, threshold) {
        i := i + 1;
        continue;
      }
      var pass := threshold <= 0.0;
      if !pass {
        var dist := JaccardDistance(a.artists, b.artists);
        pass := dist.value >= threshold;
      }
      if pass {
        var x := f(a.feature.value, b.feature.value);
        sum := sum + x * x;
        counter := counter + 1;
      }
      i := i + 1;
    }
    v := if counter > 0 then Num(sum / counter as real / 2.0) else NaN;
  }

  /** The record `calc_variances` returns, in its field order. */
  datatype Variances = Variances(pid: int, sequential: Float, pairwise: Float,
                                 seqCount: nat, pairCount: nat, length: nat)

  /** `calc_variances`: both estimators over one playlist, and its length. */
  method CalcVariances<T>(pid: int, tracks: seq<Slot<T>>, distance: nat, threshold: real, f: (T, T) -> real)
    returns (r: Variances)
    ensures r.pid == pid && r.length == |tracks|
    ensures r.seqCount == SeqCount(tracks, distance, threshold)
    ensures r.pairCount == PairCount(tracks, threshold)
    ensures r.sequential == VarianceOf(SeqSum(tracks, distance, threshold, f), r.seqCount)
    ensures r.pairwise == VarianceOf(PairSum(tracks, threshold, f), r.pairCount)
    ensures r.seqCount <= SeqBound(|tracks|, distance)
    ensures r.pairCount <= |tracks| * (|tracks| - 1) / 2
    ensures r.sequential.Num? ==> r.sequential.val >= 0.0
    ensures r.pairwise.Num? ==> r.pairwise.val >= 0.0
  {
    var s, sc := SequentialVariance(tracks, distance, threshold, f);
    var p, pc := PlaylistVariance(tracks, threshold, f);
    r := Variances(pid, s, p, sc, pc, |tracks|);
    SeqCountBounded(tracks, distance, SeqBound(|tracks|, distance), threshold);
    PairCountBounded(tracks, threshold);
    SeqSumNonNegative(tracks, distance, SeqBound(|tracks|, distance), threshold, f);
    PairSumNonNegative(tracks, |tracks|, threshold, f);
  }

  // ---------------------------------------------------------------------
  // Properties of the estimators

  lemma {:induction false} SeqCountBounded<T>(p: seq<Slot<T>>, d: nat, i: nat, threshold: real)
    requires i <= SeqBound(|p|, d)
    ensures SeqCountUpTo(p, d, i, threshold) <= i
  {
    if i > 0 { SeqCountBounded(p, d, i - 1, threshold); }
  }

  lemma {:induction false} SeqSumNonNegative<T>(p: seq<Slot<T>>, d: nat, i: nat, threshold: real, f: (T, T) -> real)
    requires i <= SeqBound(|p|, d)
    ensures SeqSumUpTo(p, d, i, threshold, f) >= 0.0
  {
    if i > 0 { SeqSumNonNegative(p, d, i - 1, threshold, f); }
  }

  lemma {:induction false} RowBounds<T>(p: seq<Slot<T>>, i: nat, j: nat, threshold: real, f: (T, T) -> real)
    requires i < |p| && j <= |p|
    ensures RowCount(p, i, j, threshold) <= (if j <= i + 1 then 0 else j - i - 1)
    ensures RowSum(p, i, j, threshold, f) >= 0.0
    decreases j
  {
    if j > i + 1 { RowBounds(p, i, j - 1, threshold, f); }
  }

  lemma {:induction false} PairSumNonNegative<T>(p: seq<Slot<T>>, i: nat, threshold: real, f: (T, T) -> real)
    requires i <= |p|
    ensures PairSumUpTo(p, i, threshold, f) >= 0.0
  {
    if i > 0 {
      PairSumNonNegative(p, i - 1, threshold, f);
      RowBounds(p, i - 1, |p|, threshold, f);
    }
  }

  /** The pairs (k, j), k < i, k < j < n, whatever is counted. */
  function PairsBelow(n: nat, i: nat): nat
    requires i <= n
  {
    if i == 0 then 0 else PairsBelow(n, i - 1) + (n - i)
  }

  lemma {:induction false} PairsBelowClosed(n: nat, i: nat)
    requires i <= n
    ensures PairsBelow(n, i) * 2 == i * (2 * n - i - 1)
  {
    if i > 0 {
      PairsBelowClosed(n, i - 1);
      assert (i - 1) * (2 * n - i) + 2 * (n - i) == i * (2 * n - i - 1);
    }
  }

  lemma {:induction false} PairCountUpToBounded<T>(p: seq<Slot<T>>, i: nat, threshold: real)
    requires i <= |p|
    ensures PairCountUpTo(p, i, threshold) <= PairsBelow(|p|, i)
  {
    if i > 0 {
      PairCountUpToBounded(p, i - 1, threshold);
      RowBounds(p, i - 1, |p|, threshold, (x: T, y: T) => 0.0);
    }
  }

  /** The all-pairs count never exceeds n(n-1)/2. */
  lemma PairCountBounded<T>(p: seq<Slot<T>>, threshold: real)
    ensures PairCount(p, threshold) <= |p| * (|p| - 1) / 2
  {
    PairCountUpToBounded(p, |p|, threshold);
    PairsBelowClosed(|p|, |p|);
  }

  /** Every position usable and the gate off. */
  predicate Complete<T>(p: seq<Slot<T>>, threshold: real) {
    threshold <= 0.0 && forall k :: 0 <= k < |p| ==> p[k].feature.Some?
  }

  lemma {:induction false} RowCountComplete<T>(p: seq<Slot<T>>, i: nat, j: nat, threshold: real)
    requires i < |p| && j <= |p| && Complete(p, threshold)
    ensures RowCount(p, i, j, threshold) == (if j <= i + 1 then 0 else j - i - 1)
    decreases j
  {
    if j > i + 1 {
      RowCountComplete(p, i, j - 1, threshold);
      assert Counted(p[i], p[j - 1], threshold);
    }
  }

  lemma {:induction false} PairCountUpToComplete<T>(p: seq<Slot<T>>, i: nat, threshold: real)
    requires i <= |p| && Complete(p, threshold)
    ensures PairCountUpTo(p, i, threshold) == PairsBelow(|p|, i)
  {
    if i > 0 {
      PairCountUpToComplete(p, i - 1, threshold);
      RowCountComplete(p, i - 1, |p|, threshold);
    }
  }

  /** With no missing feature and the gate off, all n(n-1)/2 pairs count. */
  lemma PairCountComplete<T>(p: seq<Slot<T>>, threshold: real)
    requires Complete(p, threshold)
    ensures PairCount(p, threshold) == |p| * (|p| - 1) / 2
  {
    PairCountUpToComplete(p, |p|, threshold);
    PairsBelowClosed(|p|, |p|);
  }

  lemma {:induction false} SeqCountUpToComplete<T>(p: seq<Slot<T>>, d: nat, i: nat, threshold: real)
    requires i <= SeqBound(|p|, d) && Complete(p, threshold)
    ensures SeqCountUpTo(p, d, i, threshold) == i
  {
    if i > 0 {
      SeqCountUpToComplete(p, d, i - 1, threshold);
      assert Counted(p[i - 1], p[i - 1 + d], threshold);
    }
  }

  /** With no missing feature and the gate off, the sequential estimator
      counts n - d pairs for 0 < d < n, and none for d == 0 or d >= n. */
  lemma SeqCountComplete<T>(p: seq<Slot<T>>, d: nat, threshold: real)
    requires Complete(p, threshold)
    ensures SeqCount(p, d, threshold) == SeqBound(|p|, d)
    ensures 0 < d < |p| ==> SeqCount(p, d, threshold) == |p| - d
  {
    SeqCountUpToComplete(p, d, SeqBound(|p|, d), threshold);
  }

  /** Fewer than d + 1 tracks, or a step of zero: no sequential pair, NaN. */
  lemma SeqShortIsNaN<T>(p: seq<Slot<T>>, d: nat, threshold: real, f: (T, T) -> real)
    requires d == 0 || |p| <= d
    ensures SeqCount(p, d, threshold) == 0
    ensures VarianceOf(SeqSum(p, d, threshold, f), SeqCount(p, d, threshold)) == NaN
  {
  }

  /** Fewer than two tracks: no pair, NaN. */
  lemma PairShortIsNaN<T>(p: seq<Slot<T>>, threshold: real, f: (T, T) -> real)
    requires |p| < 2
    ensures PairCount(p, threshold) == 0
    ensures VarianceOf(PairSum(p, threshold, f), PairCount(p, threshold)) == NaN
  {
    PairCountBounded(p, threshold);
  }

  /** Two playlists with the same artists and the same missing positions:
      both estimators count the same pairs, whatever the feature values. */
  predicate SamePattern<T, U>(p: seq<Slot<T>>, q: seq<Slot<U>>) {
    |p| == |q| &&
    forall k :: 0 <= k < |p| ==> p[k].feature.Some? == q[k].feature.Some? && p[k].artists == q[k].artists
  }

  lemma {:induction false} RowCountPattern<T, U>(p: seq<Slot<T>>, q: seq<Slot<U>>, i: nat, j: nat, threshold: real)
    requires SamePattern(p, q) && i < |p| && j <= |p|
    ensures RowCount(p, i, j, threshold) == RowCount(q, i, j, threshold)
    decreases j
  {
    if j > i + 1 {
      RowCountPattern(p, q, i, j - 1, threshold);
      assert Counted(p[i], p[j - 1], threshold) == Counted(q[i], q[j - 1], threshold);
    }
  }

  lemma {:induction false} PairCountUpToPattern<T, U>(p: seq<Slot<T>>, q: seq<Slot<U>>, i: nat, threshold: real)
    requires SamePattern(p, q) && i <= |p|
    ensures PairCountUpTo(p, i, threshold) == PairCountUpTo(q, i, threshold)
  {
    if i > 0 {
      PairCountUpToPattern(p, q, i - 1, threshold);
      RowCountPattern(p, q, i - 1, |p|, threshold);
    }
  }

  lemma {:induction false} SeqCountUpToPattern<T, U>(p: seq<Slot<T>>, q: seq<Slot<U>>, d: nat, i: nat, threshold: real)
    requires SamePattern(p, q) && i <= SeqBound(|p|, d)
    ensures SeqCountUpTo(p, d, i, threshold) == SeqCountUpTo(q, d, i, threshold)
  {
    if i > 0 {
      SeqCountUpToPattern(p, q, d, i - 1, threshold);
      assert Counted(p[i - 1], p[i - 1 + d], threshold) == Counted(q[i - 1], q[i - 1 + d], threshold);
    }
  }

  lemma CountsFollowPattern<T, U>(p: seq<Slot<T>>, q: seq<Slot<U>>, d: nat, threshold: real)
    requires SamePattern(p, q)
    ensures PairCount(p, threshold) == PairCount(q, threshold)
    ensures SeqCount(p, d, threshold) == SeqCount(q, d, threshold)
  {
    PairCountUpToPattern(p, q, |p|, threshold);
    SeqCountUpToPattern(p, q, d, SeqBound(|p|, d), threshold);
  }

  /** The features [0, 1, 0, 1] with step 1 and the gate off: the
      sequential estimator gives (0.5, 3), the all-pairs one (1/3, 6). */
  function Alternating(): seq<Slot<real>> {
    [Slot(Some(0.0), {}), Slot(Some(1.0), {}), Slot(Some(0.0), {}), Slot(Some(1.0), {})]
  }

  lemma SequentialExample()
    ensures SeqCount(Alternating(), 1, 0.0) == 3
    ensures VarianceOf(SeqSum(Alternating(), 1, 0.0, PairDistance), 3) == Num(0.5)
  {
    var p := Alternating();
    SeqCountComplete(p, 1, 0.0);
    assert Term(p[0], p[1], 0.0, PairDistance) == 1.0;
    assert Term(p[1], p[2], 0.0, PairDistance) == 1.0;
    assert Term(p[2], p[3], 0.0, PairDistance) == 1.0;
    assert SeqSumUpTo(p, 1, 2, 0.0, PairDistance) == 2.0;
    assert SeqSum(p, 1, 0.0, PairDistance) == 3.0;
  }

  lemma PairwiseExampleFirstRow()
    ensures RowSum(Alternating(), 0, 4, 0.0, PairDistance) == 2.0
  {
    var p := Alternating();
    assert Term(p[0], p[1], 0.0, PairDistance) == 1.0;
    assert Term(p[0], p[2], 0.0, PairDistance) == 0.0;
    assert Term(p[0], p[3], 0.0, PairDistance) == 1.0;
    assert RowSum(p, 0, 2, 0.0, PairDistance) == 1.0;
    assert RowSum(p, 0, 3, 0.0, PairDistance) == 1.0;
  }

  lemma PairwiseExampleOtherRows()
    ensures RowSum(Alternating(), 1, 4, 0.0, PairDistance) == 1.0
    ensures RowSum(Alternating(), 2, 4, 0.0, PairDistance) == 1.0
    ensures RowSum(Alternating(), 3, 4, 0.0, PairDistance) == 0.0
  {
    var p := Alternating();
    assert Term(p[1], p[2], 0.0, PairDistance) == 1.0;
    assert Term(p[1], p[3], 0.0, PairDistance) == 0.0;
    assert Term(p[2], p[3], 0.0, PairDistance) == 1.0;
    assert RowSum(p, 1, 3, 0.0, PairDistance) == 1.0;
  }

  lemma PairwiseExample()
    ensures PairCount(Alternating(), 0.0) == 6
    ensures VarianceOf(PairSum(Alternating(), 0.0, PairDistance), 6) == Num(1.0 / 3.0)
  {
    var p := Alternating();
    PairCountComplete(p, 0.0);
    PairwiseExampleFirstRow();
    PairwiseExampleOtherRows();
    assert PairSumUpTo(p, 2, 0.0, PairDistance) == 3.0;
    assert PairSum(p, 0.0, PairDistance) == 4.0;
  }
}
