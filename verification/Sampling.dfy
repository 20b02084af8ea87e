/** Thinning a long list of points: evenly spaced sampling, sampling by render priority, and
    sampling that spares the primary window. Steps are exact rationals. */
module Sampling {
  import opened Wrappers

  /** Rounds to the nearest integer, halves to the even one. */
  function Round(x: real): int {
    var down := x.Floor;
    var rest := x - down as real;
    if rest < 0.5 then down
    else if rest > 0.5 then down + 1
    else if down % 2 == 0 then down else down + 1
  }

  function Apart(x: real, k: int): real { if x < k as real then k as real - x else x - k as real }

  /** Main result: no integer is nearer than the rounded one, and of two as near it is the even one. */
  lemma RoundIsNearest(x: real, k: int)
    ensures Apart(x, Round(x)) <= Apart(x, k)
    ensures k != Round(x) && Apart(x, k) == Apart(x, Round(x)) ==> Round(x) % 2 == 0
  {
    if k > x.Floor {
      assert k >= x.Floor + 1;
    } else {
      assert x - k as real >= x - x.Floor as real;
    }
  }

  function StepOf(n: int, limit: int): real {
    (n - 1) as real / Max(1, limit - 1) as real
  }

  /** The position of the i-th sampled point. */
  function SampleIndex(n: int, limit: int, i: int): int {
    Round(Scaled(i, StepOf(n, limit)))
  }

  lemma RoundNear(x: real)
    ensures x - 0.5 <= Round(x) as real <= x + 0.5
  {
  }

  lemma RoundWhole(k: int)
    ensures Round(k as real) == k
  {
  }

  lemma StepTimesLast(n: int, limit: int)
    requires limit >= 2
    ensures (limit - 1) as real * StepOf(n, limit) == (n - 1) as real
  {
  }

  lemma QuotientAboveOne(a: real, d: real)
    requires a > d > 0.0
    ensures a / d > 1.0
  {
  }

  lemma StepAboveOne(n: int, limit: int)
    requires 2 <= limit < n
    ensures StepOf(n, limit) > 1.0
  {
    QuotientAboveOne((n - 1) as real, (limit - 1) as real);
  }

  lemma Scale(i: int, j: int, step: real)
    requires i < j && step > 1.0
    ensures j as real * step > i as real * step + 1.0
  {
    assert j as real * step - i as real * step == (j - i) as real * step;
    assert (j - i) as real * step >= 1.0 * step;
  }

  lemma RoundApart(x: real, y: real)
    requires y > x + 1.0
    ensures Round(x) < Round(y)
  {
    RoundNear(x);
    RoundNear(y);
  }

  function Scaled(i: int, step: real): real { i as real * step }

  lemma ScaledRound(i: int, j: int, step: real)
    requires i < j && step > 1.0
    ensures Round(Scaled(i, step)) < Round(Scaled(j, step))
  {
    Scale(i, j, step);
    RoundApart(Scaled(i, step), Scaled(j, step));
  }

  /** The sampled positions are strictly increasing. */
  lemma SampleIndexIncreasing(n: int, limit: int, i: int, j: int)
    requires 1 <= limit < n && 0 <= i < j < limit
    ensures SampleIndex(n, limit, i) < SampleIndex(n, limit, j)
  {
    StepAboveOne(n, limit);
    ScaledRound(i, j, StepOf(n, limit));
  }

  /** The first point is always sampled, and the last one whenever two or more are. */
  lemma SampleEnds(n: int, limit: int)
    requires 1 <= limit < n
    ensures SampleIndex(n, limit, 0) == 0
    ensures limit >= 2 ==> SampleIndex(n, limit, limit - 1) == n - 1
  {
    assert Scaled(0, StepOf(n, limit)) == 0.0;
    RoundWhole(0);
    if limit >= 2 {
      StepTimesLast(n, limit);
      RoundWhole(n - 1);
    }
  }

  lemma SampleIndexInRange(n: int, limit: int, i: int)
    requires 1 <= limit < n && 0 <= i < limit
    ensures 0 <= SampleIndex(n, limit, i) < n
  {
    SampleEnds(n, limit);
    if 0 < i {
      SampleIndexIncreasing(n, limit, 0, i);
    }
    if i < limit - 1 {
      SampleIndexIncreasing(n, limit, i, limit - 1);
    }
  }

  function Spaced<T>(points: seq<T>, limit: int): seq<T>
    requires limit >= 1
  {
    if |points| <= limit then points
    else
      seq(limit, i requires 0 <= i < limit =>
        SampleIndexInRange(|points|, limit, i); points[SampleIndex(|points|, limit, i)])
  }

  function SamplePoints<T>(points: seq<T>, maxPoints: int): seq<T> {
    Spaced(points, Max(1, maxPoints))
  }

  /** `at` lists the positions, in increasing order, that make up the sample. */
  ghost predicate PickedAt<T>(points: seq<T>, sample: seq<T>, at: seq<int>) {
    && |at| == |sample|
    && (forall i :: 0 <= i < |at| ==> 0 <= at[i] < |points| && sample[i] == points[at[i]])
    && (forall i, j :: 0 <= i < j < |at| ==> at[i] < at[j])
  }

  lemma PartGrows<T>(part: seq<T>, before: seq<T>, x: T, after: seq<T>)
    requires multiset(part) <= multiset(before)
    ensures multiset(part + [x]) <= multiset(before + [x] + after)
  {
  }

  lemma {:induction false} PickedIsPart<T>(points: seq<T>, sample: seq<T>, at: seq<int>)
    requires PickedAt(points, sample, at)
    ensures multiset(sample) <= multiset(points)
  {
    if sample != [] {
      var last := at[|at| - 1];
      var before, shorter := points[..last], sample[..|sample| - 1];
      PickedIsPart(before, shorter, at[..|at| - 1]);
      PartGrows(shorter, before, points[last], points[last + 1..]);
      assert sample == shorter + [points[last]];
      assert points == before + [points[last]] + points[last + 1..];
    }
  }

  lemma SampleAt<T>(points: seq<T>, limit: int, i: int)
    requires 1 <= limit < |points| && 0 <= i < limit
    ensures |Spaced(points, limit)| == limit
    ensures 0 <= SampleIndex(|points|, limit, i) < |points|
    ensures Spaced(points, limit)[i] == points[SampleIndex(|points|, limit, i)]
  {
    SampleIndexInRange(|points|, limit, i);
  }

  lemma {:induction false} SamplePicks<T>(points: seq<T>, limit: int) returns (at: seq<int>)
    requires limit >= 1
    ensures PickedAt(points, Spaced(points, limit), at)
  {
    var n := |points|;
    if n <= limit {
      at := seq(n, i => i);
    } else {
      at := seq(limit, i => SampleIndex(n, limit, i));
      forall i | 0 <= i < limit
        ensures |Spaced(points, limit)| == limit && 0 <= at[i] < n && Spaced(points, limit)[i] == points[at[i]]
      {
        SampleAt(points, limit, i);
      }
      forall i, j | 0 <= i < j < limit ensures at[i] < at[j] { SampleIndexIncreasing(n, limit, i, j); }
    }
  }

  lemma SampleKeepsEnds<T>(points: seq<T>, limit: int)
    requires 1 <= limit < |points|
    ensures var sample := Spaced(points, limit);
            && |sample| == limit && sample[0] == points[0]
            && (limit >= 2 ==> sample[limit - 1] == points[|points| - 1])
  {
    SampleAt(points, limit, 0);
    SampleAt(points, limit, limit - 1);
    SampleEnds(|points|, limit);
  }

  lemma ScaledStep(n: int, limit: int, i: int)
    requires limit >= 2
    ensures Scaled(i, StepOf(n, limit)) * (limit - 1) as real == i as real * (n - 1) as real
  {
    var step := StepOf(n, limit);
    StepTimesLast(n, limit);
    assert i as real * step * (limit - 1) as real == i as real * ((limit - 1) as real * step);
  }

  /** How far position `k` is off the i-th of `limit` evenly spaced ones among `n`, in parts of limit - 1. */
  function OffBy(n: int, limit: int, i: int, k: int): int {
    if k * (limit - 1) >= i * (n - 1) then k * (limit - 1) - i * (n - 1) else i * (n - 1) - k * (limit - 1)
  }

  lemma OffByHalf(x: real, k: int, d: int, e: int)
    requires d >= 1 && x * d as real == e as real && x - 0.5 <= k as real <= x + 0.5
    ensures -d <= 2 * (k * d - e) <= d
    ensures 2 * (k * d - e) == d ==> k as real - x == 0.5
    ensures 2 * (k * d - e) == -d ==> x - k as real == 0.5
  {
    var z := k * d - e;
    OffByReal(x, k, d, e);
    HalfTimes(k as real - x, d as real, z as real);
    assert (2 * z) as real == 2.0 * z as real;
  }

  lemma OffByReal(x: real, k: int, d: int, e: int)
    requires d >= 0 && x * d as real == e as real
    ensures (k as real - x) * d as real == (k * d - e) as real
  {
    RealProduct(k, d);
    Distributes(k as real, x, d as real);
  }

  lemma Distributes(a: real, b: real, c: real)
    ensures (a - b) * c == a * c - b * c
  {
  }

  lemma {:induction false} RealProduct(k: int, d: nat)
    ensures (k * d) as real == k as real * d as real
  {
    if d > 0 {
      RealProduct(k, d - 1);
      assert k * d == k * (d - 1) + k;
      assert k as real * d as real == k as real * (d - 1) as real + k as real;
    }
  }

  lemma HalfTimes(y: real, r: real, z: real)
    requires -0.5 <= y <= 0.5 && r > 0.0 && y * r == z
    ensures -r <= 2.0 * z <= r
    ensures 2.0 * z == r ==> y == 0.5
    ensures 2.0 * z == -r ==> y == -0.5
  {
    Positive(0.5 - y, r);
    Positive(y + 0.5, r);
    Distributes(0.5, y, r);
    Distributes(y, -0.5, r);
    assert y - -0.5 == y + 0.5;
  }

  lemma Positive(a: real, b: real)
    requires a >= 0.0 && b > 0.0
    ensures a * b >= 0.0 && (a * b == 0.0 ==> a == 0.0)
  {
    if a > 0.0 {
      assert a * b > 0.0;
    }
  }

  lemma TieIsEven(x: real)
    ensures Round(x) as real - x == 0.5 || x - Round(x) as real == 0.5 ==> Round(x) % 2 == 0
  {
  }

  /** Main result: the i-th sampled point is the one nearest to the i-th of the evenly spaced positions, the one at
      the even position if two are as near. */
  lemma SampledNearest<T>(points: seq<T>, limit: int, i: int)
    requires 2 <= limit < |points| && 0 <= i < limit
    ensures |SamplePoints(points, limit)| == limit
    ensures exists k: nat :: k < |points| && SamplePoints(points, limit)[i] == points[k]
                             && 2 * OffBy(|points|, limit, i, k) <= limit - 1
                             && (2 * OffBy(|points|, limit, i, k) == limit - 1 ==> k % 2 == 0)
  {
    var n := |points|;
    var k, x := SampleIndex(n, limit, i), Scaled(i, StepOf(n, limit));
    SampleAt(points, limit, i);
    ScaledStep(n, limit, i);
    RoundNear(x);
    OffByHalf(x, k, limit - 1, i * (n - 1));
    TieIsEven(x);
  }

  /** Even sampling keeps exactly min(length, limit) points, in order, none twice, with both ends. */
  lemma SamplePointsExact<T>(points: seq<T>, maxPoints: int)
    ensures |SamplePoints(points, maxPoints)| == Min(|points|, Max(1, maxPoints))
    ensures multiset(SamplePoints(points, maxPoints)) <= multiset(points)
    ensures exists at :: PickedAt(points, SamplePoints(points, maxPoints), at)
    ensures points != [] ==> SamplePoints(points, maxPoints)[0] == points[0]
    ensures |points| >= 2 && maxPoints >= 2 ==>
              SamplePoints(points, maxPoints)[Min(|points|, maxPoints) - 1] == points[|points| - 1]
  {
    var limit := Max(1, maxPoints);
    var at := SamplePicks(points, limit);
    PickedIsPart(points, Spaced(points, limit), at);
    if |points| > limit {
      SampleKeepsEnds(points, limit);
    }
  }
}
