/** Percentile ranks with ties averaged, over exact rationals. */
module PercentileRanks {
  import Sorting

  /** A floating-point input: a number, or a NaN or infinity, which counts as zero. */
  datatype Number = Finite(value: real) | NonFinite

  function Cleaned(values: seq<Number>): (r: seq<real>)
    ensures |r| == |values|
    ensures forall i :: 0 <= i < |r| ==> r[i] == match values[i] case Finite(x) => x case NonFinite => 0.0
  {
    seq(|values|, i requires 0 <= i < |values| => if values[i].Finite? then values[i].value else 0.0)
  }

  function Ascending(): (real, real) -> bool { (a: real, b: real) => a <= b }

  function One(b: bool): int { if b then 1 else 0 }

  /** How many values lie below `v`. */
  function Below(vs: seq<real>, v: real): int {
    if vs == [] then 0 else Below(vs[..|vs| - 1], v) + One(vs[|vs| - 1] < v)
  }

  /** How many values are at most `v`. */
  function UpTo(vs: seq<real>, v: real): int {
    if vs == [] then 0 else UpTo(vs[..|vs| - 1], v) + One(vs[|vs| - 1] <= v)
  }

  /** The rank of `v` among `vs`, from counts alone. */
  function RankOf(vs: seq<real>, v: real): real
    requires |vs| >= 2
  {
    HalfOver(Below(vs, v) + UpTo(vs, v) - 1, |vs| - 1)
  }

  function HalfOver(a: int, d: int): real
    requires d > 0
  {
    a as real / 2.0 / d as real
  }

  lemma {:induction false} CountBounds(vs: seq<real>, v: real)
    ensures 0 <= Below(vs, v) <= UpTo(vs, v) <= |vs|
    ensures v in vs ==> Below(vs, v) < UpTo(vs, v)
  {
    if vs != [] {
      CountBounds(vs[..|vs| - 1], v);
      assert vs == vs[..|vs| - 1] + [vs[|vs| - 1]];
    }
  }

  lemma {:induction false} CountMonotone(vs: seq<real>, v: real, w: real)
    requires v < w
    ensures UpTo(vs, v) <= Below(vs, w)
  {
    if vs != [] {
      CountMonotone(vs[..|vs| - 1], v, w);
    }
  }

  function Drop(vs: seq<real>, i: int): seq<real>
    requires 0 <= i < |vs|
  {
    vs[..i] + vs[i + 1..]
  }

  lemma {:induction false} CountRemove(vs: seq<real>, i: int, v: real)
    requires 0 <= i < |vs|
    ensures Below(vs, v) == Below(Drop(vs, i), v) + One(vs[i] < v)
    ensures UpTo(vs, v) == UpTo(Drop(vs, i), v) + One(vs[i] <= v)
  {
    var last := |vs| - 1;
    if i == last {
      assert Drop(vs, i) == vs[..last];
    } else {
      CountRemove(vs[..last], i, v);
      var rest := Drop(vs, i);
      assert rest[..|rest| - 1] == Drop(vs[..last], i);
    }
  }

  lemma DropBag(vs: seq<real>, i: int)
    requires 0 <= i < |vs|
    ensures multiset(Drop(vs, i)) == multiset(vs) - multiset{vs[i]}
  {
    assert vs == vs[..i] + [vs[i]] + vs[i + 1..];
  }

  /** Counting does not depend on the order. */
  lemma {:induction false} CountPermutation(a: seq<real>, b: seq<real>, v: real)
    requires multiset(a) == multiset(b)
    ensures Below(a, v) == Below(b, v) && UpTo(a, v) == UpTo(b, v)
    decreases |a|
  {
    if a == [] {
      assert multiset(b) == multiset{};
      assert b == [];
    } else {
      assert a[0] in multiset(b);
      var i :| 0 <= i < |b| && b[i] == a[0];
      CountRemove(a, 0, v);
      CountRemove(b, i, v);
      DropBag(a, 0);
      DropBag(b, i);
      CountPermutation(Drop(a, 0), Drop(b, i), v);
    }
  }

  lemma {:induction false} CountPrefix(s: seq<real>, k: int, v: real)
    requires 0 <= k <= |s|
    ensures (forall i :: 0 <= i < k ==> s[i] < v) && (forall i :: k <= i < |s| ==> s[i] >= v) ==> Below(s, v) == k
    ensures (forall i :: 0 <= i < k ==> s[i] <= v) && (forall i :: k <= i < |s| ==> s[i] > v) ==> UpTo(s, v) == k
  {
    if s != [] {
      var before := s[..|s| - 1];
      if k == |s| {
        CountPrefix(before, k - 1, v);
      } else {
        CountPrefix(before, k, v);
      }
    }
  }

  /** The first and the last position whose item equals `value` in the sorted list. */
  method Positions(sorted: seq<real>, value: real) returns (lower: int, upper: int)
    requires Sorting.SortedBy(sorted, Ascending()) && value in sorted
    ensures lower == Below(sorted, value) && upper == UpTo(sorted, value) - 1
  {
    var n := |sorted|;
    ghost var at :| 0 <= at < n && sorted[at] == value;
    forall i, j | 0 <= i < j < n ensures sorted[i] <= sorted[j] {
      assert Ascending()(sorted[i], sorted[j]);
    }
    lower := 0;
    while !(sorted[lower] >= value)
      invariant 0 <= lower <= at && forall k :: 0 <= k < lower ==> sorted[k] < value
      decreases at - lower
    {
      lower := lower + 1;
    }
    var back := 0;
    while !(sorted[n - 1 - back] <= value)
      invariant 0 <= back <= n - 1 - at && forall k :: n - back <= k < n ==> sorted[k] > value
      decreases n - back
    {
      back := back + 1;
    }
    upper := n - 1 - back;
    CountPrefix(sorted, lower, value);
    CountPrefix(sorted, upper + 1, value);
  }

  method Ranks(input: seq<Number>) returns (ranks: seq<real>)
    ensures |ranks| == |input|
    ensures |input| == 1 ==> ranks == [1.0]
    ensures |input| >= 2 ==> forall i :: 0 <= i < |input| ==> ranks[i] == RankOf(Cleaned(input), Cleaned(input)[i])
  {
    if input == [] {
      return [];
    }
    var values := Cleaned(input);
    if |values| == 1 {
      return [1.0];
    }
    var sorted := Sorting.Sort(values, Ascending());
    Sorting.SortSorted(values, Ascending());
    Sorting.SortMembers(values, Ascending());
    ranks := [];
    for i := 0 to |values|
      invariant |ranks| == i && forall k :: 0 <= k < i ==> ranks[k] == RankOf(values, values[k])
    {
      var rank := RankIn(sorted, values[i], values);
      ranks := ranks + [rank];
    }
  }

  method RankIn(sorted: seq<real>, value: real, ghost values: seq<real>) returns (rank: real)
    requires Sorting.SortedBy(sorted, Ascending()) && multiset(sorted) == multiset(values)
    requires |sorted| == |values| >= 2 && value in values
    ensures rank == RankOf(values, value)
  {
    assert value in multiset(values);
    assert value in multiset(sorted);
    var lower, upper := Positions(sorted, value);
    CountPermutation(sorted, values, value);
    rank := HalfOver(lower + upper, |sorted| - 1);
  }

  lemma DivideOrder(a: int, b: int, d: int)
    requires a < b && d > 0
    ensures a as real / 2.0 / d as real < b as real / 2.0 / d as real
  {
  }

  lemma DivideRange(a: int, d: int)
    requires 0 <= a <= 2 * d && d > 0
    ensures 0.0 <= a as real / 2.0 / d as real <= 1.0
  {
  }

  /** Ranks lie in [0, 1] and order exactly as the values do; ties share a rank. */
  lemma RanksOrdered(vs: seq<real>, v: real, w: real)
    requires |vs| >= 2 && v in vs && w in vs
    ensures 0.0 <= RankOf(vs, v) <= 1.0
    ensures RankOf(vs, v) < RankOf(vs, w) <==> v < w
    ensures RankOf(vs, v) == RankOf(vs, w) <==> v == w
  {
    CountBounds(vs, v);
    CountBounds(vs, w);
    RankRange(vs, v);
    if v < w {
      CountMonotone(vs, v, w);
      DivideOrder(Below(vs, v) + UpTo(vs, v) - 1, Below(vs, w) + UpTo(vs, w) - 1, |vs| - 1);
    } else if w < v {
      CountMonotone(vs, w, v);
      DivideOrder(Below(vs, w) + UpTo(vs, w) - 1, Below(vs, v) + UpTo(vs, v) - 1, |vs| - 1);
    }
  }

  lemma RankRange(vs: seq<real>, v: real)
    requires |vs| >= 2 && v in vs
    ensures 0.0 <= RankOf(vs, v) <= 1.0
  {
    CountBounds(vs, v);
    DivideRange(Below(vs, v) + UpTo(vs, v) - 1, |vs| - 1);
  }

  // ----- conservation -----

  /** Twice the rank numerators of `of` among `vs`, summed. */
  function CountSum(vs: seq<real>, of: seq<real>): int {
    if of == [] then 0
    else CountSum(vs, of[..|of| - 1]) + Below(vs, of[|of| - 1]) + UpTo(vs, of[|of| - 1])
  }

  lemma {:induction false} CountSumGrows(vs: seq<real>, x: real, of: seq<real>)
    ensures CountSum(vs + [x], of) == CountSum(vs, of) + 2 * |of| - Below(of, x) - UpTo(of, x)
  {
    assert (vs + [x])[..|vs|] == vs;
    if of != [] {
      CountSumGrows(vs, x, of[..|of| - 1]);
    }
  }

  /** Every ordered pair of values contributes one on average. */
  lemma {:induction false} CountSumSquare(vs: seq<real>)
    ensures CountSum(vs, vs) == |vs| * |vs|
  {
    if vs != [] {
      var before, x := vs[..|vs| - 1], vs[|vs| - 1];
      assert vs == before + [x];
      CountSumSquare(before);
      CountSumGrows(before, x, before);
      CountRemove(vs, |before|, x);
      assert vs[..|before|] + vs[|before| + 1..] == before;
    }
  }

  function Sum(rs: seq<real>): real {
    if rs == [] then 0.0 else Sum(rs[..|rs| - 1]) + rs[|rs| - 1]
  }

  lemma AddQuotients(a: int, b: int, d: int)
    requires d > 0
    ensures a as real / 2.0 / d as real + b as real / 2.0 / d as real == (a + b) as real / 2.0 / d as real
  {
  }

  lemma {:induction false} SumOfRanks(vs: seq<real>, of: seq<real>, ranks: seq<real>)
    requires |vs| >= 2 && |ranks| == |of| && forall i :: 0 <= i < |of| ==> ranks[i] == RankOf(vs, of[i])
    ensures Sum(ranks) == (CountSum(vs, of) - |of|) as real / 2.0 / (|vs| - 1) as real
  {
    if of != [] {
      var n := |of| - 1;
      SumOfRanks(vs, of[..n], ranks[..n]);
      AddQuotients(CountSum(vs, of[..n]) - n, Below(vs, of[n]) + UpTo(vs, of[n]) - 1, |vs| - 1);
    }
  }

  lemma HalfOf(n: int)
    requires n >= 2
    ensures (n * n - n) as real / 2.0 / (n - 1) as real == n as real / 2.0
  {
    assert (n * n - n) as real == n as real * (n - 1) as real;
  }

  /** Main result: the ranks of n values sum to exactly n / 2, whatever the values and ties. */
  lemma RanksConserveMass(vs: seq<real>, ranks: seq<real>)
    requires |vs| >= 2 && |ranks| == |vs| && forall i :: 0 <= i < |vs| ==> ranks[i] == RankOf(vs, vs[i])
    ensures Sum(ranks) == |vs| as real / 2.0
  {
    SumOfRanks(vs, vs, ranks);
    CountSumSquare(vs);
    HalfOf(|vs|);
  }
}
