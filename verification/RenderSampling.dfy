/** Thinning the rendered points: the highest render priority survives first, and points of the
    primary window are spared before those of the margin. */
module RenderSampling {
  import opened Wrappers
  import Sorting
  import opened Sampling
  import opened DomOrdering

  const LOW_CONTRACT_THRESHOLD := 2

  datatype Family = RestingLiquidity | CancelDelete | Modify | Add | Execute | Unknown

  datatype RenderPoint = RenderPoint(id: int, family: Family, amount: int, start: int, end: int, price: string)

  datatype Score = Score(tier: int, second: int, third: int)

  function FamilyRank(f: Family): int {
    match f
    case RestingLiquidity => 0
    case CancelDelete => 1
    case Modify => 2
    case Add => 3
    case Execute => 4
    case Unknown => 2
  }

  function ScoreOf(p: RenderPoint): Score {
    if p.amount <= LOW_CONTRACT_THRESHOLD then Score(0, FamilyRank(p.family), p.amount)
    else Score(1, p.amount, FamilyRank(p.family))
  }

  predicate AtMost(a: Score, b: Score) {
    a.tier < b.tier
    || (a.tier == b.tier && (a.second < b.second || (a.second == b.second && a.third <= b.third)))
  }

  predicate Small(p: RenderPoint) { p.amount <= 2 }

  /** Executions weigh most, then additions, then modifies and points of unknown kind, then cancels, and resting
      liquidity least. */
  predicate Weightier(p: RenderPoint, q: RenderPoint) {
    match q.family
    case RestingLiquidity => p.family != RestingLiquidity
    case CancelDelete => p.family !in {RestingLiquidity, CancelDelete}
    case Modify => p.family in {Add, Execute}
    case Unknown => p.family in {Add, Execute}
    case Add => p.family == Execute
    case Execute => false
  }

  /** `p` may be kept rather than `q`: more than two contracts before fewer, large points by contracts and then by
      kind, small ones by kind and then by contracts. */
  predicate Above(p: RenderPoint, q: RenderPoint) {
    if Small(p) then Small(q) && (Weightier(p, q) || (!Weightier(q, p) && p.amount > q.amount))
    else Small(q) || p.amount > q.amount || (p.amount == q.amount && Weightier(p, q))
  }

  lemma ScoresMean(p: RenderPoint, q: RenderPoint)
    ensures AtMost(ScoreOf(q), ScoreOf(p)) <==> !Above(q, p)
  {
  }

  // ----- the display order -----

  /** By start, then by end if points have one, then by the text of the price. */
  ghost predicate ShownBefore(a: RenderPoint, b: RenderPoint, hasEnd: bool) {
    || a.start < b.start
    || (hasEnd && a.start == b.start && a.end < b.end)
    || (a.start == b.start && (hasEnd ==> a.end == b.end) && TextBefore(a.price, b.price))
  }

  ghost predicate InDisplayOrder(points: seq<RenderPoint>, hasEnd: bool) {
    forall i, j :: 0 <= i < j < |points| ==> !ShownBefore(points[j], points[i], hasEnd)
  }

  lemma SortedIsDisplayOrder(points: seq<RenderPoint>, hasEnd: bool)
    requires Sorting.SortedBy(points, RenderOrder(hasEnd))
    ensures InDisplayOrder(points, hasEnd)
  {
    forall i, j | 0 <= i < j < |points| ensures !ShownBefore(points[j], points[i], hasEnd) {
      assert RenderOrder(hasEnd)(points[i], points[j]);
      CompareTextLaws(points[i].price, points[j].price);
      TextMeans(points[j].price, points[i].price);
    }
  }

  function CompareRender(a: RenderPoint, b: RenderPoint, hasEnd: bool): int {
    Then(CompareInt(a.start, b.start),
    Then(if hasEnd then CompareInt(a.end, b.end) else 0, CompareText(a.price, b.price)))
  }

  function RenderOrder(hasEnd: bool): (RenderPoint, RenderPoint) -> bool {
    (a: RenderPoint, b: RenderPoint) => CompareRender(a, b, hasEnd) <= 0
  }

  lemma RenderOrderTotal(hasEnd: bool)
    ensures Sorting.TotalPreorder(RenderOrder(hasEnd))
  {
    forall a, b ensures RenderOrder(hasEnd)(a, b) || RenderOrder(hasEnd)(b, a) {
      CompareTextLaws(a.price, b.price);
    }
    forall a, b, c | RenderOrder(hasEnd)(a, b) && RenderOrder(hasEnd)(b, c) ensures RenderOrder(hasEnd)(a, c) {
      CompareTextLaws(a.price, b.price);
      CompareTextLaws(b.price, c.price);
      if CompareText(a.price, b.price) <= 0 && CompareText(b.price, c.price) <= 0 {
        CompareTextTransitive(a.price, b.price, c.price);
      }
    }
  }

  // ----- groups -----

  /** The points whose score is in `scores`, in order. */
  function Chosen(points: seq<RenderPoint>, scores: set<Score>): seq<RenderPoint> {
    if points == [] then []
    else
      var p := points[|points| - 1];
      Chosen(points[..|points| - 1], scores) + (if ScoreOf(p) in scores then [p] else [])
  }

  lemma {:induction false} ChosenCount(points: seq<RenderPoint>, scores: set<Score>, p: RenderPoint)
    ensures multiset(Chosen(points, scores))[p] == if ScoreOf(p) in scores then multiset(points)[p] else 0
  {
    if points != [] {
      ChosenCount(points[..|points| - 1], scores, p);
      assert points == points[..|points| - 1] + [points[|points| - 1]];
    }
  }

  lemma ChosenSplit(points: seq<RenderPoint>, a: set<Score>, s: Score)
    requires s !in a
    ensures multiset(Chosen(points, a + {s})) == multiset(Chosen(points, a)) + multiset(Chosen(points, {s}))
  {
    forall p
      ensures multiset(Chosen(points, a + {s}))[p] == (multiset(Chosen(points, a)) + multiset(Chosen(points, {s})))[p]
    {
      ChosenCount(points, a + {s}, p);
      ChosenCount(points, a, p);
      ChosenCount(points, {s}, p);
    }
  }

  lemma ChosenFacts(points: seq<RenderPoint>, scores: set<Score>)
    ensures multiset(Chosen(points, scores)) <= multiset(points)
    ensures forall p :: ScoreOf(p) in scores ==> multiset(Chosen(points, scores))[p] == multiset(points)[p]
    ensures forall p :: p in Chosen(points, scores) ==> ScoreOf(p) in scores
  {
    forall p ensures multiset(Chosen(points, scores))[p] == if ScoreOf(p) in scores then multiset(points)[p] else 0 {
      ChosenCount(points, scores, p);
    }
    forall p | p in Chosen(points, scores) ensures ScoreOf(p) in scores {
      assert p in multiset(Chosen(points, scores));
    }
  }

  lemma {:induction false} ChosenNone(points: seq<RenderPoint>)
    ensures Chosen(points, {}) == []
  {
    if points != [] {
      ChosenNone(points[..|points| - 1]);
    }
  }

  method GroupByScore(points: seq<RenderPoint>) returns (groups: map<Score, seq<RenderPoint>>)
    ensures forall p :: p in points ==> ScoreOf(p) in groups
    ensures forall s :: s in groups ==> groups[s] == Chosen(points, {s}) && groups[s] != []
  {
    groups := map[];
    for i := 0 to |points|
      invariant forall k :: 0 <= k < i ==> ScoreOf(points[k]) in groups
      invariant forall s :: s in groups ==> groups[s] == Chosen(points[..i], {s}) && groups[s] != []
      invariant forall s :: s !in groups ==> Chosen(points[..i], {s}) == []
    {
      var s := ScoreOf(points[i]);
      assert points[..i + 1][..i] == points[..i];
      groups := groups[s := (if s in groups then groups[s] else []) + [points[i]]];
    }
    assert points[..|points|] == points;
  }

  method Highest(scores: set<Score>) returns (top: Score)
    requires scores != {}
    ensures top in scores && forall s :: s in scores ==> AtMost(s, top)
  {
    top :| top in scores;
    var rest := scores - {top};
    while rest != {}
      invariant rest <= scores && top in scores && forall s :: s in scores && s !in rest ==> AtMost(s, top)
    {
      var s :| s in rest;
      if !AtMost(s, top) {
        top := s;
      }
      rest := rest - {s};
    }
  }

  /** What a thinned list keeps of the full one. */
  ghost predicate KeepsBest(kept: seq<RenderPoint>, points: seq<RenderPoint>) {
    && multiset(kept) <= multiset(points)
    && forall k, d :: k in kept && d in multiset(points) - multiset(kept) ==> !Above(d, k)
  }

  /** Mid-selection: what has been selected, and the scores of which something may be missing. */
  ghost predicate Selecting(points: seq<RenderPoint>, selected: seq<RenderPoint>, keys: set<Score>, open: set<Score>) {
    && open <= keys && multiset(selected) <= multiset(points)
    && (forall k, s :: k in selected && s in open ==> AtMost(s, ScoreOf(k)))
    && (forall p :: p in points && ScoreOf(p) !in open ==> multiset(selected)[p] == multiset(points)[p])
  }

  lemma {:induction false} SelectWhole(points: seq<RenderPoint>, selected: seq<RenderPoint>, keys: set<Score>,
                                       rest: set<Score>, s: Score)
    requires Selecting(points, selected, keys, rest) && s in rest && forall x :: x in rest ==> AtMost(x, s)
    requires forall p :: p in points ==> ScoreOf(p) in keys
    requires multiset(selected) == multiset(Chosen(points, keys - rest))
    ensures Selecting(points, selected + Chosen(points, {s}), keys, rest - {s})
    ensures multiset(selected + Chosen(points, {s})) == multiset(Chosen(points, keys - (rest - {s})))
  {
    ChosenSplit(points, keys - rest, s);
    assert keys - (rest - {s}) == keys - rest + {s};
    ChosenFacts(points, keys - (rest - {s}));
    ChosenFacts(points, {s});
  }

  lemma SelectSomeFits(points: seq<RenderPoint>, selected: seq<RenderPoint>, done: set<Score>, s: Score,
                       some: seq<RenderPoint>)
    requires s !in done && multiset(selected) == multiset(Chosen(points, done))
    requires multiset(some) <= multiset(Chosen(points, {s}))
    ensures multiset(selected + some) <= multiset(points)
  {
    ChosenSplit(points, done, s);
    ChosenFacts(points, done + {s});
  }

  lemma {:induction false} SelectSome(points: seq<RenderPoint>, selected: seq<RenderPoint>, keys: set<Score>,
                                      rest: set<Score>, s: Score, some: seq<RenderPoint>)
    requires Selecting(points, selected, keys, rest) && s in rest && forall x :: x in rest ==> AtMost(x, s)
    requires multiset(selected) == multiset(Chosen(points, keys - rest))
    requires multiset(some) <= multiset(Chosen(points, {s}))
    ensures Selecting(points, selected + some, keys, rest)
  {
    SelectSomeFits(points, selected, keys - rest, s, some);
    ChosenFacts(points, {s});
    forall p | p in some ensures ScoreOf(p) == s {
      assert p in multiset(some);
      assert p in multiset(Chosen(points, {s}));
    }
    forall p | p in points && ScoreOf(p) !in rest ensures multiset(selected + some)[p] == multiset(points)[p] {
      assert p !in some;
    }
  }

  lemma SelectingKeepsBest(points: seq<RenderPoint>, selected: seq<RenderPoint>, kept: seq<RenderPoint>,
                           keys: set<Score>, open: set<Score>)
    requires Selecting(points, selected, keys, open) && multiset(kept) == multiset(selected)
    ensures KeepsBest(kept, points)
  {
    forall k, d | k in kept && d in multiset(points) - multiset(kept) ensures !Above(d, k) {
      assert k in multiset(kept) && k in selected;
      assert d in points;
      ScoresMean(k, d);
    }
  }

  /** Takes the group of score `s`, thinned if it does not fit. */
  method TakeGroup(points: seq<RenderPoint>, selected: seq<RenderPoint>, group: seq<RenderPoint>, limit: int,
                   ghost keys: set<Score>, ghost rest: set<Score>, ghost s: Score)
    returns (more: seq<RenderPoint>, ghost open: set<Score>)
    requires Selecting(points, selected, keys, rest) && s in rest && forall x :: x in rest ==> AtMost(x, s)
    requires forall p :: p in points ==> ScoreOf(p) in keys
    requires multiset(selected) == multiset(Chosen(points, keys - rest))
    requires group == Chosen(points, {s}) && |selected| < limit
    ensures |more| <= limit && rest - {s} <= open && Selecting(points, more, keys, open)
    ensures |more| < limit ==> open == rest - {s} && multiset(more) == multiset(Chosen(points, keys - open))
  {
    var remaining := limit - |selected|;
    if |group| <= remaining {
      SelectWhole(points, selected, keys, rest, s);
      more := selected + group;
      open := rest - {s};
    } else {
      SamplePointsExact(group, remaining);
      SelectSome(points, selected, keys, rest, s, SamplePoints(group, remaining));
      more := selected + SamplePoints(group, remaining);
      open := rest;
    }
  }

  /** Takes whole groups, highest score first, and thins the first one that does not fit. */
  method SelectScores(points: seq<RenderPoint>, limit: int) returns (selected: seq<RenderPoint>,
                                                                     ghost keys: set<Score>, ghost open: set<Score>)
    requires 1 <= limit < |points|
    ensures |selected| == limit && Selecting(points, selected, keys, open)
  {
    var groups := GroupByScore(points);
    selected := [];
    var rest := groups.Keys;
    keys, open := rest, rest;
    ChosenNone(points);
    assert keys - rest == {};
    while rest != {} && limit - |selected| > 0
      invariant rest <= open && |selected| <= limit && Selecting(points, selected, keys, open)
      invariant |selected| < limit ==> rest == open && multiset(selected) == multiset(Chosen(points, keys - rest))
      decreases |rest|
    {
      var s := Highest(rest);
      selected, open := TakeGroup(points, selected, groups[s], limit, keys, rest, s);
      rest := rest - {s};
    }
    if |selected| < limit {
      AllChosen(points, selected, keys);
      assert false;
    }
  }

  method SampleByPriority(points: seq<RenderPoint>, maxPoints: int, hasEnd: bool) returns (kept: seq<RenderPoint>)
    ensures |kept| == Min(|points|, Max(1, maxPoints)) && KeepsBest(kept, points)
    ensures |points| <= Max(1, maxPoints) ==> kept == points
    ensures |points| > Max(1, maxPoints) ==> InDisplayOrder(kept, hasEnd)
  {
    var limit := Max(1, maxPoints);
    if |points| <= limit {
      return points;
    }
    var selected, keys, open := SelectScores(points, limit);
    kept := Sorting.Sort(selected, RenderOrder(hasEnd));
    RenderOrderTotal(hasEnd);
    Sorting.SortSorted(selected, RenderOrder(hasEnd));
    SortedIsDisplayOrder(kept, hasEnd);
    Sorting.SortMembers(selected, RenderOrder(hasEnd));
    SelectingKeepsBest(points, selected, kept, keys, open);
  }

  lemma {:induction false} ChosenAll(points: seq<RenderPoint>, scores: set<Score>)
    requires forall p :: p in points ==> ScoreOf(p) in scores
    ensures Chosen(points, scores) == points
  {
    if points != [] {
      var before, p := points[..|points| - 1], points[|points| - 1];
      ChosenAll(before, scores);
      assert p in points;
      assert Chosen(points, scores) == before + [p];
    }
  }

  lemma SameSize<T>(a: seq<T>, b: seq<T>)
    requires multiset(a) == multiset(b)
    ensures |a| == |b|
  {
    assert |multiset(a)| == |a| && |multiset(b)| == |b|;
  }

  /** With no group left over, every point was chosen. */
  lemma AllChosen(points: seq<RenderPoint>, selected: seq<RenderPoint>, keys: set<Score>)
    requires forall p :: p in points ==> ScoreOf(p) in keys
    requires multiset(selected) == multiset(Chosen(points, keys - {}))
    ensures |selected| == |points|
  {
    assert keys - {} == keys;
    ChosenAll(points, keys);
    SameSize(selected, points);
  }

  // ----- the primary window -----

  predicate InPrimary(p: RenderPoint, primaryStart: int, primaryEnd: int, hasEnd: bool) {
    p.start <= primaryEnd && (if hasEnd then p.end else p.start) >= primaryStart
  }

  function Primary(points: seq<RenderPoint>, primaryStart: int, primaryEnd: int, hasEnd: bool,
                   wanted: bool): seq<RenderPoint> {
    if points == [] then []
    else
      var p := points[|points| - 1];
      Primary(points[..|points| - 1], primaryStart, primaryEnd, hasEnd, wanted)
      + (if InPrimary(p, primaryStart, primaryEnd, hasEnd) == wanted then [p] else [])
  }

  predicate Within(t: int, from: int, to: int) { from <= t <= to }

  /** Some instant of the window falls into the point, from its start to its end or, without one, at its start. */
  ghost predicate Visible(p: RenderPoint, primaryStart: int, primaryEnd: int, hasEnd: bool) {
    exists t: int :: Within(t, primaryStart, primaryEnd) && Within(t, p.start, if hasEnd then p.end else p.start)
  }

  lemma PrimaryMeans(p: RenderPoint, primaryStart: int, primaryEnd: int, hasEnd: bool)
    requires primaryStart <= primaryEnd && (hasEnd ==> p.start <= p.end)
    ensures InPrimary(p, primaryStart, primaryEnd, hasEnd) <==> Visible(p, primaryStart, primaryEnd, hasEnd)
  {
    if InPrimary(p, primaryStart, primaryEnd, hasEnd) {
      var t := Max(p.start, primaryStart);
      assert Within(t, primaryStart, primaryEnd) && Within(t, p.start, if hasEnd then p.end else p.start);
    }
  }

  lemma {:induction false} PrimaryCount(points: seq<RenderPoint>, primaryStart: int, primaryEnd: int, hasEnd: bool,
                                        wanted: bool, p: RenderPoint)
    ensures multiset(Primary(points, primaryStart, primaryEnd, hasEnd, wanted))[p]
         == if InPrimary(p, primaryStart, primaryEnd, hasEnd) == wanted then multiset(points)[p] else 0
  {
    if points != [] {
      PrimaryCount(points[..|points| - 1], primaryStart, primaryEnd, hasEnd, wanted, p);
      assert points == points[..|points| - 1] + [points[|points| - 1]];
    }
  }

  /** Main result: the primary points are, each as often as given, those visible in the window, and the margin is
      the others. */
  lemma PrimaryIsVisible(points: seq<RenderPoint>, primaryStart: int, primaryEnd: int, hasEnd: bool, p: RenderPoint)
    requires primaryStart <= primaryEnd && (hasEnd ==> p.start <= p.end)
    ensures var visible := Visible(p, primaryStart, primaryEnd, hasEnd);
            && multiset(Primary(points, primaryStart, primaryEnd, hasEnd, true))[p]
               == (if visible then multiset(points)[p] else 0)
            && multiset(Primary(points, primaryStart, primaryEnd, hasEnd, false))[p]
               == (if visible then 0 else multiset(points)[p])
  {
    PrimaryMeans(p, primaryStart, primaryEnd, hasEnd);
    PrimaryCount(points, primaryStart, primaryEnd, hasEnd, true, p);
    PrimaryCount(points, primaryStart, primaryEnd, hasEnd, false, p);
  }

  lemma AppendOne(a: seq<RenderPoint>, b: seq<RenderPoint>, all: seq<RenderPoint>, p: RenderPoint)
    requires multiset(a) + multiset(b) == multiset(all) && |a| + |b| == |all|
    ensures multiset(a + [p]) + multiset(b) == multiset(all + [p])
    ensures multiset(a) + multiset(b + [p]) == multiset(all + [p])
  {
  }

  lemma {:induction false} PrimarySplits(points: seq<RenderPoint>, primaryStart: int, primaryEnd: int, hasEnd: bool)
    ensures multiset(Primary(points, primaryStart, primaryEnd, hasEnd, true))
         + multiset(Primary(points, primaryStart, primaryEnd, hasEnd, false)) == multiset(points)
    ensures |Primary(points, primaryStart, primaryEnd, hasEnd, true)|
         + |Primary(points, primaryStart, primaryEnd, hasEnd, false)| == |points|
  {
    if points != [] {
      var before, p := points[..|points| - 1], points[|points| - 1];
      PrimarySplits(before, primaryStart, primaryEnd, hasEnd);
      var inside := Primary(before, primaryStart, primaryEnd, hasEnd, true);
      var outside := Primary(before, primaryStart, primaryEnd, hasEnd, false);
      AppendOne(inside, outside, before, p);
      assert points == before + [p];
      assert inside + [] == inside && outside + [] == outside;
    }
  }

  method SplitPrimary(points: seq<RenderPoint>, primaryStart: int, primaryEnd: int, hasEnd: bool)
    returns (primary: seq<RenderPoint>, margin: seq<RenderPoint>)
    ensures primary == Primary(points, primaryStart, primaryEnd, hasEnd, true)
    ensures margin == Primary(points, primaryStart, primaryEnd, hasEnd, false)
  {
    primary, margin := [], [];
    for i := 0 to |points|
      invariant primary == Primary(points[..i], primaryStart, primaryEnd, hasEnd, true)
      invariant margin == Primary(points[..i], primaryStart, primaryEnd, hasEnd, false)
    {
      assert points[..i + 1][..i] == points[..i];
      if InPrimary(points[i], primaryStart, primaryEnd, hasEnd) {
        primary := primary + [points[i]];
      } else {
        margin := margin + [points[i]];
      }
    }
    assert points[..|points|] == points;
  }

  /** All of `primary` is kept, beside the best of `margin`. */
  ghost predicate Spares(kept: seq<RenderPoint>, primary: seq<RenderPoint>, margin: seq<RenderPoint>) {
    exists rest: seq<RenderPoint> :: multiset(kept) == multiset(primary) + multiset(rest) && KeepsBest(rest, margin)
  }

  lemma SparesWitness(kept: seq<RenderPoint>, primary: seq<RenderPoint>, margin: seq<RenderPoint>,
                      rest: seq<RenderPoint>)
    requires multiset(kept) == multiset(primary) + multiset(rest) && KeepsBest(rest, margin)
    ensures Spares(kept, primary, margin)
  {
  }

  /** Main result: exactly min(length, limit) points survive, each an input point used at most once;
      every primary point survives if they all fit; within the part that is thinned no dropped point
      outranks a kept one. Once anything is dropped the result is in display order, except when the
      primary points exactly fill the limit: they come as they were. */
  method SampleWithPrimaryWindow(points: seq<RenderPoint>, maxPoints: int, primaryStart: int, primaryEnd: int,
                                 hasEnd: bool)
    returns (kept: seq<RenderPoint>)
    ensures |kept| == Min(|points|, Max(1, maxPoints)) && multiset(kept) <= multiset(points)
    ensures |points| <= Max(1, maxPoints) ==> kept == points
    ensures var primary := Primary(points, primaryStart, primaryEnd, hasEnd, true);
            var margin := Primary(points, primaryStart, primaryEnd, hasEnd, false);
            if |primary| <= Max(1, maxPoints) then Spares(kept, primary, margin) else KeepsBest(kept, primary)
    ensures var primary := Primary(points, primaryStart, primaryEnd, hasEnd, true);
            |points| > Max(1, maxPoints) ==>
              if |primary| == Max(1, maxPoints) then kept == primary else InDisplayOrder(kept, hasEnd)
  {
    var limit := Max(1, maxPoints);
    PrimarySplits(points, primaryStart, primaryEnd, hasEnd);
    if |points| <= limit {
      ghost var inside := Primary(points, primaryStart, primaryEnd, hasEnd, true);
      ghost var outside := Primary(points, primaryStart, primaryEnd, hasEnd, false);
      SparesWitness(points, inside, outside, outside);
      return points;
    }
    var primary, margin := SplitPrimary(points, primaryStart, primaryEnd, hasEnd);
    if |primary| >= limit {
      kept := SampleByPriority(primary, limit, hasEnd);
      if |primary| == limit {
        SparesWitness(kept, primary, margin, []);
      }
    } else {
      var sampled := SampleByPriority(margin, limit - |primary|, hasEnd);
      kept := Sorting.Sort(primary + sampled, RenderOrder(hasEnd));
      RenderOrderTotal(hasEnd);
      Sorting.SortSorted(primary + sampled, RenderOrder(hasEnd));
      SortedIsDisplayOrder(kept, hasEnd);
      Sorting.SortMembers(primary + sampled, RenderOrder(hasEnd));
      SparesWitness(kept, primary, margin, sampled);
    }
  }
}
