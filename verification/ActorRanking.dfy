/** Which orders of a position are tracked: scored by importance against the largest of each kind, sorted
    most important first, the first few kept. */
module ActorRanking {
  import opened Wrappers
  import Sorting

  /** An order as the payload describes it. */
  datatype Order = Order(
    orderId: string, instrument: Option<string>, side: string, price: real, initialSize: nat, currentSize: nat,
    refillContracts: nat, refillCount: nat, executed: nat, firstSeen: nat, lastSeen: nat)

  datatype RawWeights = Weights(initialSize: real, refillContracts: real, refillCount: real, executed: real,
                                persistence: real)

  type Weights = w: RawWeights
    | w.initialSize >= 0.0 && w.refillContracts >= 0.0 && w.refillCount >= 0.0
      && w.executed >= 0.0 && w.persistence >= 0.0
    witness RawWeights.Weights(1.0, 1.25, 1.0, 0.75, 0.5)

  function Persistence(o: Order): nat {
    if o.firstSeen == 0 || o.lastSeen == 0 || o.lastSeen < o.firstSeen then 0 else o.lastSeen - o.firstSeen
  }

  /** The largest value among the orders, or one if all are zero. */
  function Largest(values: seq<nat>): (m: nat)
    ensures m >= 1 && forall v :: v in values ==> v <= m
    ensures m in values || (m == 1 && forall v :: v in values ==> v == 0)
  {
    if values == [] then 1
    else
      var rest := Largest(values[1..]);
      assert values == [values[0]] + values[1..];
      if values[0] >= rest then values[0] else if rest in values[1..] then rest else Max(1, values[0])
  }

  function Values(orders: seq<Order>, f: Order -> nat): (r: seq<nat>)
    ensures |r| == |orders| && forall i :: 0 <= i < |r| ==> r[i] == f(orders[i])
  {
    seq(|orders|, i requires 0 <= i < |orders| => f(orders[i]))
  }

  function Share(orders: seq<Order>, o: Order, f: Order -> nat): real {
    f(o) as real / Largest(Values(orders, f)) as real
  }

  const InitialSizes := (o: Order) => o.initialSize
  const RefillContracts := (o: Order) => o.refillContracts
  const RefillCounts := (o: Order) => o.refillCount
  const Executions := (o: Order) => o.executed
  const Persistences := (o: Order) => Persistence(o)

  function Part(weight: real, orders: seq<Order>, o: Order, f: Order -> nat): real { weight * Share(orders, o, f) }

  function Importance(w: Weights, orders: seq<Order>, o: Order): real {
    Part(w.initialSize, orders, o, InitialSizes) + Part(w.refillContracts, orders, o, RefillContracts)
    + Part(w.refillCount, orders, o, RefillCounts) + Part(w.executed, orders, o, Executions)
    + Part(w.persistence, orders, o, Persistences)
  }

  /** `m` is the largest value any order shows, or one if all show zero. */
  ghost predicate Greatest(orders: seq<Order>, f: Order -> nat, m: nat) {
    && m >= 1 && (forall o :: o in orders ==> f(o) <= m)
    && ((exists o :: o in orders && f(o) == m) || (m == 1 && forall o :: o in orders ==> f(o) == 0))
  }

  /** What the share of one kind is, by the largest of that kind. */
  lemma ShareMeans(orders: seq<Order>, o: Order, f: Order -> nat, m: nat)
    requires Greatest(orders, f, m)
    ensures Share(orders, o, f) == f(o) as real / m as real
  {
    var values := Values(orders, f);
    forall x | x in orders ensures f(x) in values {
      var i :| 0 <= i < |orders| && orders[i] == x;
      assert values[i] == f(x);
    }
    forall v | v in values ensures v <= m {
      var i :| 0 <= i < |values| && values[i] == v;
      assert orders[i] in orders;
    }
  }

  /** A value over the largest of its kind, times the weight of the kind. */
  function Over(weight: real, value: nat, largest: nat): real
    requires largest > 0
  {
    weight * (value as real / largest as real)
  }

  lemma PartMeans(weight: real, orders: seq<Order>, o: Order, f: Order -> nat, value: nat, m: nat)
    requires Greatest(orders, f, m) && value == f(o)
    ensures Part(weight, orders, o, f) == Over(weight, value, m)
  {
    ShareMeans(orders, o, f, m);
  }

  /** Main result: the importance of an order adds up its initial size, refilled contracts, number of refills,
      executed contracts and time in the book, each over the largest of its kind and times its own weight. */
  lemma ImportanceMeans(w: Weights, orders: seq<Order>, o: Order, size: nat, refilled: nat, count: nat, executed: nat,
                        lasting: nat)
    requires Greatest(orders, InitialSizes, size) && Greatest(orders, RefillContracts, refilled)
    requires Greatest(orders, RefillCounts, count) && Greatest(orders, Executions, executed)
    requires Greatest(orders, Persistences, lasting)
    ensures Importance(w, orders, o)
         == Over(w.initialSize, o.initialSize, size) + Over(w.refillContracts, o.refillContracts, refilled)
            + Over(w.refillCount, o.refillCount, count) + Over(w.executed, o.executed, executed)
            + Over(w.persistence, Lasting(o), lasting)
  {
    PartMeans(w.initialSize, orders, o, InitialSizes, o.initialSize, size);
    PartMeans(w.refillContracts, orders, o, RefillContracts, o.refillContracts, refilled);
    PartMeans(w.refillCount, orders, o, RefillCounts, o.refillCount, count);
    PartMeans(w.executed, orders, o, Executions, o.executed, executed);
    PartMeans(w.persistence, orders, o, Persistences, Lasting(o), lasting);
  }

  /** The time from the first to the last sight of an order, if both are known and in order. */
  function Lasting(o: Order): nat {
    if 0 < o.firstSeen <= o.lastSeen then o.lastSeen - o.firstSeen else 0
  }

  datatype Scored = Scored(order: Order, importance: real)

  /** `a` comes before or with `b`: more important, then larger, then with more refill, then refilled more often. */
  predicate Outranks(a: Scored, b: Scored) {
    || a.importance > b.importance
    || (a.importance == b.importance
        && (a.order.initialSize > b.order.initialSize
            || (a.order.initialSize == b.order.initialSize && NoLessRefilled(a.order, b.order))))
  }

  predicate NoLessRefilled(a: Order, b: Order) {
    || a.refillContracts > b.refillContracts
    || (a.refillContracts == b.refillContracts && a.refillCount >= b.refillCount)
  }

  /** Rank order goes by importance, then initial size, then refilled contracts, then number of refills. */
  lemma OutranksMeans(a: Scored, b: Scored)
    ensures var x, y := a.order, b.order;
            Outranks(a, b) <==>
              && a.importance >= b.importance
              && (a.importance > b.importance || x.initialSize >= y.initialSize)
              && (a.importance > b.importance || x.initialSize > y.initialSize
                  || x.refillContracts >= y.refillContracts)
              && (a.importance > b.importance || x.initialSize > y.initialSize
                  || x.refillContracts > y.refillContracts || x.refillCount >= y.refillCount)
  {
  }

  function ByRank(): (Scored, Scored) -> bool { (a: Scored, b: Scored) => Outranks(a, b) }

  lemma ByRankTotal()
    ensures Sorting.TotalPreorder(ByRank())
  {
  }

  function AllScored(w: Weights, orders: seq<Order>): (r: seq<Scored>)
    ensures |r| == |orders| && forall i :: 0 <= i < |r| ==> r[i] == Scored(orders[i], Importance(w, orders, orders[i]))
  {
    seq(|orders|, i requires 0 <= i < |orders| => Scored(orders[i], Importance(w, orders, orders[i])))
  }

  function Ranked(w: Weights, orders: seq<Order>): seq<Scored> { Sorting.Sort(AllScored(w, orders), ByRank()) }

  /** The orders that are tracked. */
  function Tracked(w: Weights, orders: seq<Order>, limit: int): seq<Scored>
    requires limit > 0
  {
    Ranked(w, orders)[..Min(limit, |Ranked(w, orders)|)]
  }

  /** Main result: exactly min(limit, count) orders are tracked, each once; no dropped one outranks a tracked
      one, and they come in rank order. */
  lemma TrackedBest(w: Weights, orders: seq<Order>, limit: int)
    requires limit > 0
    ensures var kept, all := Tracked(w, orders, limit), AllScored(w, orders);
            && |kept| == Min(limit, |orders|) && multiset(kept) <= multiset(all)
            && Sorting.SortedBy(kept, ByRank())
            && forall k, d :: k in kept && d in multiset(all) - multiset(kept) ==> Outranks(k, d)
  {
    var all, ranked := AllScored(w, orders), Ranked(w, orders);
    ByRankTotal();
    Sorting.SortSorted(all, ByRank());
    Sorting.SortMembers(all, ByRank());
    assert |ranked| == |multiset(ranked)| == |multiset(all)| == |all|;
    FrontBest(all, ranked, Min(limit, |ranked|));
  }

  lemma FrontBest(all: seq<Scored>, ranked: seq<Scored>, n: nat)
    requires multiset(all) == multiset(ranked) && Sorting.SortedBy(ranked, ByRank()) && n <= |ranked|
    ensures multiset(ranked[..n]) <= multiset(all) && Sorting.SortedBy(ranked[..n], ByRank())
    ensures forall k, d :: k in ranked[..n] && d in multiset(all) - multiset(ranked[..n]) ==> Outranks(k, d)
  {
    RestOfBag(ranked, n);
    forall k, d | k in ranked[..n] && d in multiset(all) - multiset(ranked[..n]) ensures Outranks(k, d) {
      FrontOutranks(ranked, n, k, d);
    }
  }

  lemma RestOfBag(ranked: seq<Scored>, n: nat)
    requires n <= |ranked|
    ensures multiset(ranked[..n]) <= multiset(ranked)
    ensures multiset(ranked) - multiset(ranked[..n]) == multiset(ranked[n..])
  {
    assert ranked == ranked[..n] + ranked[n..];
  }

  lemma FrontOutranks(ranked: seq<Scored>, n: nat, k: Scored, d: Scored)
    requires Sorting.SortedBy(ranked, ByRank()) && n <= |ranked| && k in ranked[..n] && d in multiset(ranked[n..])
    ensures Outranks(k, d)
  {
    var i :| 0 <= i < n && ranked[i] == k;
    var j :| n <= j < |ranked| && ranked[j] == d;
    assert ByRank()(ranked[i], ranked[j]);
  }

  // ----- the score -----

  lemma ShareInRange(orders: seq<Order>, o: Order, f: Order -> nat)
    requires o in orders
    ensures 0.0 <= Share(orders, o, f) <= 1.0
  {
    var i :| 0 <= i < |orders| && orders[i] == o;
    assert Values(orders, f)[i] in Values(orders, f);
    Quotient(f(o), Largest(Values(orders, f)));
  }

  lemma Quotient(a: nat, b: nat)
    requires b >= 1 && a <= b
    ensures 0.0 <= a as real / b as real <= 1.0
  {
    assert a as real == a as real / b as real * b as real;
  }

  lemma Product(a: real, b: real)
    requires a >= 0.0 && b >= 0.0
    ensures a * b >= 0.0
  {
  }

  lemma Grows(w: real, a: real, b: real)
    requires w >= 0.0 && a <= b
    ensures w * a <= w * b
  {
    Product(w, b - a);
    assert w * b - w * a == w * (b - a);
  }

  lemma Within(w: real, x: real)
    requires w >= 0.0 && 0.0 <= x <= 1.0
    ensures 0.0 <= w * x <= w
  {
    Product(w, x);
    Product(w, 1.0 - x);
    assert w - w * x == w * (1.0 - x);
  }

  lemma ShareMonotone(orders: seq<Order>, a: Order, b: Order, f: Order -> nat)
    requires f(a) <= f(b)
    ensures Share(orders, a, f) <= Share(orders, b, f)
  {
    var m := Largest(Values(orders, f)) as real;
    var x, y := f(a) as real / m, f(b) as real / m;
    assert x * m == f(a) as real && y * m == f(b) as real;
    if x > y {
      Grows(m, y, x);
    }
  }

  function Whole(w: Weights): real {
    w.initialSize + w.refillContracts + w.refillCount + w.executed + w.persistence
  }

  lemma PartInRange(weight: real, orders: seq<Order>, o: Order, f: Order -> nat)
    requires weight >= 0.0 && o in orders
    ensures 0.0 <= Part(weight, orders, o, f) <= weight
  {
    ShareInRange(orders, o, f);
    Within(weight, Share(orders, o, f));
  }

  lemma PartMonotone(weight: real, orders: seq<Order>, a: Order, b: Order, f: Order -> nat)
    requires weight >= 0.0 && f(a) <= f(b)
    ensures Part(weight, orders, a, f) <= Part(weight, orders, b, f)
  {
    ShareMonotone(orders, a, b, f);
    Grows(weight, Share(orders, a, f), Share(orders, b, f));
  }

  /** An importance lies between zero and the sum of the weights. */
  lemma ImportanceInRange(w: Weights, orders: seq<Order>, o: Order)
    requires o in orders
    ensures 0.0 <= Importance(w, orders, o) <= Whole(w)
  {
    PartInRange(w.initialSize, orders, o, InitialSizes);
    PartInRange(w.refillContracts, orders, o, RefillContracts);
    PartInRange(w.refillCount, orders, o, RefillCounts);
    PartInRange(w.executed, orders, o, Executions);
    PartInRange(w.persistence, orders, o, Persistences);
  }

  /** An order that is at least as large in every respect is at least as important. */
  lemma ImportanceMonotone(w: Weights, orders: seq<Order>, a: Order, b: Order)
    requires a.initialSize <= b.initialSize && a.refillContracts <= b.refillContracts && a.refillCount <= b.refillCount
    requires a.executed <= b.executed && Persistence(a) <= Persistence(b)
    ensures Importance(w, orders, a) <= Importance(w, orders, b)
  {
    PartMonotone(w.initialSize, orders, a, b, InitialSizes);
    PartMonotone(w.refillContracts, orders, a, b, RefillContracts);
    PartMonotone(w.refillCount, orders, a, b, RefillCounts);
    PartMonotone(w.executed, orders, a, b, Executions);
    PartMonotone(w.persistence, orders, a, b, Persistences);
  }
}
