/** Refill points: per candle, price and side, the refills counted and the instant of the tenth. */
module DomRefillPoints {
  import opened Wrappers
  import opened DomModel
  import opened DomLevels
  import opened DomLedger

  const MIN_COUNT := 10

  datatype PointKey = PointKey(candle: int, price: Price, side: Side)

  datatype Point = Point(
    orderIds: set<Key>, count: int, total: int, executed: int, withdrawn: int,
    thresholdTime: int, lastTime: int)

  function PointKeyOf(p: Payload, bucketMs: int): (k: PointKey)
    requires bucketMs > 0
    ensures k.candle == p.ts - p.ts % bucketMs && k.price == p.price && k.side == p.side
  {
    PointKey(p.ts / bucketMs * bucketMs, p.price, p.side)
  }

  predicate Touches(p: Payload) {
    p.refillCount > 0 || p.executedRefill > 0 || p.withdrawnRefill > 0
  }

  function Touched(prior: Point, p: Payload): Point {
    var count := prior.count + Max(0, p.refillCount);
    var total := prior.total + p.refillContracts;
    Point(prior.orderIds + {p.key}, count, total,
          Min(total, prior.executed + Max(0, p.executedRefill)),
          prior.withdrawn + Max(0, p.withdrawnRefill),
          if prior.thresholdTime <= 0 && count >= MIN_COUNT then p.ts else prior.thresholdTime,
          p.ts)
  }

  /** Adds one payload to the tallies. */
  function Tally(points: map<PointKey, Point>, p: Payload, bucketMs: int): map<PointKey, Point>
    requires bucketMs > 0
  {
    if !Touches(p) then points
    else
      var k := PointKeyOf(p, bucketMs);
      var prior := if k in points then points[k] else Point({}, 0, 0, 0, 0, 0, 0);
      points[k := Touched(prior, p)]
  }

  function Tallies(ps: seq<Payload>, bucketMs: int): map<PointKey, Point>
    requires bucketMs > 0
  {
    if ps == [] then map[] else Tally(Tallies(ps[..|ps| - 1], bucketMs), ps[|ps| - 1], bucketMs)
  }

  predicate Emits(p: Point, planStart: int, planEnd: int) {
    p.count >= MIN_COUNT && p.thresholdTime > 0 && planStart <= p.thresholdTime <= planEnd
  }

  function Emitting(all: map<PointKey, Point>, planStart: int, planEnd: int): map<PointKey, Point> {
    map k | k in all && Emits(all[k], planStart, planEnd) :: all[k]
  }

  /** The emitted points. */
  function Points(ps: seq<Payload>, bucketMs: int, planStart: int, planEnd: int): map<PointKey, Point>
    requires bucketMs > 0
  {
    Emitting(Tallies(ps, bucketMs), planStart, planEnd)
  }

  // ----- the refills of a point, read off the event list -----

  /** The refill events of one candle, price and side, in replay order. */
  function Refills(ps: seq<Payload>, bucketMs: int, k: PointKey): seq<Payload>
    requires bucketMs > 0
  {
    if ps == [] then []
    else
      var p := ps[|ps| - 1];
      Refills(ps[..|ps| - 1], bucketMs, k) + (if p.refillContracts > 0 && PointKeyOf(p, bucketMs) == k then [p] else [])
  }

  function ExecutedAt(ps: seq<Payload>, bucketMs: int, k: PointKey): int
    requires bucketMs > 0
  {
    if ps == [] then 0
    else
      var p := ps[|ps| - 1];
      ExecutedAt(ps[..|ps| - 1], bucketMs, k) + (if PointKeyOf(p, bucketMs) == k then p.executedRefill else 0)
  }

  function WithdrawnAt(ps: seq<Payload>, bucketMs: int, k: PointKey): int
    requires bucketMs > 0
  {
    if ps == [] then 0
    else
      var p := ps[|ps| - 1];
      WithdrawnAt(ps[..|ps| - 1], bucketMs, k) + (if PointKeyOf(p, bucketMs) == k then p.withdrawnRefill else 0)
  }

  predicate Plausible(p: Payload) {
    && p.refillContracts >= 0 && p.executedRefill >= 0 && p.withdrawnRefill >= 0
    && p.refillCount == (if p.refillContracts > 0 then 1 else 0)
  }

  /** What a tally knows about its refills. */
  predicate Exact(pt: Point, refills: seq<Payload>, executed: int, withdrawn: int) {
    && pt.count == |refills| && pt.total == Emitted(refills) && pt.total >= 0
    && 0 <= pt.executed <= pt.total && pt.executed <= executed && pt.withdrawn == withdrawn
    && pt.thresholdTime == (if |refills| >= 10 then refills[9].ts else 0)
  }

  lemma TouchedExact(prior: Point, p: Payload, refills: seq<Payload>, executed: int, withdrawn: int)
    requires Exact(prior, refills, executed, withdrawn) && Plausible(p) && p.ts > 0
    requires forall r :: r in refills ==> r.ts > 0
    ensures Exact(Touched(prior, p), refills + (if p.refillContracts > 0 then [p] else []),
                  executed + p.executedRefill, withdrawn + p.withdrawnRefill)
  {
    if p.refillContracts > 0 {
      assert (refills + [p])[..|refills|] == refills;
    } else {
      assert refills + [] == refills;
    }
  }

  lemma {:induction false} RefillsPositive(ps: seq<Payload>, bucketMs: int, k: PointKey)
    requires bucketMs > 0 && forall p :: p in ps ==> p.ts > 0
    ensures forall r :: r in Refills(ps, bucketMs, k) ==> r.ts > 0
  {
    if ps != [] {
      RefillsPositive(ps[..|ps| - 1], bucketMs, k);
    }
  }

  /** Counts, contracts and the tenth refill are exact for every candle, price and side. */
  lemma {:induction false} TalliesExact(ps: seq<Payload>, bucketMs: int, k: PointKey)
    requires bucketMs > 0 && forall p :: p in ps ==> Plausible(p) && p.ts > 0
    ensures k in Tallies(ps, bucketMs) ==>
              Exact(Tallies(ps, bucketMs)[k], Refills(ps, bucketMs, k), ExecutedAt(ps, bucketMs, k),
                    WithdrawnAt(ps, bucketMs, k))
    ensures k !in Tallies(ps, bucketMs) ==>
              Refills(ps, bucketMs, k) == [] && ExecutedAt(ps, bucketMs, k) == WithdrawnAt(ps, bucketMs, k) == 0
  {
    if ps != [] {
      var before, p := ps[..|ps| - 1], ps[|ps| - 1];
      TalliesExact(before, bucketMs, k);
      RefillsPositive(before, bucketMs, k);
      var refills := Refills(before, bucketMs, k);
      if Touches(p) && PointKeyOf(p, bucketMs) == k {
        var all := Tallies(before, bucketMs);
        var prior := if k in all then all[k] else Point({}, 0, 0, 0, 0, 0, 0);
        TouchedExact(prior, p, refills, ExecutedAt(before, bucketMs, k), WithdrawnAt(before, bucketMs, k));
      } else {
        assert refills + [] == refills;
      }
    }
  }

  function CappedAt(ps: seq<Payload>, bucketMs: int, k: PointKey): int
    requires bucketMs > 0
  {
    if k in Tallies(ps, bucketMs) then Tallies(ps, bucketMs)[k].executed else 0
  }

  /** By how much the executed refills outran the reported ones after the first `j` payloads. */
  function Overrun(ps: seq<Payload>, j: nat, bucketMs: int, k: PointKey): int
    requires bucketMs > 0 && j <= |ps|
  {
    ExecutedAt(ps[..j], bucketMs, k) - Emitted(Refills(ps[..j], bucketMs, k))
  }

  /** `worst` is the largest overrun so far; at the start there was none. */
  ghost predicate WorstOverrun(ps: seq<Payload>, bucketMs: int, k: PointKey, worst: int)
    requires bucketMs > 0
  {
    && (forall j :: 0 <= j <= |ps| ==> Overrun(ps, j, bucketMs, k) <= worst)
    && exists j :: 0 <= j <= |ps| && Overrun(ps, j, bucketMs, k) == worst
  }

  lemma OverrunStep(ps: seq<Payload>, j: nat, bucketMs: int, k: PointKey)
    requires bucketMs > 0 && j < |ps|
    ensures Overrun(ps, j, bucketMs, k) == Overrun(ps[..|ps| - 1], j, bucketMs, k)
  {
    assert ps[..|ps| - 1][..j] == ps[..j];
  }

  lemma CappedStep(ps: seq<Payload>, bucketMs: int, k: PointKey)
    requires bucketMs > 0 && ps != [] && forall p :: p in ps ==> Plausible(p) && p.ts > 0
    ensures var before := ps[..|ps| - 1];
            ExecutedAt(ps, bucketMs, k) - CappedAt(ps, bucketMs, k)
            == Max(ExecutedAt(before, bucketMs, k) - CappedAt(before, bucketMs, k), Overrun(ps, |ps|, bucketMs, k))
  {
    var before, p := ps[..|ps| - 1], ps[|ps| - 1];
    assert ps[..|ps|] == ps;
    TalliesExact(ps, bucketMs, k);
    TalliesExact(before, bucketMs, k);
    if !Touches(p) || PointKeyOf(p, bucketMs) != k {
      assert Refills(ps, bucketMs, k) == Refills(before, bucketMs, k) + [] == Refills(before, bucketMs, k);
      assert CappedAt(ps, bucketMs, k) == CappedAt(before, bucketMs, k);
    } else {
      assert k in Tallies(ps, bucketMs) && Tallies(ps, bucketMs)[k].total == Emitted(Refills(ps, bucketMs, k));
      assert CappedAt(ps, bucketMs, k) == Min(Tallies(ps, bucketMs)[k].total,
                                              CappedAt(before, bucketMs, k) + p.executedRefill);
    }
  }

  /** Main result: the capped executed contracts of a point fall short of all executed refills by exactly
      the largest amount by which they ever outran the reported refills. */
  lemma {:induction false} CappedExact(ps: seq<Payload>, bucketMs: int, k: PointKey)
    requires bucketMs > 0 && forall p :: p in ps ==> Plausible(p) && p.ts > 0
    ensures WorstOverrun(ps, bucketMs, k, ExecutedAt(ps, bucketMs, k) - CappedAt(ps, bucketMs, k))
  {
    if ps == [] {
      assert Overrun(ps, 0, bucketMs, k) == 0;
    } else {
      var before := ps[..|ps| - 1];
      CappedExact(before, bucketMs, k);
      CappedStep(ps, bucketMs, k);
      WorstStep(ps, bucketMs, k, ExecutedAt(before, bucketMs, k) - CappedAt(before, bucketMs, k));
    }
  }

  lemma WorstStep(ps: seq<Payload>, bucketMs: int, k: PointKey, worst: int)
    requires bucketMs > 0 && ps != [] && WorstOverrun(ps[..|ps| - 1], bucketMs, k, worst)
    ensures WorstOverrun(ps, bucketMs, k, Max(worst, Overrun(ps, |ps|, bucketMs, k)))
  {
    var before := ps[..|ps| - 1];
    forall j | 0 <= j < |ps| ensures Overrun(ps, j, bucketMs, k) == Overrun(before, j, bucketMs, k) {
      OverrunStep(ps, j, bucketMs, k);
    }
    var j :| 0 <= j <= |before| && Overrun(before, j, bucketMs, k) == worst;
    assert Overrun(ps, j, bucketMs, k) == worst;
  }

  function Contributors(ps: seq<Payload>, bucketMs: int, k: PointKey): set<Key>
    requires bucketMs > 0
  {
    set p | p in ps && Touches(p) && PointKeyOf(p, bucketMs) == k :: p.key
  }

  /** A tally names exactly the orders that touched it, and the last time one did. */
  lemma {:induction false} TallyOrders(ps: seq<Payload>, bucketMs: int, k: PointKey)
    requires bucketMs > 0
    ensures k in Tallies(ps, bucketMs) <==> Contributors(ps, bucketMs, k) != {}
    ensures k in Tallies(ps, bucketMs) ==>
              && Tallies(ps, bucketMs)[k].orderIds == Contributors(ps, bucketMs, k)
              && exists i :: 0 <= i < |ps| && Touches(ps[i]) && PointKeyOf(ps[i], bucketMs) == k
                             && Tallies(ps, bucketMs)[k].lastTime == ps[i].ts
                             && forall j :: i < j < |ps| ==> !Touches(ps[j]) || PointKeyOf(ps[j], bucketMs) != k
  {
    if ps != [] {
      var before, p := ps[..|ps| - 1], ps[|ps| - 1];
      TallyOrders(before, bucketMs, k);
      assert ps == before + [p];
      if Touches(p) && PointKeyOf(p, bucketMs) == k {
        assert Contributors(ps, bucketMs, k) == Contributors(before, bucketMs, k) + {p.key};
      } else {
        assert Contributors(ps, bucketMs, k) == Contributors(before, bucketMs, k);
      }
    }
  }

  lemma StepPlausible(b: Book, e: RawEvent, w: Window)
    requires BookOk(b) && w.bucketMs > 0
    ensures var p := Step(b, e, w).1; p.Some? ==> Plausible(p.value) && p.value.ts == e.ts
  {
    StepCases(b, e, w);
  }

  lemma {:induction false} RunPlausible(es: seq<RawEvent>, w: Window)
    requires w.bucketMs > 0 && forall e :: e in es ==> e.ts > 0
    ensures forall p :: p in Run(es, w).1 ==> Plausible(p) && p.ts > 0
  {
    if es != [] {
      var before, e := es[..|es| - 1], es[|es| - 1];
      RunPlausible(before, w);
      RunOk(before, w);
      StepPlausible(Replay(before, w), e, w);
    }
  }

  /** Main result: a point is emitted exactly when the tenth refill of its candle, price and side
      lies in the plan window; it then carries that refill's instant and the exact totals. */
  lemma PointsExact(es: seq<RawEvent>, w: Window, planStart: int, planEnd: int, k: PointKey)
    requires w.bucketMs > 0 && forall e :: e in es ==> e.ts > 0
    ensures var ps := Run(es, w).1;
            var refills := Refills(ps, w.bucketMs, k);
            && (k in Points(ps, w.bucketMs, planStart, planEnd) <==>
                  |refills| >= 10 && planStart <= refills[9].ts <= planEnd)
            && (k in Points(ps, w.bucketMs, planStart, planEnd) ==>
                  var pt := Points(ps, w.bucketMs, planStart, planEnd)[k];
                  && pt.thresholdTime == refills[9].ts
                  && pt.count == |refills| && pt.total == Emitted(refills)
                  && pt.executed <= pt.total
                  && WorstOverrun(ps, w.bucketMs, k, ExecutedAt(ps, w.bucketMs, k) - pt.executed)
                  && pt.withdrawn == WithdrawnAt(ps, w.bucketMs, k))
  {
    var ps := Run(es, w).1;
    RunPlausible(es, w);
    TalliesExact(ps, w.bucketMs, k);
    CappedExact(ps, w.bucketMs, k);
    RefillsPositive(ps, w.bucketMs, k);
  }
}
