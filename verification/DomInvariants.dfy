/** What every event keeps: orders split exactly into existing quantity and refill lots, price levels
    cover the live orders, and refill contracts are conserved. */
module DomInvariants {
  import opened Wrappers
  import opened DomModel

  // ----- refill lots as units -----

  predicate LotsOk(lots: seq<Lot>, price: Price, side: Side) {
    forall l :: l in lots ==> l.qty > 0 && l.price == price && l.side == side
  }

  predicate OrderOk(key: Key, o: Order) {
    && o.id == key && o.side != NoSide
    && o.size >= 0 && o.pending >= 0 && o.existing >= 0
    && LotsOk(o.lots, o.price, o.side)
    && o.existing + LotSum(o.lots) == o.size
  }

  /** One refilled contract. */
  datatype Unit = Unit(openTime: int, price: Price, side: Side)

  function Repeat(u: Unit, n: int): (r: seq<Unit>)
    ensures |r| == Max(0, n) && forall i :: 0 <= i < |r| ==> r[i] == u
    decreases Max(0, n)
  {
    if n <= 0 then [] else [u] + Repeat(u, n - 1)
  }

  function UnitOf(l: Lot): Unit { Unit(l.openTime, l.price, l.side) }

  function Units(lots: seq<Lot>): seq<Unit> {
    if lots == [] then [] else Repeat(UnitOf(lots[0]), lots[0].qty) + Units(lots[1..])
  }

  lemma {:induction false} UnitsCount(lots: seq<Lot>, price: Price, side: Side)
    requires LotsOk(lots, price, side)
    ensures |Units(lots)| == LotSum(lots) >= 0
    ensures lots != [] ==> LotSum(lots) > 0
  {
    if lots != [] {
      UnitsCount(lots[1..], price, side);
    }
  }

  lemma {:induction false} LotSumAppend(lots: seq<Lot>, l: Lot)
    ensures LotSum(lots + [l]) == LotSum(lots) + l.qty
  {
    if lots != [] {
      assert (lots + [l])[1..] == lots[1..] + [l];
      LotSumAppend(lots[1..], l);
    } else {
      assert lots + [l] == [l];
    }
  }

  lemma {:induction false} ConsumeNothing(lots: seq<Lot>, qty: int, price: Price, side: Side)
    requires LotsOk(lots, price, side) && qty <= 0
    ensures ConsumeLots(lots, qty) == (lots, 0)
  {
    if lots != [] {
      ConsumeNothing(lots[1..], qty, price, side);
      assert [lots[0]] + lots[1..] == lots;
    }
  }

  /** Exactly min(wanted, available) contracts leave the lots, and no other lot changes. */
  lemma {:induction false} ConsumeLotsExact(lots: seq<Lot>, qty: nat, price: Price, side: Side)
    requires LotsOk(lots, price, side)
    ensures var (left, taken) := ConsumeLots(lots, qty);
            && LotsOk(left, price, side)
            && taken == Min(qty, LotSum(lots)) && LotSum(lots) >= 0
            && LotSum(left) == LotSum(lots) - taken
  {
    if lots != [] {
      var l, tail := lots[0], lots[1..];
      assert LotsOk(tail, price, side);
      UnitsCount(tail, price, side);
      if qty < l.qty {
        ConsumeNothing(tail, 0, price, side);
        var left := l.(qty := l.qty - qty);
        assert ConsumeLots(lots, qty) == ([left] + tail, qty);
        assert ([left] + tail)[1..] == tail;
      } else {
        ConsumeLotsExact(tail, qty - l.qty, price, side);
        var (rest, taken) := ConsumeLots(tail, qty - l.qty);
        assert [] + rest == rest;
        assert ConsumeLots(lots, qty) == (rest, l.qty + taken);
      }
    }
  }

  lemma UnitsCons(l: Lot, rest: seq<Lot>)
    ensures Units([l] + rest) == Repeat(UnitOf(l), l.qty) + Units(rest)
  {
    assert ([l] + rest)[1..] == rest;
  }

  lemma DropFront<T>(front: seq<T>, back: seq<T>, n: nat)
    requires n <= |front| + |back|
    ensures (front + back)[n..] == if n <= |front| then front[n..] + back else back[n - |front|..]
  {
  }

  /** Lots are used first in, first out: what is left is the line of contracts without the ones
      taken from its front. */
  lemma {:induction false} ConsumeLotsFifo(lots: seq<Lot>, qty: nat, price: Price, side: Side)
    requires LotsOk(lots, price, side)
    ensures var (left, taken) := ConsumeLots(lots, qty);
            0 <= taken <= |Units(lots)| && Units(left) == Units(lots)[taken..]
  {
    if lots != [] {
      var l, tail := lots[0], lots[1..];
      assert LotsOk(tail, price, side);
      if qty < l.qty {
        FifoWithin(l, tail, qty, price, side);
      } else {
        ConsumeLotsFifo(tail, qty - l.qty, price, side);
        FifoBeyond(l, tail, qty);
      }
      assert lots == [l] + tail;
    }
  }

  /** The first lot is not used up. */
  lemma FifoWithin(l: Lot, tail: seq<Lot>, qty: nat, price: Price, side: Side)
    requires LotsOk(tail, price, side) && qty < l.qty
    ensures var (left, taken) := ConsumeLots([l] + tail, qty);
            0 <= taken <= |Units([l] + tail)| && Units(left) == Units([l] + tail)[taken..]
  {
    var left := l.(qty := l.qty - qty);
    ConsumeNothing(tail, 0, price, side);
    assert ([l] + tail)[1..] == tail;
    assert ConsumeLots([l] + tail, qty) == ([left] + tail, qty);
    UnitsCons(l, tail);
    UnitsCons(left, tail);
    DropFront(Repeat(UnitOf(l), l.qty), Units(tail), qty);
    assert Repeat(UnitOf(left), left.qty) == Repeat(UnitOf(l), l.qty)[qty..];
  }

  /** The first lot is used up and the rest of the quantity comes from the tail. */
  lemma FifoBeyond(l: Lot, tail: seq<Lot>, qty: nat)
    requires 0 < l.qty <= qty
    requires var (left, taken) := ConsumeLots(tail, qty - l.qty);
             0 <= taken <= |Units(tail)| && Units(left) == Units(tail)[taken..]
    ensures var (left, taken) := ConsumeLots([l] + tail, qty);
            0 <= taken <= |Units([l] + tail)| && Units(left) == Units([l] + tail)[taken..]
  {
    var (rest, taken) := ConsumeLots(tail, qty - l.qty);
    assert ([l] + tail)[1..] == tail && [] + rest == rest;
    assert ConsumeLots([l] + tail, qty) == (rest, l.qty + taken);
    UnitsCons(l, tail);
    DropFront(Repeat(UnitOf(l), l.qty), Units(tail), l.qty + taken);
  }

  /** Existing quantity goes first, then lots, and exactly min(quantity, available) in all. */
  lemma ConsumeExact(key: Key, o: Order, quantity: int)
    requires OrderOk(key, o)
    ensures var c := Consume(o, quantity);
            && c.fromExisting + c.fromLots == Min(Max(0, quantity), o.size)
            && (c.fromLots > 0 ==> c.existing == 0)
            && c.existing == o.existing - c.fromExisting >= 0
            && LotsOk(c.lots, o.price, o.side)
            && LotSum(c.lots) == LotSum(o.lots) - c.fromLots
            && 0 <= c.fromLots && 0 <= LotSum(c.lots)
            && c.existing + LotSum(c.lots) == o.size - Min(Max(0, quantity), o.size)
  {
    var wanted := Max(0, quantity);
    var fromExisting := Min(wanted, Max(0, o.existing));
    ConsumeLotsExact(o.lots, wanted - fromExisting, o.price, o.side);
  }

  // ----- one event on one order -----

  /** A cancel that leaves part of the order but is not spelled "C": the rest of the order is
      dropped while its depth stays on the level. */
  predicate DropsRemainder(o: Order, e: RawEvent) {
    EventType(e.action) == CancelDelete && e.action != "C" && 0 < e.size < o.size
  }

  function GhostDepth(previous: Option<Order>, e: RawEvent): int {
    if previous.Some? && DropsRemainder(previous.value, e) then previous.value.size - e.size else 0
  }

  /** Refill contracts that vanish without being reported. */
  function LostRefill(previous: Option<Order>, e: RawEvent): int {
    if previous.None? then 0
    else if EventType(e.action) == Add then LotSum(previous.value.lots)
    else if DropsRemainder(previous.value, e) then LotSum(Consume(previous.value, e.size).lots)
    else 0
  }

  /** Events whose reported net change is not the change of the resting depth: an add over a live
      order, a modify of an unknown order and a cancel of an unknown order. */
  predicate Misreports(previous: Option<Order>, e: RawEvent) {
    match EventType(e.action)
    case Add => SizeOf(previous) > 0
    case Modify => previous.None? && e.size > 0
    case CancelDelete => previous.None? && e.size > 0
    case _ => false
  }

  predicate Tracked(kind: Kind) {
    kind in {Add, Modify, Execute, CancelDelete}
  }

  predicate SameLevel(a: Order, b: Order) {
    a.side == b.side && a.price == b.price
  }

  /** The laws of a change, whatever the event. */
  predicate Lawful(previous: Option<Order>, e: RawEvent, key: Key, c: Change) {
    && (c.next.Some? ==> OrderOk(key, c.next.value))
    && 0 <= c.out <= SizeOf(previous) && 0 <= c.deposit
    && GhostDepth(previous, e) >= 0 && LostRefill(previous, e) >= 0
    // depth leaves the old level and reaches the new one
    && (c.next.None? ==> c.deposit == 0 && SizeOf(previous) == c.out + GhostDepth(previous, e))
    && (c.next.Some? ==>
          && GhostDepth(previous, e) == 0
          && ((c.out == SizeOf(previous) && c.deposit == c.next.value.size)
              || (previous.Some? && SameLevel(previous.value, c.next.value) && c.deposit == 0
                  && c.next.value.size == previous.value.size - c.out)))
    // refill contracts are conserved
    && c.payload.executedRefill >= 0 && c.payload.withdrawnRefill >= 0
    && LotSum(LotsOf(previous)) + c.payload.refillContracts
       == c.payload.executedRefill + c.payload.withdrawnRefill + LotSum(LotsOf(c.next)) + LostRefill(previous, e)
    && c.payload.refillCount == (if c.payload.refillContracts > 0 then 1 else 0)
    && c.payload.refillContracts >= 0
    // the reported net change
    && (c.payload.netChange == c.deposit - c.out <==> !Misreports(previous, e))
  }

  lemma ModifiedLawful(o: Order, e: RawEvent, key: Key, price: Price, side: Side, next: Order, refill: int,
                       withdrawn: int)
    requires OrderOk(key, o) && EventType(e.action) == Modify
    requires OrderOk(key, next) && next.size == Max(0, e.size)
    requires refill >= 0 && withdrawn >= 0
    requires LotSum(o.lots) + refill == withdrawn + LotSum(next.lots)
    ensures Lawful(Some(o), e, key, Modified(o, e, key, price, side, next, refill, withdrawn))
  {
    UnitsCount(next.lots, next.price, next.side);
  }

  /** A new price or side: the whole order is withdrawn and starts afresh. */
  lemma MovedLawful(o: Order, e: RawEvent, key: Key, price: Price, side: Side, next: Order)
    requires OrderOk(key, o) && side != NoSide && EventType(e.action) == Modify
    requires next == Order(o.id, side, price, Max(0, e.size), e.ts, e.ts, 0, Max(0, e.size), [])
    ensures Lawful(Some(o), e, key, Modified(o, e, key, price, side, next, 0, Consume(o, o.size).fromLots))
  {
    ConsumeExact(key, o, o.size);
    ModifiedLawful(o, e, key, price, side, next, 0, Consume(o, o.size).fromLots);
  }

  lemma ModifyLawful(o: Order, e: RawEvent, key: Key, price: Price, side: Side, bucketMs: int)
    requires OrderOk(key, o) && side != NoSide && bucketMs > 0 && EventType(e.action) == Modify
    ensures Lawful(Some(o), e, key, ModifyKnown(o, e, key, price, side, bucketMs))
  {
    var newSize := Max(0, e.size);
    var delta := newSize - o.size;
    var next := o.(side := side, price := price, size := newSize, startedAt := e.ts, updatedAt := e.ts,
                   pending := Max(0, o.pending));
    if price != o.price || side != o.side {
      MovedLawful(o, e, key, price, side, next.(pending := 0, existing := newSize, lots := []));
    } else {
      ResizedLawful(o, e, key, bucketMs, next);
    }
  }

  /** The same level: the order shrinks, is refilled, or grows by plain quantity. */
  lemma ResizedLawful(o: Order, e: RawEvent, key: Key, bucketMs: int, next: Order)
    requires OrderOk(key, o) && bucketMs > 0 && EventType(e.action) == Modify
    requires next == o.(size := Max(0, e.size), startedAt := e.ts, updatedAt := e.ts, pending := Max(0, o.pending))
    ensures Lawful(Some(o), e, key, ModifyKnown(o, e, key, o.price, o.side, bucketMs))
  {
    if next.size < o.size {
      ShrunkLawful(o, e, key, bucketMs, next);
    } else if next.size > o.size && (o.pending > 0 || o.lots != []) {
      RefilledLawful(o, e, key, bucketMs, next);
    } else {
      GrownLawful(o, e, key, bucketMs, next);
    }
  }

  lemma ShrunkLawful(o: Order, e: RawEvent, key: Key, bucketMs: int, next: Order)
    requires OrderOk(key, o) && bucketMs > 0 && EventType(e.action) == Modify
    requires next == o.(size := Max(0, e.size), startedAt := e.ts, updatedAt := e.ts, pending := Max(0, o.pending))
    requires next.size < o.size
    ensures Lawful(Some(o), e, key, ModifyKnown(o, e, key, o.price, o.side, bucketMs))
  {
    var c := Consume(o, o.size - next.size);
    ConsumeExact(key, o, o.size - next.size);
    ModifiedLawful(o, e, key, o.price, o.side, next.(existing := c.existing, lots := c.lots), 0, c.fromLots);
  }

  lemma RefilledLawful(o: Order, e: RawEvent, key: Key, bucketMs: int, next: Order)
    requires OrderOk(key, o) && bucketMs > 0 && EventType(e.action) == Modify
    requires next == o.(size := Max(0, e.size), startedAt := e.ts, updatedAt := e.ts, pending := Max(0, o.pending))
    requires next.size > o.size && (o.pending > 0 || o.lots != [])
    ensures Lawful(Some(o), e, key, ModifyKnown(o, e, key, o.price, o.side, bucketMs))
  {
    var lot := Lot(e.ts / bucketMs * bucketMs, o.price, o.side, next.size - o.size);
    LotSumAppend(o.lots, lot);
    ModifiedLawful(o, e, key, o.price, o.side, next.(pending := 0, lots := o.lots + [lot]), lot.qty, 0);
  }

  lemma GrownLawful(o: Order, e: RawEvent, key: Key, bucketMs: int, next: Order)
    requires OrderOk(key, o) && bucketMs > 0 && EventType(e.action) == Modify
    requires next == o.(size := Max(0, e.size), startedAt := e.ts, updatedAt := e.ts, pending := Max(0, o.pending))
    requires next.size >= o.size && !(next.size > o.size && (o.pending > 0 || o.lots != []))
    ensures Lawful(Some(o), e, key, ModifyKnown(o, e, key, o.price, o.side, bucketMs))
  {
    ModifiedLawful(o, e, key, o.price, o.side, next.(existing := o.existing + next.size - o.size), 0, 0);
  }

  lemma ExecuteLawful(o: Order, e: RawEvent, key: Key, price: Price, side: Side)
    requires OrderOk(key, o) && EventType(e.action) == Execute
    ensures Lawful(Some(o), e, key, ExecuteKnown(o, e, key, price, side))
  {
    ConsumeExact(key, o, Min(Max(0, e.size), Max(0, o.size)));
  }

  lemma CancelLawful(o: Order, e: RawEvent, key: Key, price: Price, side: Side)
    requires OrderOk(key, o) && EventType(e.action) == CancelDelete
    ensures Lawful(Some(o), e, key, CancelKnown(o, e, key, price, side))
  {
    ConsumeExact(key, o, CanceledOf(o, e));
    ConsumeExact(key, o, e.size);
  }

  lemma ChangeLawful(previous: Option<Order>, e: RawEvent, key: Key, price: Price, side: Side, bucketMs: int)
    requires Tracked(EventType(e.action)) && side != NoSide && bucketMs > 0
    requires previous.Some? ==> OrderOk(key, previous.value)
    ensures Lawful(previous, e, key, ChangeOf(previous, e, key, price, side, bucketMs))
  {
    if previous.Some? {
      var o := previous.value;
      UnitsCount(o.lots, o.price, o.side);
      match EventType(e.action)
      case Modify => ModifyLawful(o, e, key, price, side, bucketMs);
      case Execute => ExecuteLawful(o, e, key, price, side);
      case CancelDelete => CancelLawful(o, e, key, price, side);
      case _ =>
    }
  }
}
