/** The replay as the engine runs it: order objects whose quantities change in place, level tables,
    a growing segment log, and the driver loop over the delivered events. Every method is proved
    against the functions of DomModel. */
module DomReplay {
  import opened Wrappers
  import opened DomModel
  import opened DomInvariants
  import opened DomLevels

  lemma {:induction false} ConsumeNone(lots: seq<Lot>, qty: int)
    requires qty <= 0
    ensures ConsumeLots(lots, qty) == (LiveLots(lots), 0)
  {
    if lots != [] {
      ConsumeNone(lots[1..], qty);
    }
  }

  lemma {:induction false} LiveLotsAppend(a: seq<Lot>, b: seq<Lot>)
    ensures LiveLots(a + b) == LiveLots(a) + LiveLots(b)
  {
    if a == [] {
      assert a + b == b;
    } else {
      var head := if a[0].qty > 0 then [a[0]] else [];
      LiveLotsAppend(a[1..], b);
      assert (a + b)[1..] == a[1..] + b;
      assert head + (LiveLots(a[1..]) + LiveLots(b)) == head + LiveLots(a[1..]) + LiveLots(b);
    }
  }

  lemma {:induction false} TakeStep(done: seq<Lot>, rest: seq<Lot>, remaining: int)
    requires rest != [] && remaining > 0
    ensures var amount := Min(remaining, Max(0, rest[0].qty));
            var left := rest[0].(qty := rest[0].qty - amount);
            && LiveLots(done) + ConsumeLots(rest, remaining).0
               == LiveLots(done + [left]) + ConsumeLots(rest[1..], remaining - amount).0
            && ConsumeLots(rest, remaining).1 == amount + ConsumeLots(rest[1..], remaining - amount).1
  {
    var amount := Min(remaining, Max(0, rest[0].qty));
    var left := rest[0].(qty := rest[0].qty - amount);
    var head := if left.qty > 0 then [left] else [];
    var tail := ConsumeLots(rest[1..], remaining - amount).0;
    assert LiveLots([left]) == head;
    LiveLotsAppend(done, [left]);
    RegroupLots(LiveLots(done), head, tail);
  }

  lemma RegroupLots(a: seq<Lot>, b: seq<Lot>, c: seq<Lot>)
    ensures a + (b + c) == a + b + c
  {
  }

  class OrderState {
    const id: Key
    const side: Side
    const price: Price
    const size: int
    const startedAt: int
    const updatedAt: int
    var pending: int
    var existing: int
    var lots: seq<Lot>

    constructor (o: Order)
      ensures Value() == o
    {
      id, side, price, size := o.id, o.side, o.price, o.size;
      startedAt, updatedAt := o.startedAt, o.updatedAt;
      pending, existing, lots := o.pending, o.existing, o.lots;
    }

    function Value(): Order
      reads this
    {
      Order(id, side, price, size, startedAt, updatedAt, pending, existing, lots)
    }

    /** Takes up to `wanted` contracts from the front of the lots and drops the emptied ones. */
    method TakeFromLots(wanted: int) returns (taken: int)
      modifies this`lots
      ensures (lots, taken) == ConsumeLots(old(lots), wanted)
    {
      var remaining, i := wanted, 0;
      taken := 0;
      ghost var start := lots;
      assert lots[..0] == [] && start[0..] == start;
      while i < |lots| && remaining > 0
        invariant 0 <= i <= |lots| == |start|
        invariant lots[i..] == start[i..]
        invariant LiveLots(lots[..i]) + ConsumeLots(start[i..], remaining).0 == ConsumeLots(start, wanted).0
        invariant taken + ConsumeLots(start[i..], remaining).1 == ConsumeLots(start, wanted).1
      {
        var amount := Min(remaining, Max(0, lots[i].qty));
        var left := lots[i].(qty := lots[i].qty - amount);
        TakeStep(lots[..i], start[i..], remaining);
        assert lots[i := left][..i + 1] == lots[..i] + [left];
        assert start[i..][1..] == start[i + 1..];
        lots := lots[i := left];
        remaining := remaining - amount;
        taken := taken + amount;
        i := i + 1;
      }
      assert lots == lots[..i] + start[i..];
      LiveLotsAppend(lots[..i], start[i..]);
      if remaining <= 0 {
        ConsumeNone(start[i..], remaining);
      } else {
        assert start[i..] == [];
      }
      lots := LiveLots(lots);
    }

    /** Uses up `quantity`: existing contracts first, then the lots from the front. */
    method ConsumeLiquidity(quantity: int) returns (fromExisting: int, fromLots: int)
      modifies this`existing, this`lots
      ensures Consumed(existing, lots, fromExisting, fromLots) == Consume(old(Value()), quantity)
    {
      var remaining := Max(0, quantity);
      fromExisting := Min(remaining, Max(0, existing));
      existing := existing - fromExisting;
      fromLots := TakeFromLots(remaining - fromExisting);
    }

    /** What a MODIFY does to the quantities of an order before the order is replaced. */
    method Reshape(e: RawEvent, price: Price, side: Side, bucketMs: int)
      returns (refill: int, withdrawn: int, pendingAfter: int)
      requires bucketMs > 0
      modifies this`pending, this`existing, this`lots
      ensures ModifyKnown(old(Value()), e, id, price, side, bucketMs)
           == Modified(old(Value()), e, id, price, side,
                       Order(id, side, price, Max(0, e.size), e.ts, e.ts, pendingAfter, existing, lots),
                       refill, withdrawn)
    {
      var newSize := Max(0, e.size);
      var delta := newSize - size;
      var changed := price != this.price || side != this.side;
      withdrawn := 0;
      if changed {
        var _, taken := ConsumeLiquidity(size);
        withdrawn := taken;
        existing, lots, pending := newSize, [], 0;
      }
      refill := if !changed && (pending > 0 || lots != []) then Max(0, newSize - size) else 0;
      pendingAfter := Max(0, if refill > 0 then 0 else pending);
      if !changed && delta < 0 {
        var _, taken := ConsumeLiquidity(-delta);
        withdrawn := taken;
      } else if !changed && refill > 0 {
        lots := lots + [Lot(e.ts / bucketMs * bucketMs, price, side, refill)];
      } else if !changed && delta > 0 {
        existing := existing + delta;
      }
    }
  }

  lemma AdjustNothing(l: Levels, side: Side, price: Price)
    requires PositiveLevels(l)
    ensures Adjust(l, side, price, 0) == l
  {
    assert AdjustMap(l.bids, price, 0) == l.bids;
    assert AdjustMap(l.asks, price, 0) == l.asks;
  }

  lemma {:induction false} CloseAllRemove(orders: map<Key, Order>, k: Key, end: int, w: Window)
    requires k in orders
    ensures CloseAll(orders, end, w) == CloseSegment(orders[k], end, w) + CloseAll(orders - {k}, end, w)
    decreases |orders|
  {
    var j :| j in orders
              && CloseAll(orders, end, w) == CloseSegment(orders[j], end, w) + CloseAll(orders - {j}, end, w);
    if j != k {
      var withoutJ, withoutK := orders - {j}, orders - {k};
      assert orders.Keys == withoutJ.Keys + {j} && orders.Keys == withoutK.Keys + {k};
      assert withoutJ - {k} == withoutK - {j};
      CloseAllRemove(withoutJ, k, end, w);
      CloseAllRemove(withoutK, j, end, w);
      SwapBags(CloseSegment(orders[j], end, w), CloseSegment(orders[k], end, w), CloseAll(withoutJ - {k}, end, w));
    }
  }

  lemma SwapBags(a: multiset<Segment>, b: multiset<Segment>, rest: multiset<Segment>)
    ensures a + (b + rest) == b + (a + rest)
  {
  }

  /** An order of which at most the existing quantity, the lots and the pending refill differ. */
  predicate OnlyQuantities(o: Order, m: Order) { m == o.(existing := m.existing, lots := m.lots, pending := m.pending) }

  /** Installing over a live order of which only the inner quantities have moved since the book was `b`. */
  lemma InstallKnown(b: Book, mid: Book, b': Book, key: Key, c: Change, ts: int, w: Window)
    requires key in b.orders && key in mid.orders && mid == b.(orders := b.orders[key := mid.orders[key]])
    requires var m := mid.orders[key]; m == b.orders[key].(existing := m.existing, lots := m.lots, pending := m.pending)
    requires b'.orders == if c.next.Some? then mid.orders[key := c.next.value] else mid.orders - {key}
    requires b'.levels == Deposited(Deposited(mid.levels, Some(mid.orders[key]), -c.out), c.next, c.deposit)
    requires b'.segments == mid.segments + CloseSegment(mid.orders[key], ts, w) && b'.synthetic == mid.synthetic
    ensures b' == Install(b, key, c, ts, w)
  {
    if c.next.Some? {
      assert mid.orders[key := c.next.value] == b.orders[key := c.next.value];
    } else {
      assert mid.orders - {key} == b.orders - {key};
    }
  }

  lemma InstallUnknown(b: Book, b': Book, key: Key, c: Change, ts: int, w: Window)
    requires key !in b.orders && b'.synthetic == b.synthetic && b'.segments == b.segments
    requires b'.orders == if c.next.Some? then b.orders[key := c.next.value] else b.orders
    requires b'.levels == Deposited(b.levels, c.next, c.deposit)
    ensures b' == Install(b, key, c, ts, w)
  {
    assert b.orders - {key} == b.orders;
    assert b.segments + multiset{} == b.segments;
  }

  lemma CloseStep(log: multiset<Segment>, open: map<Key, Order>, k: Key, end: int, w: Window)
    requires k in open
    ensures log + CloseSegment(open[k], end, w) + CloseAll(open - {k}, end, w) == log + CloseAll(open, end, w)
  {
    CloseAllRemove(open, k, end, w);
  }

  class DomBook {
    var orders: map<Key, OrderState>
    var bidLevels: map<Price, int>
    var askLevels: map<Price, int>
    var segments: seq<Segment>
    var synthetic: nat

    ghost function Orders(): map<Key, Order>
      reads this`orders, orders.Values
    {
      map k | k in orders :: orders[k].Value()
    }

    ghost function Value(): Book
      reads this, orders.Values
    {
      Book(Orders(), Levels(bidLevels, askLevels), multiset(segments), synthetic)
    }

    /** Keys match ids, so no order object is shared. */
    ghost predicate Separate()
      reads this`orders
    {
      forall k :: k in orders ==> orders[k].id == k
    }

    ghost predicate Valid()
      reads this, orders.Values
    {
      Separate() && BookOk(Value())
    }

    constructor ()
      ensures Valid() && Value() == EmptyBook && fresh(orders.Values)
    {
      orders, bidLevels, askLevels, segments, synthetic := map[], map[], map[], [], 0;
    }

    method AdjustLevel(side: Side, price: Price, delta: int)
      modifies this`bidLevels, this`askLevels
      ensures Levels(bidLevels, askLevels) == Adjust(old(Levels(bidLevels, askLevels)), side, price, delta)
    {
      var levels := if side == Bid then bidLevels else askLevels;
      var next := (if price in levels then levels[price] else 0) + delta;
      levels := if next > 0 then levels[price := next] else levels - {price};
      if side == Bid {
        bidLevels := levels;
      } else {
        askLevels := levels;
      }
    }

    method CloseSegmentOf(o: Order, end: int, w: Window)
      modifies this`segments
      ensures multiset(segments) == old(multiset(segments)) + CloseSegment(o, end, w)
    {
      if o.size <= 0 || end <= o.startedAt || end < w.visStart || o.startedAt > w.visEnd || !PriceInRange(o.price, w) {
        return;
      }
      segments := segments + [Segment(Max(o.startedAt, w.visStart), Min(end, w.visEnd), o.price, o.side, o.id, o.size)];
    }

    method CloseAllSegments(end: int, w: Window)
      modifies this`segments
      ensures multiset(segments) == old(multiset(segments)) + CloseAll(Orders(), end, w)
    {
      CloseEach(map k | k in orders :: orders[k].Value(), end, w);
    }

    method CloseEach(all: map<Key, Order>, end: int, w: Window)
      modifies this`segments
      ensures multiset(segments) == old(multiset(segments)) + CloseAll(all, end, w)
    {
      var open := all;
      ghost var target := multiset(segments) + CloseAll(open, end, w);
      while open != map[]
        invariant multiset(segments) + CloseAll(open, end, w) == target
        decreases |open|
      {
        var k :| k in open;
        CloseStep(multiset(segments), open, k, end, w);
        CloseSegmentOf(open[k], end, w);
        assert open.Keys == (open - {k}).Keys + {k};
        open := open - {k};
      }
    }

    /** Puts `next` in place of the order `key`, or removes it. */
    method Place(key: Key, next: Option<Order>)
      requires Separate() && (next.Some? ==> next.value.id == key)
      modifies this`orders
      ensures Separate() && fresh(orders.Values - old(orders.Values))
      ensures Orders() == if next.Some? then old(Orders())[key := next.value] else old(Orders()) - {key}
    {
      if next.Some? {
        var state := new OrderState(next.value);
        orders := orders[key := state];
      } else {
        orders := orders - {key};
      }
    }

    method ConsumeOrder(key: Key, quantity: int) returns (c: Consumed)
      requires key in orders && Separate()
      modifies orders[key]
      ensures var o := old(Orders())[key];
              c == Consume(o, quantity) && Orders() == old(Orders())[key := o.(existing := c.existing, lots := c.lots)]
    {
      var fromExisting, fromLots := orders[key].ConsumeLiquidity(quantity);
      c := Consumed(orders[key].existing, orders[key].lots, fromExisting, fromLots);
    }

    method ReshapeOrder(key: Key, e: RawEvent, price: Price, side: Side,
                        bucketMs: int) returns (next: Order, refill: int, withdrawn: int)
      requires key in orders && Separate() && bucketMs > 0
      modifies orders[key]
      ensures var o := old(Orders())[key];
              && ModifyKnown(o, e, key, price, side, bucketMs)
                 == Modified(o, e, key, price, side, next, refill, withdrawn)
              && next.size == Max(0, e.size)
              && Orders() == old(Orders())[key := Orders()[key]]
              && OnlyQuantities(o, Orders()[key])
    {
      var o := orders[key];
      var moreRefill, moreWithdrawn, pending := o.Reshape(e, price, side, bucketMs);
      refill, withdrawn := moreRefill, moreWithdrawn;
      next := Order(key, side, price, Max(0, e.size), e.ts, e.ts, pending, o.existing, o.lots);
    }

    /** Takes `out` off the level of the leaving order and adds what the next one deposits. */
    method MoveDepth(leaving: Order, out: int, next: Option<Order>, deposit: int)
      requires PositiveLevels(Levels(bidLevels, askLevels)) && deposit >= 0
      modifies this`bidLevels, this`askLevels
      ensures Levels(bidLevels, askLevels)
           == Deposited(Deposited(old(Levels(bidLevels, askLevels)), Some(leaving), -out), next, deposit)
    {
      AdjustLevel(leaving.side, leaving.price, -out);
      LevelsStayPositive(old(Levels(bidLevels, askLevels)), Some(leaving), -out);
      if next.Some? {
        if deposit > 0 {
          AdjustLevel(next.value.side, next.value.price, deposit);
        } else {
          AdjustNothing(Levels(bidLevels, askLevels), next.value.side, next.value.price);
        }
      }
    }

    /** Ends the resting of an order, takes `out` off its level and lets `next` take its place. */
    method Settle(key: Key, out: int, next: Option<Order>, deposit: int, ts: int, w: Window)
      requires key in orders && PositiveLevels(Levels(bidLevels, askLevels)) && deposit >= 0
      requires Separate() && (next.Some? ==> next.value.id == key)
      modifies this`orders, this`bidLevels, this`askLevels, this`segments
      ensures Separate() && fresh(orders.Values - old(orders.Values))
      ensures Orders() == if next.Some? then old(Orders())[key := next.value] else old(Orders()) - {key}
      ensures var o := old(Orders())[key];
              && Levels(bidLevels, askLevels)
                 == Deposited(Deposited(old(Levels(bidLevels, askLevels)), Some(o), -out), next, deposit)
              && multiset(segments) == old(multiset(segments)) + CloseSegment(o, ts, w)
    {
      var o := orders[key].Value();
      CloseSegmentOf(o, ts, w);
      MoveDepth(o, out, next, deposit);
      Place(key, next);
    }

    /** Settles an order whose quantities alone have moved since the book was `b`. */
    method Commit(ghost b: Book, key: Key, ghost c: Change, out: int, next: Option<Order>, deposit: int, ts: int,
                  w: Window)
      requires key in orders && key in b.orders && Separate() && BookOk(b) && deposit >= 0
      requires c.out == out && c.next == next && c.deposit == deposit
      requires next.Some? ==> next.value.id == key
      requires Value() == b.(orders := b.orders[key := Orders()[key]])
      requires OnlyQuantities(b.orders[key], Orders()[key])
      modifies this`orders, this`bidLevels, this`askLevels, this`segments
      ensures Separate() && fresh(orders.Values - old(orders.Values))
      ensures Value() == Install(b, key, c, ts, w)
    {
      ghost var mid := Value();
      Settle(key, out, next, deposit, ts, w);
      InstallKnown(b, mid, Value(), key, c, ts, w);
    }

    method ApplyAdd(e: RawEvent, key: Key, price: Price, side: Side, w: Window) returns (p: Payload)
      requires Valid() && side != NoSide
      modifies this`orders, this`bidLevels, this`askLevels, this`segments
      ensures Separate() && fresh(orders.Values - old(orders.Values))
      ensures Value() == Install(old(Value()), key, AddChange(Lookup(old(Value()), key), e, key, price, side), e.ts, w)
      ensures p == AddChange(Lookup(old(Value()), key), e, key, price, side).payload
    {
      ghost var b := Value();
      ghost var c := AddChange(Lookup(b, key), e, key, price, side);
      var next := Opened(e, key, price, side);
      var previous: Option<Order> := None;
      if key in orders {
        previous := Some(orders[key].Value());
        Commit(b, key, c, orders[key].size, Some(next), next.size, e.ts, w);
      } else {
        Place(key, Some(next));
        AdjustLevel(side, price, next.size);
        InstallUnknown(b, Value(), key, c, e.ts, w);
      }
      p := Report(e, key, price, side, previous, Some(next)).(added := next.size, netChange := next.size);
    }

    method ModifyAbsent(e: RawEvent, key: Key, price: Price, side: Side, w: Window) returns (p: Payload)
      requires Valid() && side != NoSide && key !in orders
      modifies this`orders, this`bidLevels, this`askLevels
      ensures Separate() && fresh(orders.Values - old(orders.Values))
      ensures Value() == Install(old(Value()), key, ModifyUnknown(e, key, price, side), e.ts, w)
      ensures p == ModifyUnknown(e, key, price, side).payload
    {
      ghost var b := Value();
      var next := Opened(e, key, price, side);
      Place(key, Some(next));
      AdjustLevel(side, price, next.size);
      InstallUnknown(b, Value(), key, ModifyUnknown(e, key, price, side), e.ts, w);
      p := Report(e, key, price, side, None, Some(next)).(
      added := next.size, modifiedDelta := next.size, netChange := next.size + next.size);
    }

    method ModifyPresent(e: RawEvent, key: Key, price: Price, side: Side, w: Window) returns (p: Payload)
      requires Valid() && w.bucketMs > 0 && key in orders
      modifies this`orders, this`bidLevels, this`askLevels, this`segments, orders[key]
      ensures Separate() && fresh(orders.Values - old(orders.Values))
      ensures Value()
           == Install(old(Value()), key, ModifyKnown(old(Orders())[key], e, key, price, side, w.bucketMs), e.ts, w)
      ensures p == ModifyKnown(old(Orders())[key], e, key, price, side, w.bucketMs).payload
    {
      ghost var b := Value();
      var previous := orders[key].Value();
      var next, refill, withdrawn := ReshapeOrder(key, e, price, side, w.bucketMs);
      var c := Modified(previous, e, key, price, side, next, refill, withdrawn);
      Commit(b, key, c, previous.size, Remembered(next), SizeOf(Remembered(next)), e.ts, w);
      p := c.payload;
    }

    method ExecuteOrder(key: Key, e: RawEvent, price: Price, side: Side) returns (c: Change)
      requires Separate() && key in orders
      modifies orders[key]
      ensures c == ExecuteKnown(old(Orders())[key], e, key, price, side)
      ensures Orders() == old(Orders())[key := Orders()[key]] && OnlyQuantities(old(Orders())[key], Orders()[key])
      ensures c.next.Some? ==> c.next.value.id == key
    {
      var previous := orders[key].Value();
      var executed := Max(0, e.size);
      var bookExecuted := Min(executed, Max(0, previous.size));
      var remaining := Max(0, previous.size - bookExecuted);
      var pending := Max(0, previous.pending + executed);
      var used := ConsumeOrder(key, bookExecuted);
      var next := Order(key, previous.side, previous.price, remaining, e.ts, e.ts, pending, used.existing, used.lots);
      var current := if remaining > 0 || pending > 0 then Some(next) else None;
      c := Executed(previous, e, key, price, side, current, bookExecuted, used.fromLots);
    }

    method ExecutePresent(e: RawEvent, key: Key, price: Price, side: Side, w: Window) returns (p: Payload)
      requires Valid() && key in orders
      modifies this`orders, this`bidLevels, this`askLevels, this`segments, orders[key]
      ensures Separate() && fresh(orders.Values - old(orders.Values))
      ensures Value() == Install(old(Value()), key, ExecuteKnown(old(Orders())[key], e, key, price, side), e.ts, w)
      ensures p == ExecuteKnown(old(Orders())[key], e, key, price, side).payload
    {
      ghost var b := Value();
      var c := ExecuteOrder(key, e, price, side);
      p := c.payload;
      Commit(b, key, c, c.out, c.next, 0, e.ts, w);
    }

    method CancelOrder(key: Key, e: RawEvent, price: Price, side: Side) returns (c: Change)
      requires Separate() && key in orders
      modifies orders[key]
      ensures c == CancelKnown(old(Orders())[key], e, key, price, side)
      ensures Orders() == old(Orders())[key := Orders()[key]] && OnlyQuantities(old(Orders())[key], Orders()[key])
      ensures c.next.Some? ==> c.next.value.id == key
    {
      var previous := orders[key].Value();
      var canceled := Max(0, e.size);
      canceled := Min(if canceled != 0 then canceled else previous.size, previous.size);
      var remaining := Max(0, previous.size - canceled);
      var used := ConsumeOrder(key, canceled);
      var next := Order(key, previous.side, previous.price, remaining, e.ts, e.ts, previous.pending,
                        used.existing, used.lots);
      var current := if remaining > 0 && e.action == "C" then Some(next) else None;
      c := Canceled(previous, e, key, price, side, current, canceled, used.fromLots);
    }

    method CancelPresent(e: RawEvent, key: Key, price: Price, side: Side, w: Window) returns (p: Payload)
      requires Valid() && key in orders
      modifies this`orders, this`bidLevels, this`askLevels, this`segments, orders[key]
      ensures Separate() && fresh(orders.Values - old(orders.Values))
      ensures Value() == Install(old(Value()), key, CancelKnown(old(Orders())[key], e, key, price, side), e.ts, w)
      ensures p == CancelKnown(old(Orders())[key], e, key, price, side).payload
    {
      ghost var b := Value();
      var c := CancelOrder(key, e, price, side);
      p := c.payload;
      Commit(b, key, c, c.out, c.next, 0, e.ts, w);
    }

    /** One event, from the order table to the level tables. */
    method ApplyEvent(e: RawEvent, key: Key, w: Window) returns (p: Option<Payload>)
      requires Valid() && w.bucketMs > 0 && EventType(e.action) in {Add, Modify, Execute, CancelDelete}
      modifies this`orders, this`bidLevels, this`askLevels, this`segments, orders.Values
      ensures Separate() && fresh(orders.Values - old(orders.Values))
      ensures (Value(), p) == Apply(old(Value()), e, key, w)
    {
      ghost var b := Value();
      var previous := if key in orders then Some(orders[key].Value()) else None;
      assert previous == Lookup(b, key);
      var price, side := EffectivePrice(e, previous), EffectiveSide(e, previous);
      if price.None? || side == NoSide {
        return None;
      }
      var kind, payload := EventType(e.action), Untouched(e, key, price.value, side).payload;
      if kind == Add {
        payload := ApplyAdd(e, key, price.value, side, w);
      } else if kind == Modify && key !in orders {
        payload := ModifyAbsent(e, key, price.value, side, w);
      } else if kind == Modify {
        payload := ModifyPresent(e, key, price.value, side, w);
      } else if kind == Execute && key in orders {
        payload := ExecutePresent(e, key, price.value, side, w);
      } else if kind == CancelDelete && key in orders {
        payload := CancelPresent(e, key, price.value, side, w);
      } else {
        InstallUnknown(b, b, key, Untouched(e, key, price.value, side), e.ts, w);
      }
      p := Some(payload);
    }

    method ClearBook(ts: int, w: Window)
      modifies this`orders, this`bidLevels, this`askLevels, this`segments
      ensures orders == map[] && Orders() == map[]
      ensures Levels(bidLevels, askLevels) == Levels(map[], map[])
      ensures multiset(segments) == old(multiset(segments)) + CloseAll(old(Orders()), ts, w)
    {
      CloseAllSegments(ts, w);
      orders, bidLevels, askLevels := map[], map[], map[];
    }

    method NumberAndApply(e: RawEvent, w: Window) returns (p: Option<Payload>)
      requires Valid() && w.bucketMs > 0 && Tracked(EventType(e.action))
      modifies this, orders.Values
      ensures Separate() && fresh(orders.Values - old(orders.Values))
      ensures (Value(), p) == Apply(Numbered(old(Value()), e), e, KeyOf(old(Value()), e), w)
    {
      ghost var b := Value();
      var key := if e.orderId != "" then Venue(e.orderId) else Synthetic(e.side, e.price, synthetic + 1);
      if e.orderId == "" {
        synthetic := synthetic + 1;
      }
      assert Orders() == b.orders;
      assert Value() == Numbered(b, e);
      p := ApplyEvent(e, key, w);
    }

    method Process(e: RawEvent, w: Window) returns (p: Option<Payload>)
      requires Valid() && w.bucketMs > 0
      modifies this, orders.Values
      ensures Valid() && fresh(orders.Values - old(orders.Values))
      ensures (Value(), p) == Step(old(Value()), e, w)
    {
      StepOk(Value(), e, w);
      if Skipped(e) {
        p := None;
      } else if EventType(e.action) == Clear {
        ClearBook(e.ts, w);
        p := None;
      } else {
        p := NumberAndApply(e, w);
      }
    }
  }
}
