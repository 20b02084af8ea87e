/** The market-by-order events, the orders they build and, as pure functions, what one event does to
    one order and to the book around it (DOM/engine.py, DOM/models.py). */
module DomModel {
  import opened Wrappers

  type Price = real

  datatype Side = Bid | Ask | NoSide

  datatype Kind = Add | Clear | CancelDelete | Modify | Execute | Other

  /** A raw event. `action` is the trimmed, upper-case action text. */
  datatype RawEvent = RawEvent(
    ts: int, price: Option<Price>, size: int, side: Side, action: string,
    orderId: string, instrument: int, sequence: int, source: string)

  function EventType(action: string): Kind {
    if action in {"A", "ADD"} then Add
    else if action == "R" then Clear
    else if action in {"C", "D", "R", "CANCEL", "DELETE", "CLEAR"} then CancelDelete
    else if action in {"M", "MODIFY"} then Modify
    else if action in {"F", "FILL"} then Execute
    else Other
  }

  /** Events without a venue order id get a restarted synthetic key each. */
  datatype Key = Venue(id: string) | Synthetic(side: Side, price: Option<Price>, index: nat)

  datatype Lot = Lot(openTime: int, price: Price, side: Side, qty: int)

  datatype Order = Order(
    id: Key, side: Side, price: Price, size: int, startedAt: int, updatedAt: int,
    pending: int, existing: int, lots: seq<Lot>)

  datatype Segment = Segment(start: int, end: int, price: Price, side: Side, id: Key, size: int)

  /** The render window, the optional price filter and the candle width of refill lots. */
  datatype Window = Window(
    visStart: int, visEnd: int, priceMin: Option<Price>, priceMax: Option<Price>, bucketMs: int)

  datatype Levels = Levels(bids: map<Price, int>, asks: map<Price, int>)

  /** `segments` is a bag: the log's order among segments closed by one CLEAR is left free. */
  datatype Book = Book(
    orders: map<Key, Order>, levels: Levels, segments: multiset<Segment>, synthetic: nat)

  /** The quantities one event reports. */
  datatype Payload = Payload(
    ts: int, key: Key, kind: Kind, price: Price, side: Side,
    previousContracts: int, currentContracts: int, previousPending: int, currentPending: int,
    added: int, canceled: int, executed: int, modifiedDelta: int,
    refillCount: int, refillContracts: int, executedRefill: int, withdrawnRefill: int,
    netChange: int)

  // ----- refill lots -----

  function LotSum(lots: seq<Lot>): int {
    if lots == [] then 0 else lots[0].qty + LotSum(lots[1..])
  }

  function LiveLots(lots: seq<Lot>): seq<Lot> {
    if lots == [] then []
    else (if lots[0].qty > 0 then [lots[0]] else []) + LiveLots(lots[1..])
  }

  datatype Consumed = Consumed(existing: int, lots: seq<Lot>, fromExisting: int, fromLots: int)

  /** Takes `qty` from the front of the lots; emptied lots disappear. */
  function ConsumeLots(lots: seq<Lot>, qty: int): (seq<Lot>, int) {
    if lots == [] then ([], 0)
    else
      var amount := if qty <= 0 then 0 else Min(qty, Max(0, lots[0].qty));
      var left := lots[0].(qty := lots[0].qty - amount);
      var (rest, taken) := ConsumeLots(lots[1..], qty - amount);
      ((if left.qty > 0 then [left] else []) + rest, amount + taken)
  }

  /** Existing quantity is used up first, then the refill lots in order of arrival. */
  function Consume(o: Order, quantity: int): Consumed {
    var wanted := Max(0, quantity);
    var fromExisting := Min(wanted, Max(0, o.existing));
    var (lots, taken) := ConsumeLots(o.lots, wanted - fromExisting);
    Consumed(o.existing - fromExisting, lots, fromExisting, taken)
  }

  // ----- what one event does to one order -----

  /** `next` replaces the order, `out` leaves the previous order's level and `deposit` joins the
      level of `next`. */
  datatype Change = Change(next: Option<Order>, out: int, deposit: int, payload: Payload)

  function SizeOf(o: Option<Order>): int { if o.Some? then o.value.size else 0 }

  function PendingOf(o: Option<Order>): int { if o.Some? then o.value.pending else 0 }

  function LotsOf(o: Option<Order>): seq<Lot> { if o.Some? then o.value.lots else [] }

  function Report(e: RawEvent, key: Key, price: Price, side: Side, previous: Option<Order>,
                  next: Option<Order>): Payload {
    Payload(e.ts, key, EventType(e.action), price, side,
            SizeOf(previous), SizeOf(next), PendingOf(previous), PendingOf(next),
            0, 0, 0, 0, 0, 0, 0, 0, 0)
  }

  function Opened(e: RawEvent, key: Key, price: Price, side: Side): Order {
    var added := Max(0, e.size);
    Order(key, side, price, added, e.ts, e.ts, 0, added, [])
  }

  function AddChange(previous: Option<Order>, e: RawEvent, key: Key, price: Price, side: Side): Change {
    var next := Opened(e, key, price, side);
    Change(Some(next), SizeOf(previous), next.size,
           Report(e, key, price, side, previous, Some(next)).(added := next.size, netChange := next.size))
  }

  function ModifyUnknown(e: RawEvent, key: Key, price: Price, side: Side): Change {
    var next := Opened(e, key, price, side);
    Change(Some(next), 0, next.size,
           Report(e, key, price, side, None, Some(next)).(
           added := next.size, modifiedDelta := next.size, netChange := next.size + next.size))
  }

  /** An order of size zero is remembered only while a refill is still pending on it. */
  function Remembered(o: Order): Option<Order> {
    if o.size > 0 || o.pending > 0 then Some(o) else None
  }

  function Modified(o: Order, e: RawEvent, key: Key, price: Price, side: Side, next: Order, refill: int,
                    withdrawn: int): Change {
    var kept := Remembered(next);
    var delta := Max(0, e.size) - o.size;
    Change(kept, o.size, SizeOf(kept),
           Report(e, key, price, side, Some(o), kept).(
           modifiedDelta := delta, netChange := delta,
           refillCount := if refill > 0 then 1 else 0, refillContracts := refill,
           withdrawnRefill := withdrawn))
  }

  function ModifyKnown(o: Order, e: RawEvent, key: Key, price: Price, side: Side, bucketMs: int): Change
    requires bucketMs > 0
  {
    var newSize := Max(0, e.size);
    var delta := newSize - o.size;
    var next := o.(side := side, price := price, size := newSize, startedAt := e.ts, updatedAt := e.ts,
                   pending := Max(0, o.pending));
    if price != o.price || side != o.side then
      Modified(o, e, key, price, side, next.(pending := 0, existing := newSize, lots := []), 0,
               Consume(o, o.size).fromLots)
    else if delta < 0 then
      var c := Consume(o, -delta);
      Modified(o, e, key, price, side, next.(existing := c.existing, lots := c.lots), 0, c.fromLots)
    else if delta > 0 && (o.pending > 0 || o.lots != []) then
      var lot := Lot(e.ts / bucketMs * bucketMs, price, side, delta);
      Modified(o, e, key, price, side, next.(pending := 0, lots := o.lots + [lot]), delta, 0)
    else
      Modified(o, e, key, price, side, next.(existing := o.existing + delta), 0, 0)
  }

  function Executed(o: Order, e: RawEvent, key: Key, price: Price, side: Side, next: Option<Order>, out: int,
                    refill: int): Change {
    Change(next, out, 0,
           Report(e, key, price, side, Some(o), next).(
           executed := Max(0, e.size), executedRefill := refill, netChange := -out))
  }

  function ExecuteKnown(o: Order, e: RawEvent, key: Key, price: Price, side: Side): Change {
    var executed := Max(0, e.size);
    var bookExecuted := Min(executed, Max(0, o.size));
    var c := Consume(o, bookExecuted);
    var next := o.(size := Max(0, o.size - bookExecuted), startedAt := e.ts, updatedAt := e.ts,
                   pending := Max(0, o.pending + executed), existing := c.existing, lots := c.lots);
    Executed(o, e, key, price, side, Remembered(next), bookExecuted, c.fromLots)
  }

  function CanceledOf(o: Order, e: RawEvent): int {
    var asked := Max(0, e.size);
    Min(if asked != 0 then asked else o.size, o.size)
  }

  function Canceled(o: Order, e: RawEvent, key: Key, price: Price, side: Side, next: Option<Order>, out: int,
                    refill: int): Change {
    Change(next, out, 0,
           Report(e, key, price, side, Some(o), next).(
           canceled := out, withdrawnRefill := refill, netChange := -out))
  }

  function CancelKnown(o: Order, e: RawEvent, key: Key, price: Price, side: Side): Change {
    var canceled := CanceledOf(o, e);
    var remaining := Max(0, o.size - canceled);
    var c := Consume(o, canceled);
    var next := o.(size := remaining, startedAt := e.ts, updatedAt := e.ts, existing := c.existing, lots := c.lots);
    var kept := if remaining > 0 && e.action == "C" then Some(next) else None;
    Canceled(o, e, key, price, side, kept, canceled, c.fromLots)
  }

  /** Executions and cancels of an unknown order are reported but touch nothing. */
  function Untouched(e: RawEvent, key: Key, price: Price, side: Side): Change {
    var report := Report(e, key, price, side, None, None);
    var asked := Max(0, e.size);
    Change(None, 0, 0, if EventType(e.action) == Execute then report.(executed := asked)
           else report.(canceled := asked, netChange := -asked))
  }

  function ChangeOf(previous: Option<Order>, e: RawEvent, key: Key, price: Price, side: Side, bucketMs: int): Change
    requires EventType(e.action) in {Add, Modify, Execute, CancelDelete} && bucketMs > 0
  {
    var kind := EventType(e.action);
    if kind == Add then AddChange(previous, e, key, price, side)
    else if previous.None? then
      if kind == Modify then ModifyUnknown(e, key, price, side) else Untouched(e, key, price, side)
    else if kind == Modify then ModifyKnown(previous.value, e, key, price, side, bucketMs)
    else if kind == Execute then ExecuteKnown(previous.value, e, key, price, side)
    else CancelKnown(previous.value, e, key, price, side)
  }

  // ----- the book -----

  function LevelAt(l: Levels, side: Side, price: Price): int {
    var m := if side == Bid then l.bids else l.asks;
    if price in m then m[price] else 0
  }

  function AdjustMap(m: map<Price, int>, price: Price, delta: int): map<Price, int> {
    var next := (if price in m then m[price] else 0) + delta;
    if next > 0 then m[price := next] else m - {price}
  }

  function Adjust(l: Levels, side: Side, price: Price, delta: int): Levels {
    if side == Bid then l.(bids := AdjustMap(l.bids, price, delta))
    else l.(asks := AdjustMap(l.asks, price, delta))
  }

  predicate PriceInRange(price: Price, w: Window) {
    && (w.priceMin.Some? ==> price >= w.priceMin.value)
    && (w.priceMax.Some? ==> price <= w.priceMax.value)
  }

  predicate Closes(o: Order, end: int, w: Window) {
    && o.size > 0
    && end > o.startedAt
    && end >= w.visStart && o.startedAt <= w.visEnd
    && PriceInRange(o.price, w)
  }

  function SegmentOf(o: Order, end: int, w: Window): Segment {
    Segment(Max(o.startedAt, w.visStart), Min(end, w.visEnd), o.price, o.side, o.id, o.size)
  }

  function CloseSegment(o: Order, end: int, w: Window): multiset<Segment> {
    if Closes(o, end, w) then multiset{SegmentOf(o, end, w)} else multiset{}
  }

  ghost function CloseAll(orders: map<Key, Order>, end: int, w: Window): multiset<Segment>
    decreases |orders|
  {
    if orders == map[] then multiset{}
    else
      var k :| k in orders;
      assert orders.Keys == (orders - {k}).Keys + {k};
      CloseSegment(orders[k], end, w) + CloseAll(orders - {k}, end, w)
  }

  function Lookup(b: Book, key: Key): Option<Order> {
    if key in b.orders then Some(b.orders[key]) else None
  }

  /** A price of exactly zero counts as missing, as an absent one does. */
  function EffectivePrice(e: RawEvent, previous: Option<Order>): Option<Price> {
    if e.price.Some? && e.price.value != 0.0 then e.price
    else if previous.Some? then Some(previous.value.price) else None
  }

  function EffectiveSide(e: RawEvent, previous: Option<Order>): Side {
    if e.side != NoSide then e.side else if previous.Some? then previous.value.side else NoSide
  }

  /** The levels once the level of an order, if there is one, has moved by `delta`. */
  function Deposited(l: Levels, o: Option<Order>, delta: int): Levels {
    if o.Some? then Adjust(l, o.value.side, o.value.price, delta) else l
  }

  function Install(b: Book, key: Key, c: Change, ts: int, w: Window): Book {
    var previous := Lookup(b, key);
    var closed := if previous.Some? then CloseSegment(previous.value, ts, w) else multiset{};
    b.(orders := if c.next.Some? then b.orders[key := c.next.value] else b.orders - {key},
       levels := Deposited(Deposited(b.levels, previous, -c.out), c.next, c.deposit), segments := b.segments + closed)
  }

  function Apply(b: Book, e: RawEvent, key: Key, w: Window): (Book, Option<Payload>)
    requires EventType(e.action) in {Add, Modify, Execute, CancelDelete} && w.bucketMs > 0
  {
    var previous := Lookup(b, key);
    var price, side := EffectivePrice(e, previous), EffectiveSide(e, previous);
    if price.None? || side == NoSide then (b, None)
    else
      var c := ChangeOf(previous, e, key, price.value, side, w.bucketMs);
      (Install(b, key, c, e.ts, w), Some(c.payload))
  }

  function KeyOf(b: Book, e: RawEvent): Key {
    if e.orderId != "" then Venue(e.orderId) else Synthetic(e.side, e.price, b.synthetic + 1)
  }

  function Numbered(b: Book, e: RawEvent): Book {
    if e.orderId != "" then b else b.(synthetic := b.synthetic + 1)
  }

  predicate Skipped(e: RawEvent) {
    EventType(e.action) == Other || (e.price.None? && EventType(e.action) != CancelDelete)
  }

  ghost function Step(b: Book, e: RawEvent, w: Window): (Book, Option<Payload>)
    requires w.bucketMs > 0
  {
    if Skipped(e) then (b, None)
    else if EventType(e.action) == Clear then
      (Book(map[], Levels(map[], map[]), b.segments + CloseAll(b.orders, e.ts, w), b.synthetic), None)
    else
      Apply(Numbered(b, e), e, KeyOf(b, e), w)
  }

  const EmptyBook := Book(map[], Levels(map[], map[]), multiset{}, 0)

  /** The fold over a list of events: the book and every payload, in order. */
  ghost function Run(es: seq<RawEvent>, w: Window): (r: (Book, seq<Payload>))
    requires w.bucketMs > 0
  {
    if es == [] then (EmptyBook, [])
    else
      var (b, out) := Run(es[..|es| - 1], w);
      var (b', p) := Step(b, es[|es| - 1], w);
      (b', if p.Some? then out + [p.value] else out)
  }

  ghost function Replay(es: seq<RawEvent>, w: Window): Book
    requires w.bucketMs > 0
  {
    Run(es, w).0
  }

  /** The segment log once the orders still open are closed at the end of the render window. */
  ghost function History(es: seq<RawEvent>, w: Window): multiset<Segment>
    requires w.bucketMs > 0
  {
    var b := Replay(es, w);
    b.segments + CloseAll(b.orders, w.visEnd, w)
  }
}
