/** What one event does to the order book, in raw terms: which order it acts on, what is left of it, which contracts
    leave the refill lots, and what the event reports. */
module DomMeaning {
  import opened Wrappers
  import opened DomModel
  import opened DomInvariants
  import opened DomLevels
  import opened DomCause

  // ----- kinds of events -----

  predicate IsAdd(e: RawEvent) { e.action in {"A", "ADD"} }

  predicate IsModify(e: RawEvent) { e.action in {"M", "MODIFY"} }

  predicate IsFill(e: RawEvent) { e.action in {"F", "FILL"} }

  predicate IsCancel(e: RawEvent) { e.action in {"C", "D", "CANCEL", "DELETE", "CLEAR"} }

  predicate IsClear(e: RawEvent) { e.action == "R" && e.price != None }

  /** The event is about one order. Only a cancel may come without a price. */
  predicate AboutOrder(e: RawEvent) {
    IsCancel(e) || ((IsAdd(e) || IsModify(e) || IsFill(e)) && e.price != None)
  }

  lemma KindsMean(e: RawEvent)
    ensures EventType(e.action) == Add <==> IsAdd(e)
    ensures EventType(e.action) == Modify <==> IsModify(e)
    ensures EventType(e.action) == Execute <==> IsFill(e)
    ensures EventType(e.action) == CancelDelete <==> IsCancel(e)
    ensures !Skipped(e) && EventType(e.action) != Clear <==> AboutOrder(e)
    ensures Clears(e) <==> IsClear(e)
  {
  }

  // ----- which order -----

  /** The events among the first `n` that are about an order and do not name it. */
  function Nameless(es: seq<RawEvent>, n: nat): nat
    requires n <= |es|
  {
    if n == 0 then 0
    else Nameless(es, n - 1) + if AboutOrder(es[n - 1]) && es[n - 1].orderId == "" then 1 else 0
  }

  /** Event `n` acts on the order `key`: the one it names, or a new one with the next number. */
  predicate Acts(es: seq<RawEvent>, n: nat, key: Key)
    requires n < |es|
  {
    && AboutOrder(es[n])
    && key == if es[n].orderId != "" then Venue(es[n].orderId)
              else Synthetic(es[n].side, es[n].price, Nameless(es, n) + 1)
  }

  lemma StepNumbers(b: Book, e: RawEvent, w: Window)
    requires BookOk(b) && w.bucketMs > 0
    ensures Step(b, e, w).0.synthetic == b.synthetic + if AboutOrder(e) && e.orderId == "" then 1 else 0
  {
    KindsMean(e);
  }

  lemma {:induction false} NumbersCount(es: seq<RawEvent>, w: Window, n: nat)
    requires w.bucketMs > 0 && n <= |es|
    ensures BookAt(es, w, n).synthetic == Nameless(es, n)
  {
    if n > 0 {
      NumbersCount(es, w, n - 1);
      AtStep(es, w, n - 1);
      RunOk(es[..n - 1], w);
      StepNumbers(BookAt(es, w, n - 1), es[n - 1], w);
    } else {
      assert es[..0] == [];
    }
  }

  lemma ActsMean(es: seq<RawEvent>, w: Window, n: nat, key: Key)
    requires w.bucketMs > 0 && n < |es|
    ensures ActsOn(es, w, n, key) <==> Acts(es, n, key)
  {
    KindsMean(es[n]);
    NumbersCount(es, w, n);
  }

  ghost predicate NumberedUpTo(b: Book, n: int) {
    forall k :: k in b.orders && k.Synthetic? ==> k.index <= n
  }

  lemma StepNumbersOrders(b: Book, e: RawEvent, w: Window)
    requires BookOk(b) && w.bucketMs > 0 && NumberedUpTo(b, b.synthetic)
    ensures NumberedUpTo(Step(b, e, w).0, Step(b, e, w).0.synthetic)
  {
    StepCases(b, e, w);
  }

  lemma {:induction false} OrdersNumbered(es: seq<RawEvent>, w: Window, n: nat)
    requires w.bucketMs > 0 && n <= |es|
    ensures NumberedUpTo(BookAt(es, w, n), BookAt(es, w, n).synthetic)
  {
    if n > 0 {
      OrdersNumbered(es, w, n - 1);
      AtStep(es, w, n - 1);
      RunOk(es[..n - 1], w);
      StepNumbersOrders(BookAt(es, w, n - 1), es[n - 1], w);
    } else {
      assert es[..0] == [];
    }
  }

  /** No order ever carries the number of a later nameless event, so such an event always meets an unknown order. */
  lemma NamelessIsNew(es: seq<RawEvent>, w: Window, n: nat)
    requires w.bucketMs > 0 && n <= |es|
    ensures NumberedUpTo(BookAt(es, w, n), Nameless(es, n))
  {
    OrdersNumbered(es, w, n);
    NumbersCount(es, w, n);
  }

  // ----- prices and sides -----

  predicate HasPrice(e: RawEvent) { e.price != None && e.price != Some(0.0) }

  /** The event applies to this price and side: its own, or else those of the order it meets. */
  predicate Applies(previous: Option<Order>, e: RawEvent, price: Price, side: Side) {
    && (if HasPrice(e) then e.price == Some(price) else previous.Some? && previous.value.price == price)
    && (if e.side != NoSide then e.side == side else previous.Some? && previous.value.side == side)
    && side != NoSide
  }

  // ----- what is left of the order -----

  predicate NewOrder(e: RawEvent, key: Key, price: Price, side: Side, o: Order) {
    && o.id == key && o.price == price && o.side == side && o.startedAt == e.ts
    && o.size == (if e.size > 0 then e.size else 0) && o.existing == o.size && o.pending == 0 && o.lots == []
  }

  /** The contracts a fill or cancel takes from the order: all of it at most, and all of it for a cancel without
      a size. */
  function Taken(o: Order, e: RawEvent): int {
    if IsCancel(e) && e.size <= 0 then o.size
    else if e.size <= 0 then 0
    else if e.size < o.size then e.size else o.size
  }

  /** `n` contracts have left `o`: existing ones first, then those of the oldest lots. */
  ghost predicate Drained(o: Order, n: int, r: Order) {
    && r.existing == (if n <= o.existing then o.existing - n else 0)
    && LotSum(r.lots) == LotSum(o.lots) - FromLots(o, n) && 0 <= FromLots(o, n) <= |Units(o.lots)|
    && Units(r.lots) == Units(o.lots)[FromLots(o, n)..]
  }

  function FromLots(o: Order, n: int): int { if n <= o.existing then 0 else n - o.existing }

  predicate SamePlace(o: Order, r: Order) { r.id == o.id && r.price == o.price && r.side == o.side }

  predicate CandleStart(t: int, ts: int, bucketMs: int)
    requires bucketMs > 0
  {
    t == ts - ts % bucketMs
  }

  /** A modify of a live order at its price and side grows it by a refill. */
  predicate Refills(o: Order, e: RawEvent, price: Price, side: Side) {
    price == o.price && side == o.side && e.size > o.size && (o.pending > 0 || LotSum(o.lots) > 0)
  }

  /** What a modify makes of a live order, if it stays. */
  ghost predicate ModifiedTo(o: Order, e: RawEvent, price: Price, side: Side, bucketMs: int, r: Order)
    requires bucketMs > 0
  {
    && r.id == o.id && r.price == price && r.side == side && r.startedAt == e.ts
    && r.size == (if e.size > 0 then e.size else 0)
    && if price != o.price || side != o.side then r.existing == r.size && r.lots == [] && r.pending == 0
       else if Refills(o, e, price, side) then
         && r.existing == o.existing && r.pending == 0 && |r.lots| == |o.lots| + 1 && r.lots[..|o.lots|] == o.lots
         && var l := r.lots[|o.lots|];
            CandleStart(l.openTime, e.ts, bucketMs) && l.price == price && l.side == side && l.qty == e.size - o.size
       else if r.size < o.size then r.pending == o.pending && Drained(o, o.size - r.size, r)
       else r.pending == o.pending && r.existing == o.existing + r.size - o.size && r.lots == o.lots
  }

  /** What a fill makes of a live order, if it stays. */
  ghost predicate FilledTo(o: Order, e: RawEvent, r: Order) {
    && SamePlace(o, r) && r.startedAt == e.ts && r.size == o.size - Taken(o, e)
    && r.pending == o.pending + (if e.size > 0 then e.size else 0) && Drained(o, Taken(o, e), r)
  }

  ghost predicate CanceledTo(o: Order, e: RawEvent, r: Order) {
    && SamePlace(o, r) && r.startedAt == e.ts && r.size == o.size - Taken(o, e) && r.pending == o.pending
    && Drained(o, Taken(o, e), r)
  }

  /** What becomes of the order an event acts on. */
  ghost predicate Becomes(previous: Option<Order>, e: RawEvent, key: Key, price: Price, side: Side, bucketMs: int,
                          next: Option<Order>)
    requires bucketMs > 0
  {
    if IsAdd(e) || (IsModify(e) && previous == None) then next.Some? && NewOrder(e, key, price, side, next.value)
    else if previous == None then next == None
    else
      var o := previous.value;
      if IsModify(e) then
        && (next.Some? <==> e.size > 0 || (price == o.price && side == o.side && o.pending > 0))
        && (next.Some? ==> ModifiedTo(o, e, price, side, bucketMs, next.value))
      else if IsFill(e) then
        && (next.Some? <==> Taken(o, e) < o.size || o.pending > 0 || e.size > 0)
        && (next.Some? ==> FilledTo(o, e, next.value))
      else
        && (next.Some? <==> Taken(o, e) < o.size && e.action == "C")
        && (next.Some? ==> CanceledTo(o, e, next.value))
  }

  // ----- proofs -----

  lemma ConsumeDrains(key: Key, o: Order, n: int, r: Order)
    requires OrderOk(key, o) && 0 <= n <= o.size
    requires var c := Consume(o, n); r.existing == c.existing && r.lots == c.lots
    ensures Drained(o, n, r) && Consume(o, n).fromLots == FromLots(o, n)
  {
    ConsumeExact(key, o, n);
    UnitsCount(o.lots, o.price, o.side);
    ConsumeLotsFifo(o.lots, n - Min(n, o.existing), o.price, o.side);
  }

  lemma LotsPositive(key: Key, o: Order)
    requires OrderOk(key, o)
    ensures o.lots != [] <==> LotSum(o.lots) > 0
  {
    UnitsCount(o.lots, o.price, o.side);
  }

  lemma ModifyBecomes(o: Order, e: RawEvent, key: Key, price: Price, side: Side, bucketMs: int)
    requires OrderOk(key, o) && side != NoSide && bucketMs > 0 && IsModify(e)
    ensures Becomes(Some(o), e, key, price, side, bucketMs, ModifyKnown(o, e, key, price, side, bucketMs).next)
  {
    if price == o.price && side == o.side {
      if e.size < o.size {
        ShrinkBecomes(o, e, key, bucketMs);
      } else {
        GrowBecomes(o, e, key, bucketMs);
      }
    }
  }

  lemma ShrinkBecomes(o: Order, e: RawEvent, key: Key, bucketMs: int)
    requires OrderOk(key, o) && bucketMs > 0 && IsModify(e) && e.size < o.size
    ensures Becomes(Some(o), e, key, o.price, o.side, bucketMs, ModifyKnown(o, e, key, o.price, o.side, bucketMs).next)
  {
    var n := o.size - if e.size > 0 then e.size else 0;
    if n > 0 {
      var c := Consume(o, n);
      ConsumeDrains(key, o, n, o.(existing := c.existing, lots := c.lots));
    } else {
      LotsPositive(key, o);
    }
  }

  lemma GrowBecomes(o: Order, e: RawEvent, key: Key, bucketMs: int)
    requires OrderOk(key, o) && bucketMs > 0 && IsModify(e) && e.size >= o.size
    ensures Becomes(Some(o), e, key, o.price, o.side, bucketMs, ModifyKnown(o, e, key, o.price, o.side, bucketMs).next)
  {
    LotsPositive(key, o);
  }

  lemma FillBecomes(o: Order, e: RawEvent, key: Key, price: Price, side: Side, bucketMs: int)
    requires OrderOk(key, o) && bucketMs > 0 && IsFill(e)
    ensures Becomes(Some(o), e, key, price, side, bucketMs, ExecuteKnown(o, e, key, price, side).next)
  {
    var c := Consume(o, Taken(o, e));
    ConsumeDrains(key, o, Taken(o, e), o.(existing := c.existing, lots := c.lots));
  }

  lemma CancelBecomes(o: Order, e: RawEvent, key: Key, price: Price, side: Side, bucketMs: int)
    requires OrderOk(key, o) && bucketMs > 0 && IsCancel(e)
    ensures Becomes(Some(o), e, key, price, side, bucketMs, CancelKnown(o, e, key, price, side).next)
  {
    var c := Consume(o, Taken(o, e));
    ConsumeDrains(key, o, Taken(o, e), o.(existing := c.existing, lots := c.lots));
  }

  lemma ChangeBecomes(previous: Option<Order>, e: RawEvent, key: Key, price: Price, side: Side, bucketMs: int)
    requires previous.Some? ==> OrderOk(key, previous.value)
    requires side != NoSide && bucketMs > 0 && Tracked(EventType(e.action))
    ensures Becomes(previous, e, key, price, side, bucketMs, ChangeOf(previous, e, key, price, side, bucketMs).next)
  {
    KindsMean(e);
    if previous.Some? {
      match EventType(e.action)
      case Modify => ModifyBecomes(previous.value, e, key, price, side, bucketMs);
      case Execute => FillBecomes(previous.value, e, key, price, side, bucketMs);
      case CancelDelete => CancelBecomes(previous.value, e, key, price, side, bucketMs);
      case _ =>
    }
  }

  /** What event `n` makes of the book, order by order. */
  ghost predicate Turns(es: seq<RawEvent>, w: Window, n: nat)
    requires w.bucketMs > 0 && n < |es|
  {
    var b, b', e := BookAt(es, w, n), BookAt(es, w, n + 1), es[n];
    if IsClear(e) then b'.orders == map[]
    else
      && (forall key :: !Acts(es, n, key) ==> Lookup(b', key) == Lookup(b, key))
      && (forall key, price, side ::
            Acts(es, n, key) && Applies(Lookup(b, key), e, price, side) ==>
              Becomes(Lookup(b, key), e, key, price, side, w.bucketMs, Lookup(b', key)))
      && (forall key :: Acts(es, n, key) && (forall price, side :: !Applies(Lookup(b, key), e, price, side)) ==>
            Lookup(b, key) == Lookup(b', key) == None)
  }

  lemma AppliesMean(previous: Option<Order>, e: RawEvent, price: Price, side: Side)
    ensures Applies(previous, e, price, side)
       <==> EffectivePrice(e, previous) == Some(price) && EffectiveSide(e, previous) == side && side != NoSide
  {
  }

  lemma OthersStay(b: Book, e: RawEvent, w: Window, key: Key)
    requires BookOk(b) && w.bucketMs > 0 && !IsClear(e) && !Addresses(b, e, key)
    ensures Lookup(Step(b, e, w).0, key) == Lookup(b, key)
  {
    KindsMean(e);
    StepCases(b, e, w);
  }

  lemma OrderBecomes(b: Book, e: RawEvent, w: Window, key: Key, price: Price, side: Side)
    requires BookOk(b) && w.bucketMs > 0 && Addresses(b, e, key) && Applies(Lookup(b, key), e, price, side)
    ensures Becomes(Lookup(b, key), e, key, price, side, w.bucketMs, Lookup(Step(b, e, w).0, key))
  {
    KindsMean(e);
    StepCases(b, e, w);
    AppliesMean(Lookup(b, key), e, price, side);
    ChangeBecomes(Lookup(b, key), e, key, price, side, w.bucketMs);
    InstalledNext(Numbered(b, e), key, ChangeAt(b, e, w), e.ts, w);
  }

  lemma InstalledNext(b: Book, key: Key, c: Change, ts: int, w: Window)
    ensures Lookup(Install(b, key, c, ts, w), key) == c.next
  {
  }

  /** Without a price or side to apply to, the event meets no order and leaves none. */
  lemma NothingApplies(b: Book, e: RawEvent, w: Window, key: Key)
    requires BookOk(b) && w.bucketMs > 0 && Addresses(b, e, key)
    requires forall price, side :: !Applies(Lookup(b, key), e, price, side)
    ensures Lookup(b, key) == Lookup(Step(b, e, w).0, key) == None
  {
    KindsMean(e);
    StepCases(b, e, w);
    var p, s := EffectivePrice(e, Lookup(b, key)), EffectiveSide(e, Lookup(b, key));
    if p.Some? {
      AppliesMean(Lookup(b, key), e, p.value, s);
    }
  }

  /** Main result: over every run, each event changes exactly the order it acts on, into what a new order, a modify,
      a fill or a cancel of that size leaves; a clear forgets all orders. */
  lemma EventTurns(es: seq<RawEvent>, w: Window, n: nat)
    requires w.bucketMs > 0 && n < |es|
    ensures Turns(es, w, n)
  {
    var b, e := BookAt(es, w, n), es[n];
    AtStep(es, w, n);
    RunOk(es[..n], w);
    KindsMean(e);
    if !IsClear(e) {
      forall key | !Acts(es, n, key) ensures Lookup(BookAt(es, w, n + 1), key) == Lookup(b, key) {
        ActsMean(es, w, n, key);
        OthersStay(b, e, w, key);
      }
      forall key, price, side | Acts(es, n, key) && Applies(Lookup(b, key), e, price, side)
        ensures Becomes(Lookup(b, key), e, key, price, side, w.bucketMs, Lookup(BookAt(es, w, n + 1), key))
      {
        ActsMean(es, w, n, key);
        OrderBecomes(b, e, w, key, price, side);
      }
      forall key | Acts(es, n, key) && (forall price, side :: !Applies(Lookup(b, key), e, price, side))
        ensures Lookup(b, key) == Lookup(BookAt(es, w, n + 1), key) == None
      {
        ActsMean(es, w, n, key);
        NothingApplies(b, e, w, key);
      }
    }
  }

  // ----- what the event reports -----

  /** The refill contracts that leave lots with the event. */
  function Drawn(o: Order, e: RawEvent, price: Price, side: Side): int {
    if IsModify(e) then
      if price != o.price || side != o.side then LotSum(o.lots)
      else if e.size < o.size then FromLots(o, o.size - if e.size > 0 then e.size else 0) else 0
    else if IsAdd(e) then 0 else FromLots(o, Taken(o, e))
  }

  /** The report tells sizes and credit before and after, and the contracts of each kind. */
  ghost predicate Reports(previous: Option<Order>, e: RawEvent, key: Key, price: Price, side: Side,
                          next: Option<Order>, p: Payload) {
    var size, before := if e.size > 0 then e.size else 0, if previous.Some? then previous.value.size else 0;
    && p.ts == e.ts && p.key == key && p.price == price && p.side == side && p.previousContracts == before
    && p.currentContracts == (if next.Some? then next.value.size else 0)
    && p.previousPending == (if previous.Some? then previous.value.pending else 0)
    && p.currentPending == (if next.Some? then next.value.pending else 0)
    && p.added == (if IsAdd(e) || (IsModify(e) && previous == None) then size else 0)
    && p.modifiedDelta == (if IsModify(e) then size - before else 0)
    && p.executed == (if IsFill(e) then size else 0)
    && p.canceled == (if !IsCancel(e) then 0 else if previous == None then size else Taken(previous.value, e))
    && p.netChange == p.added + p.modifiedDelta - p.canceled
                      - (if IsFill(e) && previous.Some? then Taken(previous.value, e) else 0)
    && p.executedRefill == (if IsFill(e) && previous.Some? then Drawn(previous.value, e, price, side) else 0)
    && p.withdrawnRefill == (if !IsFill(e) && previous.Some? then Drawn(previous.value, e, price, side) else 0)
    && p.refillContracts == (if previous.Some? && IsModify(e) && Refills(previous.value, e, price, side)
                             then e.size - previous.value.size else 0)
    && p.refillCount == (if p.refillContracts > 0 then 1 else 0)
  }

  lemma ModifiedReports(o: Order, e: RawEvent, key: Key, price: Price, side: Side, next: Order, refill: int,
                        withdrawn: int)
    requires OrderOk(key, o) && side != NoSide && IsModify(e) && next.size == if e.size > 0 then e.size else 0
    requires refill == if Refills(o, e, price, side) then e.size - o.size else 0
    requires withdrawn == Drawn(o, e, price, side)
    ensures var c := Modified(o, e, key, price, side, next, refill, withdrawn);
            Reports(Some(o), e, key, price, side, c.next, c.payload)
  {
  }

  lemma ModifyReports(o: Order, e: RawEvent, key: Key, price: Price, side: Side, bucketMs: int)
    requires OrderOk(key, o) && side != NoSide && bucketMs > 0 && IsModify(e)
    ensures var c := ModifyKnown(o, e, key, price, side, bucketMs);
            Reports(Some(o), e, key, price, side, c.next, c.payload)
  {
    var size := if e.size > 0 then e.size else 0;
    var next := o.(side := side, price := price, size := size, startedAt := e.ts, updatedAt := e.ts,
                   pending := Max(0, o.pending));
    if price != o.price || side != o.side {
      ConsumeExact(key, o, o.size);
      ModifiedReports(o, e, key, price, side, next.(pending := 0, existing := size, lots := []), 0,
                      Consume(o, o.size).fromLots);
    } else {
      ResizeReports(o, e, key, bucketMs, next);
    }
  }

  lemma ResizeReports(o: Order, e: RawEvent, key: Key, bucketMs: int, next: Order)
    requires OrderOk(key, o) && bucketMs > 0 && IsModify(e)
    requires next == o.(size := if e.size > 0 then e.size else 0, startedAt := e.ts, updatedAt := e.ts,
                        pending := Max(0, o.pending))
    ensures var c := ModifyKnown(o, e, key, o.price, o.side, bucketMs);
            Reports(Some(o), e, key, o.price, o.side, c.next, c.payload)
  {
    LotsPositive(key, o);
    var delta := next.size - o.size;
    if delta < 0 {
      var c := Consume(o, -delta);
      ConsumeExact(key, o, -delta);
      ModifiedReports(o, e, key, o.price, o.side, next.(existing := c.existing, lots := c.lots), 0, c.fromLots);
    } else if delta > 0 && (o.pending > 0 || o.lots != []) {
      var lot := Lot(e.ts / bucketMs * bucketMs, o.price, o.side, delta);
      ModifiedReports(o, e, key, o.price, o.side, next.(pending := 0, lots := o.lots + [lot]), delta, 0);
    } else {
      ModifiedReports(o, e, key, o.price, o.side, next.(existing := o.existing + delta), 0, 0);
    }
  }

  lemma FillReports(o: Order, e: RawEvent, key: Key, price: Price, side: Side)
    requires OrderOk(key, o) && IsFill(e)
    ensures var c := ExecuteKnown(o, e, key, price, side); Reports(Some(o), e, key, price, side, c.next, c.payload)
  {
    ConsumeExact(key, o, Taken(o, e));
  }

  lemma CancelReports(o: Order, e: RawEvent, key: Key, price: Price, side: Side)
    requires OrderOk(key, o) && IsCancel(e)
    ensures var c := CancelKnown(o, e, key, price, side); Reports(Some(o), e, key, price, side, c.next, c.payload)
  {
    ConsumeExact(key, o, Taken(o, e));
  }

  lemma ChangeReports(previous: Option<Order>, e: RawEvent, key: Key, price: Price, side: Side, bucketMs: int)
    requires previous.Some? ==> OrderOk(key, previous.value)
    requires side != NoSide && bucketMs > 0 && Tracked(EventType(e.action))
    ensures var c := ChangeOf(previous, e, key, price, side, bucketMs);
            Reports(previous, e, key, price, side, c.next, c.payload)
  {
    KindsMean(e);
    if previous.Some? {
      match EventType(e.action)
      case Modify => ModifyReports(previous.value, e, key, price, side, bucketMs);
      case Execute => FillReports(previous.value, e, key, price, side);
      case CancelDelete => CancelReports(previous.value, e, key, price, side);
      case _ =>
    }
  }

  /** The report of event `n`, if it makes one. */
  ghost function ReportAt(es: seq<RawEvent>, w: Window, n: nat): Option<Payload>
    requires w.bucketMs > 0 && n < |es|
  {
    Step(BookAt(es, w, n), es[n], w).1
  }

  /** Main result: an event reports exactly if it acts on an order and has a price and side to apply to, and then
      tells the truth about them, about the order before and after, and about every kind of contracts. */
  lemma EventReports(es: seq<RawEvent>, w: Window, n: nat, key: Key, price: Price, side: Side)
    requires w.bucketMs > 0 && n < |es|
    requires Acts(es, n, key) && Applies(Lookup(BookAt(es, w, n), key), es[n], price, side)
    ensures ReportAt(es, w, n).Some?
    ensures Reports(Lookup(BookAt(es, w, n), key), es[n], key, price, side, Lookup(BookAt(es, w, n + 1), key),
                    ReportAt(es, w, n).value)
  {
    var b, e := BookAt(es, w, n), es[n];
    AtStep(es, w, n);
    RunOk(es[..n], w);
    KindsMean(e);
    ActsMean(es, w, n, key);
    AppliesMean(Lookup(b, key), e, price, side);
    StepCases(b, e, w);
    ChangeReports(Lookup(b, key), e, key, price, side, w.bucketMs);
    InstalledNext(Numbered(b, e), key, ChangeAt(b, e, w), e.ts, w);
  }

  lemma OthersReportNothing(es: seq<RawEvent>, w: Window, n: nat)
    requires w.bucketMs > 0 && n < |es| && ReportAt(es, w, n).Some?
    ensures var p := ReportAt(es, w, n).value;
            Acts(es, n, p.key) && Applies(Lookup(BookAt(es, w, n), p.key), es[n], p.price, p.side)
  {
    var b, e := BookAt(es, w, n), es[n];
    RunOk(es[..n], w);
    KindsMean(e);
    StepCases(b, e, w);
    var key, previous := KeyOf(b, e), Lookup(b, KeyOf(b, e));
    ActsMean(es, w, n, key);
    AppliesMean(previous, e, EffectivePrice(e, previous).value, EffectiveSide(e, previous));
    ChangeReports(previous, e, key, EffectivePrice(e, previous).value, EffectiveSide(e, previous), w.bucketMs);
  }
}
