/** Every reported refill has a cause: an earlier execution on the same tracked order, with the
    order kept at its price and side, and never added anew, in between. */
module DomCause {
  import opened Wrappers
  import opened DomModel
  import opened DomInvariants
  import opened DomLevels

  ghost function BookAt(es: seq<RawEvent>, w: Window, n: nat): Book
    requires w.bucketMs > 0 && n <= |es|
  {
    Replay(es[..n], w)
  }

  lemma AtStep(es: seq<RawEvent>, w: Window, n: nat)
    requires w.bucketMs > 0 && n < |es|
    ensures BookAt(es, w, n + 1) == Step(BookAt(es, w, n), es[n], w).0
  {
    assert es[..n + 1][..n] == es[..n];
  }

  ghost predicate ActsOn(es: seq<RawEvent>, w: Window, n: nat, key: Key)
    requires w.bucketMs > 0 && n < |es|
  {
    Addresses(BookAt(es, w, n), es[n], key)
  }

  ghost predicate HeldAt(es: seq<RawEvent>, w: Window, n: nat, key: Key, side: Side, price: Price)
    requires w.bucketMs > 0 && n <= |es|
  {
    var b := BookAt(es, w, n);
    key in b.orders && b.orders[key].side == side && b.orders[key].price == price
  }

  /** Event `j` executes a positive size on the order `key`, which from then until just before
      event `i` stays tracked at (side, price) and is never added again. */
  ghost predicate Causes(es: seq<RawEvent>, w: Window, j: nat, i: nat, key: Key, side: Side, price: Price)
    requires w.bucketMs > 0 && i <= |es|
  {
    && j < i
    && ActsOn(es, w, j, key) && EventType(es[j].action) == Execute && es[j].size > 0
    && Held(es, w, j, i, key, side, price) && NotAdded(es, w, j, i, key)
  }

  ghost predicate Held(es: seq<RawEvent>, w: Window, j: nat, i: nat, key: Key, side: Side, price: Price)
    requires w.bucketMs > 0 && i <= |es|
  {
    forall m: nat :: j <= m <= i ==> HeldAt(es, w, m, key, side, price)
  }

  ghost predicate NotAdded(es: seq<RawEvent>, w: Window, j: nat, i: nat, key: Key)
    requires w.bucketMs > 0 && i <= |es|
  {
    forall m: nat :: j < m < i && ActsOn(es, w, m, key) ==> EventType(es[m].action) != Add
  }

  /** An order that may report a refill. */
  predicate Credit(o: Order) {
    o.pending > 0 || o.lots != []
  }

  lemma CreditSource(previous: Option<Order>, e: RawEvent, key: Key, price: Price, side: Side, bucketMs: int)
    requires Tracked(EventType(e.action)) && side != NoSide && bucketMs > 0
    requires previous.Some? ==> OrderOk(key, previous.value)
    ensures var c := ChangeOf(previous, e, key, price, side, bucketMs);
            (c.next.Some? && Credit(c.next.value)) || c.payload.refillContracts > 0 ==>
              && previous.Some? && EventType(e.action) != Add
              && (c.next.Some? ==> SameLevel(previous.value, c.next.value))
              && (Credit(previous.value) || (EventType(e.action) == Execute && e.size > 0))
    ensures var c := ChangeOf(previous, e, key, price, side, bucketMs);
            c.payload.refillContracts > 0 ==>
              && previous.Some? && previous.value.side == side && previous.value.price == price
              && EventType(e.action) == Modify && Credit(previous.value)
  {
    if previous.Some? {
      var o := previous.value;
      if o.lots == [] {
        assert forall q :: ConsumeLots(o.lots, q) == ([], 0);
      }
    }
  }

  ghost predicate HasCause(es: seq<RawEvent>, w: Window, i: nat, key: Key, side: Side, price: Price)
    requires w.bucketMs > 0 && i <= |es|
  {
    exists j: nat :: Causes(es, w, j, i, key, side, price)
  }

  lemma {:induction false} ExtendCause(es: seq<RawEvent>, w: Window, n: nat, key: Key, side: Side, price: Price)
    requires w.bucketMs > 0 && n < |es|
    requires HasCause(es, w, n, key, side, price) && HeldAt(es, w, n + 1, key, side, price)
    requires ActsOn(es, w, n, key) ==> EventType(es[n].action) != Add
    ensures HasCause(es, w, n + 1, key, side, price)
  {
    var j: nat :| Causes(es, w, j, n, key, side, price);
    HeldLonger(es, w, j, n, key, side, price);
    NotAddedLonger(es, w, j, n, key);
    assert Causes(es, w, j, n + 1, key, side, price);
  }

  lemma {:induction false} HeldLonger(es: seq<RawEvent>, w: Window, j: nat, n: nat, key: Key, side: Side, price: Price)
    requires w.bucketMs > 0 && n < |es|
    requires Held(es, w, j, n, key, side, price) && HeldAt(es, w, n + 1, key, side, price)
    ensures Held(es, w, j, n + 1, key, side, price)
  {
  }

  lemma {:induction false} NotAddedLonger(es: seq<RawEvent>, w: Window, j: nat, n: nat, key: Key)
    requires w.bucketMs > 0 && n < |es| && NotAdded(es, w, j, n, key)
    requires ActsOn(es, w, n, key) ==> EventType(es[n].action) != Add
    ensures NotAdded(es, w, j, n + 1, key)
  {
  }

  lemma {:induction false} NewCause(es: seq<RawEvent>, w: Window, n: nat, key: Key, side: Side, price: Price)
    requires w.bucketMs > 0 && n < |es|
    requires ActsOn(es, w, n, key) && EventType(es[n].action) == Execute && es[n].size > 0
    requires HeldAt(es, w, n, key, side, price) && HeldAt(es, w, n + 1, key, side, price)
    ensures HasCause(es, w, n + 1, key, side, price)
  {
    assert Causes(es, w, n, n + 1, key, side, price);
  }

  predicate Addresses(b: Book, e: RawEvent, key: Key) {
    !Skipped(e) && EventType(e.action) != Clear && KeyOf(b, e) == key
  }

  lemma {:induction false} CreditStep(b: Book, e: RawEvent, w: Window, key: Key)
    requires BookOk(b) && w.bucketMs > 0
    requires key in Step(b, e, w).0.orders && Credit(Step(b, e, w).0.orders[key])
    ensures key in b.orders && SameLevel(b.orders[key], Step(b, e, w).0.orders[key])
    ensures Addresses(b, e, key) ==> EventType(e.action) != Add
    ensures Credit(b.orders[key]) || (Addresses(b, e, key) && EventType(e.action) == Execute && e.size > 0)
  {
    StepCases(b, e, w);
    if Accepts(b, e) && KeyOf(b, e) == key {
      var previous := Lookup(b, key);
      CreditSource(previous, e, key, EffectivePrice(e, previous).value, EffectiveSide(e, previous), w.bucketMs);
      assert ChangeAt(b, e, w).next == Some(Step(b, e, w).0.orders[key]);
    }
  }

  /** Whoever may report a refill has been executed before. */
  lemma {:induction false} CreditHasCause(es: seq<RawEvent>, w: Window, n: nat, key: Key)
    requires w.bucketMs > 0 && n <= |es|
    requires key in BookAt(es, w, n).orders && Credit(BookAt(es, w, n).orders[key])
    ensures HasCause(es, w, n, key, BookAt(es, w, n).orders[key].side, BookAt(es, w, n).orders[key].price)
  {
    assert es[..0] == [];
    if n > 0 {
      var b, o := BookAt(es, w, n - 1), BookAt(es, w, n).orders[key];
      AtStep(es, w, n - 1);
      RunOk(es[..n - 1], w);
      CreditStep(b, es[n - 1], w, key);
      assert HeldAt(es, w, n - 1, key, o.side, o.price) && HeldAt(es, w, n, key, o.side, o.price);
      if Credit(b.orders[key]) {
        CreditHasCause(es, w, n - 1, key);
        ExtendCause(es, w, n - 1, key, o.side, o.price);
      } else {
        NewCause(es, w, n - 1, key, o.side, o.price);
      }
    }
  }

  /** Main result: a positive refill reported by event `i` was preceded by such an execution, and
      the refilling event itself keeps the order's price and side. */
  lemma RefillHasCause(es: seq<RawEvent>, w: Window, i: nat)
    requires w.bucketMs > 0 && i < |es|
    requires var p := Step(BookAt(es, w, i), es[i], w).1; p.Some? && p.value.refillContracts > 0
    ensures var p := Step(BookAt(es, w, i), es[i], w).1.value;
            ActsOn(es, w, i, p.key) && HasCause(es, w, i, p.key, p.side, p.price)
  {
    var b, e := BookAt(es, w, i), es[i];
    RunOk(es[..i], w);
    var key := KeyOf(b, e);
    var previous := Lookup(b, key);
    CreditSource(previous, e, key, EffectivePrice(e, previous).value, EffectiveSide(e, previous), w.bucketMs);
    CreditHasCause(es, w, i, key);
  }
}
