/** When a refill is reported: exactly when a modify raises a live order at its price and side that was filled since it
    last began anew, or in which refilled contracts still rest. */
module DomRefills {
  import opened Wrappers
  import opened DomModel
  import opened DomInvariants
  import opened DomLevels
  import opened DomCause
  import opened DomMeaning

  /** The contracts that event `n` fills on the order. */
  function FilledBy(es: seq<RawEvent>, n: nat, key: Key): nat
    requires n < |es|
  {
    if Acts(es, n, key) && IsFill(es[n]) && es[n].size > 0 then es[n].size else 0
  }

  /** The contracts filled on the order by the events from `s` up to, not including, `n`. */
  function FilledBetween(es: seq<RawEvent>, s: nat, n: nat, key: Key): nat
    requires s <= n <= |es|
  {
    if s == n then 0 else FilledBetween(es, s, n - 1, key) + FilledBy(es, n - 1, key)
  }

  ghost function OrderAt(es: seq<RawEvent>, w: Window, n: nat, key: Key): Option<Order>
    requires w.bucketMs > 0 && n <= |es|
  {
    Lookup(BookAt(es, w, n), key)
  }

  ghost predicate ReportsRefill(es: seq<RawEvent>, w: Window, n: nat, key: Key)
    requires w.bucketMs > 0 && n < |es|
  {
    var p := ReportAt(es, w, n); p.Some? && p.value.key == key && p.value.refillContracts > 0
  }

  /** With event `n` the order begins anew: it is added, appears, disappears, moves, or is refilled. */
  ghost predicate BeginsAnew(es: seq<RawEvent>, w: Window, n: nat, key: Key)
    requires w.bucketMs > 0 && n < |es|
  {
    var o, o' := OrderAt(es, w, n, key), OrderAt(es, w, n + 1, key);
    || (Acts(es, n, key) && IsAdd(es[n])) || o == None || o' == None
    || o.value.price != o'.value.price || o.value.side != o'.value.side || ReportsRefill(es, w, n, key)
  }

  /** The order last began anew just before event `s`. */
  ghost predicate Since(es: seq<RawEvent>, w: Window, s: nat, n: nat, key: Key)
    requires w.bucketMs > 0 && n <= |es|
  {
    s <= n && (s > 0 ==> BeginsAnew(es, w, s - 1, key)) && forall m: nat :: s <= m < n ==> !BeginsAnew(es, w, m, key)
  }

  lemma {:induction false} SinceSome(es: seq<RawEvent>, w: Window, n: nat, key: Key) returns (s: nat)
    requires w.bucketMs > 0 && n <= |es|
    ensures Since(es, w, s, n, key)
  {
    if n == 0 || BeginsAnew(es, w, n - 1, key) {
      s := n;
    } else {
      s := SinceSome(es, w, n - 1, key);
    }
  }

  /** A live order always has a price and a side for an event to apply to. */
  lemma Place(es: seq<RawEvent>, w: Window, n: nat, key: Key) returns (price: Price, side: Side)
    requires w.bucketMs > 0 && n < |es| && OrderAt(es, w, n, key).Some?
    ensures Applies(OrderAt(es, w, n, key), es[n], price, side)
    ensures var o := OrderAt(es, w, n, key).value;
            && price == (if HasPrice(es[n]) then es[n].price.value else o.price)
            && side == (if es[n].side != NoSide then es[n].side else o.side)
  {
    RunOk(es[..n], w);
    var o := OrderAt(es, w, n, key).value;
    price := if HasPrice(es[n]) then es[n].price.value else o.price;
    side := if es[n].side != NoSide then es[n].side else o.side;
  }

  /** What becomes of the credit of an order that begins anew. */
  lemma NewCredit(es: seq<RawEvent>, w: Window, n: nat, key: Key)
    requires w.bucketMs > 0 && n < |es| && BeginsAnew(es, w, n, key) && OrderAt(es, w, n + 1, key).Some?
    ensures OrderAt(es, w, n + 1, key).value.pending == 0
  {
    EventTurns(es, w, n);
    if ReportsRefill(es, w, n, key) {
      OthersReportNothing(es, w, n);
    }
    if OrderAt(es, w, n, key).Some? {
      var price, side := Place(es, w, n, key);
      if Acts(es, n, key) {
        EventReports(es, w, n, key, price, side);
      }
    }
  }

  /** What becomes of the credit of an order that stays. */
  lemma SameCredit(es: seq<RawEvent>, w: Window, n: nat, key: Key)
    requires w.bucketMs > 0 && n < |es| && !BeginsAnew(es, w, n, key)
    ensures OrderAt(es, w, n, key).Some? && OrderAt(es, w, n + 1, key).Some?
    ensures OrderAt(es, w, n + 1, key).value.pending == OrderAt(es, w, n, key).value.pending + FilledBy(es, n, key)
  {
    EventTurns(es, w, n);
    var price, side := Place(es, w, n, key);
    if Acts(es, n, key) {
      EventReports(es, w, n, key, price, side);
    }
  }

  /** Main result: in every reachable book the refill credit of an order is the contracts filled on it since it last
      began anew. */
  lemma {:induction false} CreditIsFilled(es: seq<RawEvent>, w: Window, s: nat, n: nat, key: Key)
    requires w.bucketMs > 0 && n <= |es| && Since(es, w, s, n, key) && OrderAt(es, w, n, key).Some?
    ensures OrderAt(es, w, n, key).value.pending == FilledBetween(es, s, n, key)
  {
    if s == n {
      if n > 0 {
        NewCredit(es, w, n - 1, key);
      }
    } else {
      SameCredit(es, w, n - 1, key);
      CreditIsFilled(es, w, s, n - 1, key);
    }
  }

  /** The event keeps the price and side of the order. */
  predicate Stays(o: Order, e: RawEvent) {
    (e.price in {None, Some(0.0), Some(o.price)}) && e.side in {NoSide, o.side}
  }

  /** Main result: an event reports a refill of a live order if and only if it is a modify that keeps its price and
      side and raises it, and the order was filled since it last began anew or holds refilled contracts. The refill is
      exactly the rise. */
  lemma RefillIff(es: seq<RawEvent>, w: Window, s: nat, n: nat, key: Key)
    requires w.bucketMs > 0 && n < |es| && Since(es, w, s, n, key) && OrderAt(es, w, n, key).Some?
    ensures var o, e := OrderAt(es, w, n, key).value, es[n];
            ReportsRefill(es, w, n, key)
            <==> Acts(es, n, key) && IsModify(e) && Stays(o, e) && e.size > o.size
                 && (FilledBetween(es, s, n, key) > 0 || LotSum(o.lots) > 0)
    ensures ReportsRefill(es, w, n, key) ==>
              ReportAt(es, w, n).value.refillContracts == es[n].size - OrderAt(es, w, n, key).value.size
  {
    CreditIsFilled(es, w, s, n, key);
    var price, side := Place(es, w, n, key);
    if Acts(es, n, key) {
      EventReports(es, w, n, key, price, side);
    } else if ReportsRefill(es, w, n, key) {
      OthersReportNothing(es, w, n);
    }
  }

  /** An unknown order is never refilled. */
  lemma UnknownNotRefilled(es: seq<RawEvent>, w: Window, n: nat, key: Key)
    requires w.bucketMs > 0 && n < |es| && OrderAt(es, w, n, key) == None
    ensures !ReportsRefill(es, w, n, key)
  {
    if ReportsRefill(es, w, n, key) {
      OthersReportNothing(es, w, n);
      var p := ReportAt(es, w, n).value;
      EventReports(es, w, n, key, p.price, p.side);
    }
  }

  // ----- one refill -----

  /** An event of order "1", a bid at price 10. */
  function Event(ts: int, size: int, action: string): RawEvent {
    RawEvent(ts, Some(10.0), size, Bid, action, "1", 0, ts, "")
  }

  /** An order of 10 contracts, filled for 4 and then raised to 10 again, reports a refill of 4. */
  lemma FilledThenRaised(w: Window)
    requires w.bucketMs > 0
    ensures var es, key := [Event(1, 10, "A"), Event(2, 4, "F"), Event(3, 10, "M")], Venue("1");
            ReportsRefill(es, w, 2, key) && ReportAt(es, w, 2).value.refillContracts == 4
  {
    var es, key := [Event(1, 10, "A"), Event(2, 4, "F"), Event(3, 10, "M")], Venue("1");
    assert es[..0] == [];
    assert Acts(es, 0, key) && Acts(es, 1, key) && Acts(es, 2, key);
    EventTurns(es, w, 0);
    assert Applies(OrderAt(es, w, 0, key), es[0], 10.0, Bid);
    assert BeginsAnew(es, w, 0, key);
    EventTurns(es, w, 1);
    assert Applies(OrderAt(es, w, 1, key), es[1], 10.0, Bid);
    RefillIff(es, w, 1, 1, key);
    assert !BeginsAnew(es, w, 1, key);
    assert FilledBetween(es, 1, 1, key) == 0 && FilledBetween(es, 1, 2, key) == 4;
    RefillIff(es, w, 1, 2, key);
  }
}
