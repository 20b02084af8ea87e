/** Conservation of refill contracts over whole runs: what was refilled is executed, withdrawn,
    still resting, or lost to a clear, an add over a live order or a dropped remainder. */
module DomLedger {
  import opened DomModel
  import opened DomInvariants
  import opened DomLevels
  import opened Sums

  ghost function RefillIn(): Order -> int {
    (o: Order) => LotSum(o.lots)
  }

  /** The refill contracts of all live lots. */
  ghost function LiveRefill(b: Book): int {
    MapSum(b.orders, RefillIn())
  }

  /** Refill contracts that vanish unreported with this event. */
  ghost function Lost(b: Book, e: RawEvent): int {
    if Skipped(e) then 0
    else if EventType(e.action) == Clear then LiveRefill(b)
    else LostRefill(Lookup(b, KeyOf(b, e)), e)
  }

  ghost function LostTotal(es: seq<RawEvent>, w: Window): int
    requires w.bucketMs > 0
  {
    if es == [] then 0
    else LostTotal(es[..|es| - 1], w) + Lost(Replay(es[..|es| - 1], w), es[|es| - 1])
  }

  function Emitted(ps: seq<Payload>): int {
    if ps == [] then 0 else Emitted(ps[..|ps| - 1]) + ps[|ps| - 1].refillContracts
  }

  function ExecutedRefill(ps: seq<Payload>): int {
    if ps == [] then 0 else ExecutedRefill(ps[..|ps| - 1]) + ps[|ps| - 1].executedRefill
  }

  function WithdrawnRefill(ps: seq<Payload>): int {
    if ps == [] then 0 else WithdrawnRefill(ps[..|ps| - 1]) + ps[|ps| - 1].withdrawnRefill
  }

  lemma LiveRefillNonNegative(b: Book)
    requires BookOk(b)
    ensures LiveRefill(b) >= 0
  {
    forall k | k in b.orders ensures RefillIn()(b.orders[k]) >= 0 {
      UnitsCount(b.orders[k].lots, b.orders[k].price, b.orders[k].side);
    }
    MapSumNonNegative(b.orders, RefillIn());
  }

  lemma InstallRefill(b: Book, key: Key, c: Change, ts: int, w: Window)
    ensures LiveRefill(Install(b, key, c, ts, w))
         == LiveRefill(b) - LotSum(LotsOf(Lookup(b, key))) + LotSum(LotsOf(c.next))
  {
    if c.next.Some? {
      MapSumUpdate(b.orders, key, c.next.value, RefillIn());
    } else if key in b.orders {
      MapSumRemove(b.orders, key, RefillIn());
    } else {
      assert b.orders - {key} == b.orders;
    }
  }

  lemma StepRefill(b: Book, e: RawEvent, w: Window)
    requires BookOk(b) && w.bucketMs > 0
    ensures Lost(b, e) >= 0
    ensures Step(b, e, w).1.None? ==> LiveRefill(Step(b, e, w).0) + Lost(b, e) == LiveRefill(b)
    ensures Step(b, e, w).1.Some? ==>
              var p := Step(b, e, w).1.value;
              LiveRefill(b) + p.refillContracts
              == LiveRefill(Step(b, e, w).0) + p.executedRefill + p.withdrawnRefill + Lost(b, e)
  {
    StepCases(b, e, w);
    LiveRefillNonNegative(b);
    if Accepts(b, e) {
      InstallRefill(Numbered(b, e), KeyOf(b, e), ChangeAt(b, e, w), e.ts, w);
    }
  }

  /** Main result: over every run the refill ledger balances, and nothing negative is lost. */
  lemma {:induction false} RefillLedger(es: seq<RawEvent>, w: Window)
    requires w.bucketMs > 0
    ensures var (b, out) := Run(es, w);
            && Emitted(out) == ExecutedRefill(out) + WithdrawnRefill(out) + LiveRefill(b) + LostTotal(es, w)
            && LostTotal(es, w) >= 0 && LiveRefill(b) >= 0
  {
    if es != [] {
      var before, e := es[..|es| - 1], es[|es| - 1];
      var (b, out) := Run(before, w);
      RefillLedger(before, w);
      RunOk(before, w);
      StepRefill(b, e, w);
      StepOk(b, e, w);
      LiveRefillNonNegative(Step(b, e, w).0);
      var p := Step(b, e, w).1;
      if p.Some? {
        assert (out + [p.value])[..|out|] == out;
      }
    }
  }

  /** No clear, no add over a live order and no cancel that drops a remainder, so far. */
  ghost predicate NothingDropped(es: seq<RawEvent>, w: Window)
    requires w.bucketMs > 0
  {
    es == [] ||
    (var before, e := es[..|es| - 1], es[|es| - 1];
     var b := Replay(before, w);
     && NothingDropped(before, w) && !Clears(e)
     && (Skipped(e) || KeyOf(b, e) !in b.orders
         || (EventType(e.action) != Add && !DropsRemainder(b.orders[KeyOf(b, e)], e))))
  }

  /** Without such events every refilled contract is executed, withdrawn or still resting. */
  lemma {:induction false} RefillLedgerExact(es: seq<RawEvent>, w: Window)
    requires w.bucketMs > 0 && NothingDropped(es, w)
    ensures LostTotal(es, w) == 0
    ensures var (b, out) := Run(es, w);
            Emitted(out) == ExecutedRefill(out) + WithdrawnRefill(out) + LiveRefill(b)
  {
    RefillLedger(es, w);
    if es != [] {
      RefillLedgerExact(es[..|es| - 1], w);
    }
  }
}
