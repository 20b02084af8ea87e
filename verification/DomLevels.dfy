/** Price levels against live orders, over whole runs: a level is the depth of its live orders plus
    the remainders that partial cancels not spelled "C" left behind since the last clear. */
module DomLevels {
  import opened Wrappers
  import opened DomModel
  import opened DomInvariants
  import opened Sums

  ghost predicate PositiveLevels(l: Levels) {
    && (forall p :: p in l.bids ==> l.bids[p] > 0)
    && (forall p :: p in l.asks ==> l.asks[p] > 0)
  }

  ghost predicate BookOk(b: Book) {
    && (forall k :: k in b.orders ==> OrderOk(k, b.orders[k]))
    && PositiveLevels(b.levels)
  }

  ghost function SizeAt(side: Side, price: Price): Order -> int {
    (o: Order) => if o.side == side && o.price == price then o.size else 0
  }

  /** The live depth of a level: the sizes of all orders resting on it. */
  ghost function Depth(b: Book, side: Side, price: Price): int {
    MapSum(b.orders, SizeAt(side, price))
  }

  ghost function Excess(b: Book, side: Side, price: Price): int {
    LevelAt(b.levels, side, price) - Depth(b, side, price)
  }

  lemma AdjustAt(l: Levels, side: Side, price: Price, delta: int, s: Side, p: Price)
    requires PositiveLevels(l) && side != NoSide && s != NoSide
    ensures PositiveLevels(Adjust(l, side, price, delta))
    ensures LevelAt(Adjust(l, side, price, delta), s, p)
         == if s == side && p == price then Max(0, LevelAt(l, s, p) + delta) else LevelAt(l, s, p)
  {
  }

  function Ghost(previous: Option<Order>, e: RawEvent, s: Side, p: Price): int {
    if previous.Some? && previous.value.side == s && previous.value.price == p then GhostDepth(previous, e) else 0
  }

  predicate At(o: Option<Order>, s: Side, p: Price) {
    o.Some? && o.value.side == s && o.value.price == p
  }

  lemma DepositedAt(l: Levels, o: Option<Order>, delta: int, s: Side, p: Price)
    requires PositiveLevels(l) && s != NoSide && (o.Some? ==> o.value.side != NoSide)
    ensures PositiveLevels(Deposited(l, o, delta))
    ensures LevelAt(Deposited(l, o, delta), s, p)
         == if At(o, s, p) then Max(0, LevelAt(l, s, p) + delta) else LevelAt(l, s, p)
  {
    if o.Some? {
      AdjustAt(l, o.value.side, o.value.price, delta, s, p);
    }
  }

  lemma LevelAtLeastZero(l: Levels, s: Side, p: Price)
    requires PositiveLevels(l)
    ensures LevelAt(l, s, p) >= 0
  {
  }

  lemma {:induction false} LevelAfter(b: Book, key: Key, c: Change, ts: int, w: Window, s: Side, p: Price)
    requires PositiveLevels(b.levels) && s != NoSide
    requires var o := Lookup(b, key); o.Some? ==>
        o.value.side != NoSide && (At(o, s, p) ==> c.out <= LevelAt(b.levels, s, p))
    requires c.next.Some? ==> c.next.value.side != NoSide && c.deposit >= 0
    ensures PositiveLevels(Install(b, key, c, ts, w).levels)
    ensures LevelAt(Install(b, key, c, ts, w).levels, s, p)
         == LevelAt(b.levels, s, p) - (if At(Lookup(b, key), s, p) then c.out else 0)
            + (if At(c.next, s, p) then c.deposit else 0)
  {
    var o := Lookup(b, key);
    var lowered := Deposited(b.levels, o, -c.out);
    DepositedAt(b.levels, o, -c.out, s, p);
    LevelAtLeastZero(lowered, s, p);
    DepositedAt(lowered, c.next, c.deposit, s, p);
    assert Install(b, key, c, ts, w).levels == Deposited(lowered, c.next, c.deposit);
  }

  lemma DepthAfter(b: Book, key: Key, c: Change, ts: int, w: Window, s: Side, p: Price)
    ensures Depth(Install(b, key, c, ts, w), s, p)
         == Depth(b, s, p) - (if At(Lookup(b, key), s, p) then SizeOf(Lookup(b, key)) else 0)
            + (if At(c.next, s, p) then SizeOf(c.next) else 0)
  {
    var f := SizeAt(s, p);
    if c.next.Some? {
      MapSumUpdate(b.orders, key, c.next.value, f);
    } else if key in b.orders {
      MapSumRemove(b.orders, key, f);
    } else {
      assert b.orders - {key} == b.orders;
    }
  }

  lemma DepthCoversOrder(b: Book, key: Key, s: Side, p: Price)
    requires BookOk(b) && At(Lookup(b, key), s, p)
    ensures Depth(b, s, p) >= SizeOf(Lookup(b, key))
  {
    MapSumRemove(b.orders, key, SizeAt(s, p));
    MapSumNonNegative(b.orders - {key}, SizeAt(s, p));
  }

  lemma InstallDepth(b: Book, e: RawEvent, key: Key, c: Change, w: Window, s: Side, p: Price)
    requires BookOk(b) && Lawful(Lookup(b, key), e, key, c) && s != NoSide
    requires Excess(b, s, p) >= 0
    ensures Excess(Install(b, key, c, e.ts, w), s, p) == Excess(b, s, p) + Ghost(Lookup(b, key), e, s, p)
  {
    if At(Lookup(b, key), s, p) {
      DepthCoversOrder(b, key, s, p);
    }
    LevelAfter(b, key, c, e.ts, w, s, p);
    DepthAfter(b, key, c, e.ts, w, s, p);
  }

  lemma InstallOk(b: Book, e: RawEvent, key: Key, c: Change, w: Window)
    requires BookOk(b) && Lawful(Lookup(b, key), e, key, c)
    ensures BookOk(Install(b, key, c, e.ts, w))
  {
    LevelsStayPositive(b.levels, Lookup(b, key), -c.out);
    LevelsStayPositive(Deposited(b.levels, Lookup(b, key), -c.out), c.next, c.deposit);
    var lowered := Deposited(b.levels, Lookup(b, key), -c.out);
    assert Install(b, key, c, e.ts, w).levels == Deposited(lowered, c.next, c.deposit);
  }

  lemma LevelsStayPositive(l: Levels, o: Option<Order>, delta: int)
    requires PositiveLevels(l)
    ensures PositiveLevels(Deposited(l, o, delta))
  {
  }

  ghost predicate Clears(e: RawEvent) { !Skipped(e) && EventType(e.action) == Clear }

  /** The event names a side and a price, its own or those of the order it addresses. */
  predicate Accepts(b: Book, e: RawEvent) {
    && !Skipped(e) && EventType(e.action) != Clear
    && EffectivePrice(e, Lookup(b, KeyOf(b, e))).Some?
    && EffectiveSide(e, Lookup(b, KeyOf(b, e))) != NoSide
  }

  function ChangeAt(b: Book, e: RawEvent, w: Window): Change
    requires w.bucketMs > 0 && Accepts(b, e)
  {
    var previous := Lookup(b, KeyOf(b, e));
    ChangeOf(previous, e, KeyOf(b, e), EffectivePrice(e, previous).value, EffectiveSide(e, previous), w.bucketMs)
  }

  /** A step installs a lawful change of one order, clears the book, or leaves it as it is. */
  lemma {:induction false} StepCases(b: Book, e: RawEvent, w: Window)
    requires BookOk(b) && w.bucketMs > 0
    ensures Accepts(b, e) ==>
              var c := ChangeAt(b, e, w);
              && Lawful(Lookup(b, KeyOf(b, e)), e, KeyOf(b, e), c)
              && Step(b, e, w) == (Install(Numbered(b, e), KeyOf(b, e), c, e.ts, w), Some(c.payload))
    ensures !Accepts(b, e) && !Clears(e) ==>
              && (Skipped(e) || KeyOf(b, e) !in b.orders)
              && (Step(b, e, w) == (b, None) || Step(b, e, w) == (Numbered(b, e), None))
  {
    if Accepts(b, e) {
      var previous := Lookup(b, KeyOf(b, e));
      ChangeLawful(previous, e, KeyOf(b, e), EffectivePrice(e, previous).value, EffectiveSide(e, previous), w.bucketMs);
    }
  }

  lemma {:induction false} StepOk(b: Book, e: RawEvent, w: Window)
    requires BookOk(b) && w.bucketMs > 0
    ensures BookOk(Step(b, e, w).0)
  {
    StepCases(b, e, w);
    if Accepts(b, e) {
      InstallOk(Numbered(b, e), e, KeyOf(b, e), ChangeAt(b, e, w), w);
    }
  }

  /** The depth that event `e` abandons on the level (s, p). */
  ghost function Abandoned(b: Book, e: RawEvent, s: Side, p: Price): int {
    if Skipped(e) then 0 else Ghost(Lookup(b, KeyOf(b, e)), e, s, p)
  }

  lemma StepDepth(b: Book, e: RawEvent, w: Window, s: Side, p: Price)
    requires BookOk(b) && w.bucketMs > 0 && s != NoSide
    requires Excess(b, s, p) >= 0
    ensures Excess(Step(b, e, w).0, s, p) == if Clears(e) then 0 else Excess(b, s, p) + Abandoned(b, e, s, p)
  {
    StepCases(b, e, w);
    if Accepts(b, e) {
      InstallDepth(Numbered(b, e), e, KeyOf(b, e), ChangeAt(b, e, w), w, s, p);
    } else if Clears(e) {
      assert Step(b, e, w).0.orders == map[];
    }
  }

  /** All the depth abandoned on a level since the last clear. */
  ghost function GhostTotal(es: seq<RawEvent>, w: Window, s: Side, p: Price): int
    requires w.bucketMs > 0
  {
    if es == [] then 0
    else
      var before, e := es[..|es| - 1], es[|es| - 1];
      if Clears(e) then 0 else GhostTotal(before, w, s, p) + Abandoned(Replay(before, w), e, s, p)
  }

  lemma {:induction false} RunOk(es: seq<RawEvent>, w: Window)
    requires w.bucketMs > 0
    ensures BookOk(Replay(es, w))
  {
    if es != [] {
      RunOk(es[..|es| - 1], w);
      StepOk(Replay(es[..|es| - 1], w), es[|es| - 1], w);
    }
  }

  /** Main result: in every reachable book, every level is exactly its live depth plus the depth
      abandoned on it since the last clear; so it is never below the live depth. */
  lemma {:induction false} LevelIsDepthPlusGhost(es: seq<RawEvent>, w: Window, s: Side, p: Price)
    requires w.bucketMs > 0 && s != NoSide
    ensures var b := Replay(es, w);
            && LevelAt(b.levels, s, p) == Depth(b, s, p) + GhostTotal(es, w, s, p)
            && GhostTotal(es, w, s, p) >= 0
  {
    if es != [] {
      var before, e := es[..|es| - 1], es[|es| - 1];
      RunOk(before, w);
      LevelIsDepthPlusGhost(before, w, s, p);
      StepDepth(Replay(before, w), e, w, s, p);
    }
  }

  /** No partial cancel dropped a live order's remainder since the last clear. */
  ghost predicate NoDropSinceClear(es: seq<RawEvent>, w: Window)
    requires w.bucketMs > 0
  {
    es == [] ||
    (var before, e := es[..|es| - 1], es[|es| - 1];
     var b := Replay(before, w);
     Clears(e) || (NoDropSinceClear(before, w)
                   && (Skipped(e) || KeyOf(b, e) !in b.orders || !DropsRemainder(b.orders[KeyOf(b, e)], e))))
  }

  lemma {:induction false} DropLeavesGhost(es: seq<RawEvent>, w: Window) returns (s: Side, p: Price)
    requires w.bucketMs > 0 && !NoDropSinceClear(es, w)
    ensures s != NoSide && GhostTotal(es, w, s, p) > 0
  {
    var before, e := es[..|es| - 1], es[|es| - 1];
    var b := Replay(before, w);
    RunOk(before, w);
    if NoDropSinceClear(before, w) {
      var o := b.orders[KeyOf(b, e)];
      s, p := o.side, o.price;
      LevelIsDepthPlusGhost(before, w, s, p);
    } else {
      s, p := DropLeavesGhost(before, w);
    }
  }

  lemma {:induction false} NoDropNoGhost(es: seq<RawEvent>, w: Window, s: Side, p: Price)
    requires w.bucketMs > 0 && NoDropSinceClear(es, w)
    ensures GhostTotal(es, w, s, p) == 0
  {
    if es != [] && !Clears(es[|es| - 1]) {
      NoDropNoGhost(es[..|es| - 1], w, s, p);
    }
  }

  ghost predicate LevelsExact(b: Book) {
    forall s, p :: s != NoSide ==> LevelAt(b.levels, s, p) == Depth(b, s, p)
  }

  /** The levels agree with the live orders exactly when no partial cancel since the last clear
      dropped a remainder. */
  lemma LevelsExactIff(es: seq<RawEvent>, w: Window)
    requires w.bucketMs > 0
    ensures LevelsExact(Replay(es, w)) <==> NoDropSinceClear(es, w)
  {
    var b := Replay(es, w);
    if NoDropSinceClear(es, w) {
      forall s, p | s != NoSide ensures LevelAt(b.levels, s, p) == Depth(b, s, p) {
        NoDropNoGhost(es, w, s, p);
        LevelIsDepthPlusGhost(es, w, s, p);
      }
    } else {
      var s, p := DropLeavesGhost(es, w);
      LevelIsDepthPlusGhost(es, w, s, p);
    }
  }
}
