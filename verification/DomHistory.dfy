/** The segment log is the history of the book: at every instant of the render window the segments
    that cover it are exactly the orders of the book replayed up to that instant. */
module DomHistory {
  import opened Wrappers
  import opened DomModel
  import opened DomLevels
  import opened Sums

  datatype Holding = Holding(id: Key, side: Side, price: Price, size: int)

  predicate Covers(s: Segment, t: int, h: Holding) {
    s.start <= t < s.end && s.id == h.id && s.side == h.side && s.price == h.price && s.size == h.size
  }

  ghost function CoverWeight(t: int, h: Holding): Segment -> int {
    (s: Segment) => if Covers(s, t, h) then 1 else 0
  }

  /** How many segments show holding `h` at instant `t`. */
  ghost function Shown(log: multiset<Segment>, t: int, h: Holding): int {
    BagSum(log, CoverWeight(t, h))
  }

  predicate Rests(o: Order, w: Window, h: Holding) {
    && o.size > 0 && o.id == h.id && o.side == h.side && o.price == h.price && o.size == h.size
    && (w.priceMin == None || w.priceMin.value <= o.price) && (w.priceMax == None || o.price <= w.priceMax.value)
  }

  ghost function OpenWeight(w: Window, t: int, h: Holding): Order -> int {
    (o: Order) => if o.startedAt <= t && Rests(o, w, h) then 1 else 0
  }

  /** Segments that show `h` at `t`, plus orders still open that will. */
  ghost function Seen(b: Book, w: Window, t: int, h: Holding): int {
    Shown(b.segments, t, h) + MapSum(b.orders, OpenWeight(w, t, h))
  }

  lemma CloseWeight(o: Order, end: int, w: Window, t: int, h: Holding)
    requires w.visStart <= t < w.visEnd
    ensures t < end ==> Shown(CloseSegment(o, end, w), t, h) == OpenWeight(w, t, h)(o)
    ensures end <= t ==> Shown(CloseSegment(o, end, w), t, h) == 0
  {
    if Closes(o, end, w) {
      BagSumSingle(SegmentOf(o, end, w), CoverWeight(t, h));
    }
  }

  lemma {:induction false} CloseAllShown(orders: map<Key, Order>, end: int, w: Window, t: int, h: Holding)
    requires w.visStart <= t < w.visEnd && t < end
    ensures Shown(CloseAll(orders, end, w), t, h) == MapSum(orders, OpenWeight(w, t, h))
    decreases |orders|
  {
    if orders != map[] {
      var k :| k in orders
              && CloseAll(orders, end, w) == CloseSegment(orders[k], end, w) + CloseAll(orders - {k}, end, w);
      assert orders.Keys == (orders - {k}).Keys + {k};
      CloseAllShown(orders - {k}, end, w, t, h);
      BagSumUnion(CloseSegment(orders[k], end, w), CloseAll(orders - {k}, end, w), CoverWeight(t, h));
      CloseWeight(orders[k], end, w, t, h);
      MapSumRemove(orders, k, OpenWeight(w, t, h));
    }
  }

  lemma {:induction false} CloseAllEnds(orders: map<Key, Order>, end: int, w: Window)
    ensures forall s :: s in CloseAll(orders, end, w) ==> s.end <= end
    decreases |orders|
  {
    if orders != map[] {
      var k :| k in orders
              && CloseAll(orders, end, w) == CloseSegment(orders[k], end, w) + CloseAll(orders - {k}, end, w);
      assert orders.Keys == (orders - {k}).Keys + {k};
      var first, rest := CloseSegment(orders[k], end, w), CloseAll(orders - {k}, end, w);
      CloseAllEnds(orders - {k}, end, w);
      forall s: Segment | s in first + rest ensures s.end <= end {
        assert s in first || s in rest;
      }
    }
  }

  lemma NextStartsNow(b: Book, e: RawEvent, w: Window)
    requires w.bucketMs > 0 && Accepts(b, e)
    ensures var next := ChangeAt(b, e, w).next; next.Some? ==> next.value.startedAt == e.ts
  {
  }

  lemma InstallSeen(b: Book, key: Key, c: Change, ts: int, w: Window, t: int, h: Holding)
    requires w.visStart <= t < w.visEnd && t < ts
    requires c.next.Some? ==> c.next.value.startedAt == ts
    ensures Seen(Install(b, key, c, ts, w), w, t, h) == Seen(b, w, t, h)
  {
    var f := OpenWeight(w, t, h);
    var closed := if key in b.orders then CloseSegment(b.orders[key], ts, w) else multiset{};
    BagSumUnion(b.segments, closed, CoverWeight(t, h));
    if key in b.orders {
      CloseWeight(b.orders[key], ts, w, t, h);
      MapSumRemove(b.orders, key, f);
    } else {
      assert b.orders - {key} == b.orders;
    }
    if c.next.Some? {
      MapSumUpdate(b.orders, key, c.next.value, f);
    }
  }

  /** A later event does not change what is seen at `t`. */
  lemma LaterStep(b: Book, e: RawEvent, w: Window, t: int, h: Holding)
    requires BookOk(b) && w.bucketMs > 0 && w.visStart <= t < w.visEnd && t < e.ts
    ensures Seen(Step(b, e, w).0, w, t, h) == Seen(b, w, t, h)
  {
    StepCases(b, e, w);
    if Accepts(b, e) {
      NextStartsNow(b, e, w);
      InstallSeen(Numbered(b, e), KeyOf(b, e), ChangeAt(b, e, w), e.ts, w, t, h);
    } else if Clears(e) {
      CloseAllShown(b.orders, e.ts, w, t, h);
      BagSumUnion(b.segments, CloseAll(b.orders, e.ts, w), CoverWeight(t, h));
    }
  }

  /** Everything in the book has started by `t` and every logged segment has ended by `t`. */
  ghost predicate Settled(b: Book, t: int) {
    && (forall s :: s in b.segments ==> s.end <= t)
    && (forall k :: k in b.orders ==> b.orders[k].startedAt <= t)
  }

  lemma {:induction false} EarlierStep(b: Book, e: RawEvent, w: Window, t: int)
    requires BookOk(b) && w.bucketMs > 0 && e.ts <= t && Settled(b, t)
    ensures Settled(Step(b, e, w).0, t)
  {
    StepCases(b, e, w);
    if Accepts(b, e) {
      NextStartsNow(b, e, w);
    } else if Clears(e) {
      CloseAllEnds(b.orders, e.ts, w);
    }
  }

  predicate InTimeOrder(es: seq<RawEvent>) {
    forall i, j :: 0 <= i < j < |es| ==> es[i].ts <= es[j].ts
  }

  function UpTo(es: seq<RawEvent>, t: int): seq<RawEvent> {
    if es == [] then []
    else UpTo(es[..|es| - 1], t) + (if es[|es| - 1].ts <= t then [es[|es| - 1]] else [])
  }

  lemma {:induction false} UpToAll(es: seq<RawEvent>, t: int)
    requires forall e :: e in es ==> e.ts <= t
    ensures UpTo(es, t) == es
  {
    if es != [] {
      UpToAll(es[..|es| - 1], t);
      assert es[..|es| - 1] + [es[|es| - 1]] == es;
    }
  }

  /** Seen at `t` in the whole run is seen at `t` in the run up to `t`. */
  lemma {:induction false} SeenUpTo(es: seq<RawEvent>, w: Window, t: int, h: Holding)
    requires w.bucketMs > 0 && w.visStart <= t < w.visEnd && InTimeOrder(es)
    ensures Seen(Replay(es, w), w, t, h) == Seen(Replay(UpTo(es, t), w), w, t, h)
    ensures Settled(Replay(UpTo(es, t), w), t)
  {
    if es != [] {
      var before, e := es[..|es| - 1], es[|es| - 1];
      SeenUpTo(before, w, t, h);
      RunOk(before, w);
      if e.ts <= t {
        UpToAll(before, t);
        UpToAll(es, t);
        EarlierStep(Replay(before, w), e, w, t);
      } else {
        assert UpTo(es, t) == UpTo(before, t);
        LaterStep(Replay(before, w), e, w, t, h);
      }
    }
  }

  lemma SettledSeen(b: Book, w: Window, t: int, h: Holding)
    requires BookOk(b) && Settled(b, t)
    ensures Seen(b, w, t, h) == if h.id in b.orders && Rests(b.orders[h.id], w, h) then 1 else 0
  {
    var f := OpenWeight(w, t, h);
    BagSumZero(b.segments, CoverWeight(t, h));
    MapSumZero(b.orders - {h.id}, f);
    if h.id in b.orders {
      MapSumRemove(b.orders, h.id, f);
    } else {
      assert b.orders - {h.id} == b.orders;
    }
  }

  /** Main result. For every instant in the render window and every holding: the log shows it once
      if the book replayed up to that instant holds it at a price inside the filter, and otherwise
      not at all. */
  lemma {:induction false} HistoryIsReplay(es: seq<RawEvent>, w: Window, t: int, h: Holding)
    requires w.bucketMs > 0 && w.visStart <= t < w.visEnd && InTimeOrder(es)
    ensures var b := Replay(UpTo(es, t), w);
            Shown(History(es, w), t, h) == if h.id in b.orders && Rests(b.orders[h.id], w, h) then 1 else 0
  {
    var b := Replay(es, w);
    SeenUpTo(es, w, t, h);
    CloseAllShown(b.orders, w.visEnd, w, t, h);
    BagSumUnion(b.segments, CloseAll(b.orders, w.visEnd, w), CoverWeight(t, h));
    RunOk(UpTo(es, t), w);
    SettledSeen(Replay(UpTo(es, t), w), w, t, h);
  }

  // ----- what a segment can be -----

  ghost predicate Clipped(s: Segment, w: Window) {
    && s.size > 0 && w.visStart <= s.start && s.end <= w.visEnd && (w.visStart <= w.visEnd ==> s.start <= s.end)
    && (w.priceMin == None || w.priceMin.value <= s.price) && (w.priceMax == None || s.price <= w.priceMax.value)
  }

  lemma ClosedClipped(o: Order, end: int, w: Window)
    ensures forall s :: s in CloseSegment(o, end, w) ==> Clipped(s, w)
  {
  }

  lemma {:induction false} AllClosedClipped(orders: map<Key, Order>, end: int, w: Window)
    ensures forall s :: s in CloseAll(orders, end, w) ==> Clipped(s, w)
    decreases |orders|
  {
    if orders != map[] {
      var k :| k in orders
              && CloseAll(orders, end, w) == CloseSegment(orders[k], end, w) + CloseAll(orders - {k}, end, w);
      assert orders.Keys == (orders - {k}).Keys + {k};
      AllClosedClipped(orders - {k}, end, w);
      ClosedClipped(orders[k], end, w);
    }
  }

  lemma StepClipped(b: Book, e: RawEvent, w: Window)
    requires BookOk(b) && w.bucketMs > 0 && forall s :: s in b.segments ==> Clipped(s, w)
    ensures forall s :: s in Step(b, e, w).0.segments ==> Clipped(s, w)
  {
    StepCases(b, e, w);
    if Accepts(b, e) {
      var previous := Lookup(b, KeyOf(b, e));
      if previous.Some? {
        ClosedClipped(previous.value, e.ts, w);
      }
    } else if Clears(e) {
      AllClosedClipped(b.orders, e.ts, w);
    }
  }

  lemma {:induction false} ReplayClipped(es: seq<RawEvent>, w: Window)
    requires w.bucketMs > 0
    ensures forall s :: s in Replay(es, w).segments ==> Clipped(s, w)
  {
    if es != [] {
      ReplayClipped(es[..|es| - 1], w);
      RunOk(es[..|es| - 1], w);
      StepClipped(Replay(es[..|es| - 1], w), es[|es| - 1], w);
    }
  }

  /** Main result: every segment shows contracts, lies inside the render window and keeps to the price bounds. */
  lemma SegmentsClipped(es: seq<RawEvent>, w: Window)
    requires w.bucketMs > 0
    ensures forall s :: s in History(es, w) ==> Clipped(s, w)
  {
    ReplayClipped(es, w);
    AllClosedClipped(Replay(es, w).orders, w.visEnd, w);
  }
}
