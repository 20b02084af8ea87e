/** Inputs at which the replay does not do what its names promise: each shows that the failing side of an
    exact condition proved elsewhere is reached. */
module DomFailures {
  import opened Wrappers
  import opened DomModel
  import opened DomInvariants
  import opened DomLevels
  import opened DomHistory
  import opened DomOrdering
  import opened DomPayload
  import Sorting

  const One := Venue("1")

  /** An event of order "1", a bid at price 10. */
  function Event(ts: int, size: int, action: string): RawEvent {
    RawEvent(ts, Some(10.0), size, Bid, action, "1", 0, ts, "")
  }

  function Placed(ts: int, size: int): Order { Order(One, Bid, 10.0, size, ts, ts, 0, size, []) }

  function Holding(ts: int, size: int): Book {
    Book(map[One := Placed(ts, size)], Levels(map[10.0 := size], map[]), multiset{}, 0)
  }

  lemma AfterAdd(ts: int, size: int, w: Window)
    requires w.bucketMs > 0 && size > 0
    ensures Replay([Event(ts, size, "A")], w) == Holding(ts, size)
  {
    var e := Event(ts, size, "A");
    assert [e][..0] == [];
    var c := AddChange(None, e, One, 10.0, Bid);
    assert EventType(e.action) == Add && ChangeOf(None, e, One, 10.0, Bid, w.bucketMs) == c;
    var b := Install(EmptyBook, One, c, ts, w);
    assert Run([], w) == (EmptyBook, []);
    assert Run([e], w).0 == Step(EmptyBook, e, w).0;
    assert Step(EmptyBook, e, w) == Apply(EmptyBook, e, One, w);
    assert Apply(EmptyBook, e, One, w).0 == b;
    assert c.next.value == Placed(ts, size);
    assert b.orders == map[One := Placed(ts, size)];
    assert b.levels == Levels(map[10.0 := size], map[]);
  }

  lemma AfterTwo(x: RawEvent, y: RawEvent, w: Window)
    requires w.bucketMs > 0
    ensures Run([x, y], w).0 == Step(Replay([x], w), y, w).0
    ensures Step(Replay([x], w), y, w).1.Some? ==>
        Run([x, y], w).1 == Run([x], w).1 + [Step(Replay([x], w), y, w).1.value]
  {
    assert [x, y][..1] == [x];
  }

  /** Of two events that sort and de-duplication cannot tell apart, the one delivered first stays. */
  lemma FirstOfTwo(x: RawEvent, y: RawEvent)
    requires IdentityOf(x) == IdentityOf(y)
    ensures Canonical([x, y]) == [x]
  {
    CompareLaws(x, y);
    assert [x, y][1..] == [y] && [y][1..] == [];
    assert Sort([]) == [];
    assert Sort([y]) == Sorting.Insert(y, Sort([]), EventOrder()) == [y];
    assert Sort([x, y]) == Sorting.Insert(x, Sort([y]), EventOrder()) == [x, y];
    assert [x, y][..1] == [x];
    DedupeMore([], x);
    DedupeMore([x], y);
    assert [] + [x] == [x] && [x] + [y] == [x, y];
  }

  /** The book depends on the order of delivery when two adds of one order differ only in size. */
  lemma DeliveryShowsInBook(ts: int, w: Window)
    requires w.bucketMs > 0
    ensures var x, y := Event(ts, 5, "A"), Event(ts, 6, "A");
            && Replay(Canonical([x, y]), w) == Holding(ts, 5)
            && Replay(Canonical([y, x]), w) == Holding(ts, 6)
            && Holding(ts, 5) != Holding(ts, 6)
  {
    FirstOfTwo(Event(ts, 5, "A"), Event(ts, 6, "A"));
    FirstOfTwo(Event(ts, 6, "A"), Event(ts, 5, "A"));
    AfterAdd(ts, 5, w);
    AfterAdd(ts, 6, w);
    assert Holding(ts, 5).orders[One].size != Holding(ts, 6).orders[One].size;
  }

  /** A partial cancel spelled "CANCEL" drops the order but leaves its remainder on the level. */
  lemma CancelLeavesDepth(ts: int, w: Window)
    requires w.bucketMs > 0
    ensures var es := [Event(ts, 5, "A"), Event(ts, 2, "CANCEL")];
            && !NoDropSinceClear(es, w) && !LevelsExact(Replay(es, w))
            && Replay(es, w).orders == map[] && LevelAt(Replay(es, w).levels, Bid, 10.0) == 3
  {
    var x, y := Event(ts, 5, "A"), Event(ts, 2, "CANCEL");
    AfterAdd(ts, 5, w);
    AfterTwo(x, y, w);
    assert [x, y][..1] == [x];
    var c := CancelKnown(Placed(ts, 5), y, One, 10.0, Bid);
    assert c.next == None && c.out == 2;
    assert Step(Holding(ts, 5), y, w).0 == Install(Holding(ts, 5), One, c, ts, w);
    LevelsExactIff([x, y], w);
  }

  /** The snapshot for a plan window that ends before the only event shows that event. */
  lemma SnapshotLooksAhead(w: Window)
    requires w.bucketMs > 0
    ensures var es := [Event(50, 5, "A")];
            && Snapshot(es, w, 40) == Levels(map[10.0 := 5], map[])
            && Replay(UpTo(es, 40), w).levels == Levels(map[], map[])
  {
    var e := Event(50, 5, "A");
    AfterAdd(50, 5, w);
    assert [e][..0] == [];
    assert !SeenBy([e], 40);
  }

  // ----- the reported net change -----

  ghost function Reported(b: Book, e: RawEvent, w: Window): Option<int>
    requires w.bucketMs > 0
  {
    var p := Step(b, e, w).1;
    if p.Some? then Some(p.value.netChange) else None
  }

  /** By how much the bids at price 10 really changed. */
  ghost function Moved(b: Book, e: RawEvent, w: Window): int
    requires w.bucketMs > 0
  {
    LevelAt(Step(b, e, w).0.levels, Bid, 10.0) - LevelAt(b.levels, Bid, 10.0)
  }

  /** An add over a live order: the level falls from 5 to 3 and a rise of 3 is reported. */
  lemma AddOverLiveMisreports(ts: int, w: Window)
    requires w.bucketMs > 0
    ensures var b, e := Replay([Event(ts, 5, "A")], w), Event(ts, 3, "A");
            Misreports(Lookup(b, One), e) && Reported(b, e, w) == Some(3) && Moved(b, e, w) == -2
  {
    AfterAdd(ts, 5, w);
    var b, e := Holding(ts, 5), Event(ts, 3, "A");
    assert Step(b, e, w) == Apply(b, e, One, w);
    assert ChangeOf(Lookup(b, One), e, One, 10.0, Bid, w.bucketMs) == AddChange(Some(Placed(ts, 5)), e, One, 10.0, Bid);
  }

  /** A modify of an unknown order: the level rises by 5 and 10 is reported. */
  lemma ModifyUnknownMisreports(ts: int, w: Window)
    requires w.bucketMs > 0
    ensures var b, e := Replay([], w), Event(ts, 5, "M");
            Misreports(Lookup(b, One), e) && Reported(b, e, w) == Some(10) && Moved(b, e, w) == 5
  {
    var b, e := EmptyBook, Event(ts, 5, "M");
    assert Step(b, e, w) == Apply(b, e, One, w);
    assert ChangeOf(None, e, One, 10.0, Bid, w.bucketMs) == ModifyUnknown(e, One, 10.0, Bid);
  }

  /** A cancel of an unknown order: nothing moves and a fall of 5 is reported. */
  lemma CancelUnknownMisreports(ts: int, w: Window)
    requires w.bucketMs > 0
    ensures var b, e := Replay([], w), Event(ts, 5, "C");
            Misreports(Lookup(b, One), e) && Reported(b, e, w) == Some(-5) && Moved(b, e, w) == 0
  {
    var b, e := EmptyBook, Event(ts, 5, "C");
    assert Step(b, e, w) == Apply(b, e, One, w);
    assert ChangeOf(None, e, One, 10.0, Bid, w.bucketMs) == Untouched(e, One, 10.0, Bid);
  }
}
