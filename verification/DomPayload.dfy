/** The driver: sorts and de-duplicates the delivered events, replays them, keeps the refill tallies
    and the book at the end of the plan window, and closes what is still open. */
module DomPayload {
  import opened Wrappers
  import opened DomModel
  import opened DomHistory
  import opened DomOrdering
  import opened DomRefillPoints
  import opened DomReplay

  predicate SeenBy(es: seq<RawEvent>, planEnd: int) {
    exists e :: e in es && !Skipped(e) && e.ts <= planEnd
  }

  /** The level tables shown to the user. */
  ghost function Snapshot(es: seq<RawEvent>, w: Window, planEnd: int): Levels
    requires w.bucketMs > 0
  {
    if SeenBy(es, planEnd) then Replay(UpTo(es, planEnd), w).levels else Replay(es, w).levels
  }

  lemma RunStep(es: seq<RawEvent>, e: RawEvent, w: Window)
    requires w.bucketMs > 0
    ensures Replay(es + [e], w) == Step(Replay(es, w), e, w).0
    ensures Run(es + [e], w).1
         == Run(es, w).1 + (var p := Step(Replay(es, w), e, w).1; if p.Some? then [p.value] else [])
  {
    assert (es + [e])[..|es|] == es;
  }

  lemma EarlierAll(es: seq<RawEvent>, e: RawEvent)
    requires InTimeOrder(es + [e])
    ensures forall x :: x in es ==> x.ts <= e.ts
  {
    forall x | x in es ensures x.ts <= e.ts {
      var i :| 0 <= i < |es| && es[i] == x;
      assert (es + [e])[i].ts <= (es + [e])[|es|].ts;
    }
  }

  lemma UpToStep(es: seq<RawEvent>, e: RawEvent, t: int)
    requires InTimeOrder(es + [e])
    ensures UpTo(es + [e], t) == if e.ts <= t then es + [e] else UpTo(es, t)
  {
    assert (es + [e])[..|es|] == es;
    if e.ts <= t {
      EarlierAll(es, e);
      UpToAll(es, t);
    }
  }

  /** The snapshot is the book at the end of the plan window, unless every event of the run comes
      later: then it shows those later events. */
  lemma SnapshotFaithful(es: seq<RawEvent>, w: Window, planEnd: int)
    requires w.bucketMs > 0
    ensures Snapshot(es, w, planEnd) == Replay(UpTo(es, planEnd), w).levels
       <==> SeenBy(es, planEnd) || Replay(es, w).levels == Levels(map[], map[])
  {
    if !SeenBy(es, planEnd) {
      UpToMembers(es, planEnd);
      NothingReplayed(UpTo(es, planEnd), w);
    }
  }

  /** The guard a caller can check: once some replayed event lies inside the window, the snapshot is right. */
  lemma SnapshotSeen(es: seq<RawEvent>, w: Window, planEnd: int)
    requires w.bucketMs > 0 && SeenBy(es, planEnd)
    ensures Snapshot(es, w, planEnd) == Replay(UpTo(es, planEnd), w).levels
  {
    SnapshotFaithful(es, w, planEnd);
  }

  lemma {:induction false} UpToMembers(es: seq<RawEvent>, t: int)
    ensures forall e :: e in UpTo(es, t) ==> e in es && e.ts <= t
  {
    if es != [] {
      UpToMembers(es[..|es| - 1], t);
    }
  }

  lemma {:induction false} NothingReplayed(es: seq<RawEvent>, w: Window)
    requires w.bucketMs > 0 && forall e :: e in es ==> Skipped(e)
    ensures Replay(es, w) == EmptyBook
  {
    if es != [] {
      NothingReplayed(es[..|es| - 1], w);
    }
  }

  /** What the driver carries beside the book. */
  datatype Progress = Progress(
    payloads: seq<Payload>, tallies: map<PointKey, Point>, seen: bool, snapshot: Levels)

  ghost predicate InStep(p: Progress, es: seq<RawEvent>, w: Window, planEnd: int)
    requires w.bucketMs > 0
  {
    && p.payloads == Run(es, w).1
    && p.tallies == Tallies(p.payloads, w.bucketMs)
    && p.seen == SeenBy(es, planEnd)
    && (p.seen ==> p.snapshot == Replay(UpTo(es, planEnd), w).levels)
  }

  function Advance(p: Progress, e: RawEvent, payload: Option<Payload>, levels: Levels, bucketMs: int,
                   planEnd: int): Progress
    requires bucketMs > 0
  {
    var counted :=
      if payload.Some? then
        p.(payloads := p.payloads + [payload.value], tallies := Tally(p.tallies, payload.value, bucketMs))
      else p;
    if !Skipped(e) && e.ts <= planEnd then counted.(seen := true, snapshot := levels) else counted
  }

  lemma SkippedKeeps(es: seq<RawEvent>, e: RawEvent, w: Window)
    requires w.bucketMs > 0 && Skipped(e)
    ensures Replay(es + [e], w) == Replay(es, w)
  {
    RunStep(es, e, w);
  }

  lemma SnapshotStep(es: seq<RawEvent>, e: RawEvent, w: Window, planEnd: int)
    requires w.bucketMs > 0 && InTimeOrder(es + [e])
    ensures var counts := !Skipped(e) && e.ts <= planEnd;
            && SeenBy(es + [e], planEnd) == (counts || SeenBy(es, planEnd))
            && Replay(UpTo(es + [e], planEnd), w) == if counts then Replay(es + [e], w)
                                                     else Replay(UpTo(es, planEnd), w)
  {
    UpToStep(es, e, planEnd);
    assert forall x :: x in es + [e] <==> x in es || x == e;
    if Skipped(e) && e.ts <= planEnd {
      SkippedKeeps(es, e, w);
      EarlierAll(es, e);
      UpToAll(es, planEnd);
    }
  }

  lemma AdvanceInStep(p: Progress, es: seq<RawEvent>, e: RawEvent, w: Window, planEnd: int)
    requires w.bucketMs > 0 && InStep(p, es, w, planEnd) && InTimeOrder(es + [e])
    ensures InStep(Advance(p, e, Step(Replay(es, w), e, w).1, Replay(es + [e], w).levels, w.bucketMs, planEnd),
                   es + [e], w, planEnd)
  {
    var payload := Step(Replay(es, w), e, w).1;
    RunStep(es, e, w);
    SnapshotStep(es, e, w, planEnd);
    if payload.Some? {
      assert (p.payloads + [payload.value])[..|p.payloads|] == p.payloads;
    }
  }

  method ReplayEvent(book: DomBook, p: Progress, ghost es: seq<RawEvent>, e: RawEvent, w: Window, planEnd: int)
    returns (next: Progress)
    requires w.bucketMs > 0 && book.Valid() && book.Value() == Replay(es, w)
    requires InStep(p, es, w, planEnd) && InTimeOrder(es + [e])
    modifies book, book.orders.Values
    ensures book.Valid() && fresh(book.orders.Values - old(book.orders.Values))
    ensures book.Value() == Replay(es + [e], w) && InStep(next, es + [e], w, planEnd)
  {
    AdvanceInStep(p, es, e, w, planEnd);
    RunStep(es, e, w);
    var payload := book.Process(e, w);
    next := Advance(p, e, payload, Levels(book.bidLevels, book.askLevels), w.bucketMs, planEnd);
  }

  lemma NothingYet(p: Progress, w: Window, planEnd: int)
    requires w.bucketMs > 0 && p == Progress([], map[], false, Levels(map[], map[]))
    ensures InStep(p, [], w, planEnd) && Replay([], w) == EmptyBook
  {
  }

  method ReplayAll(events: seq<RawEvent>, w: Window, planEnd: int) returns (book: DomBook, p: Progress)
    requires w.bucketMs > 0
    ensures book.Valid() && fresh(book) && fresh(book.orders.Values)
    ensures book.Value() == Replay(Canonical(events), w) && InStep(p, Canonical(events), w, planEnd)
  {
    var sorted := Sort(events);
    book := new DomBook();
    p := Progress([], map[], false, Levels(map[], map[]));
    var processed: set<Identity> := {};
    ghost var done: seq<RawEvent> := [];
    NothingYet(p, w, planEnd);
    for i := 0 to |sorted|
      invariant done == Dedupe(sorted[..i]) && processed == Identities(sorted[..i])
      invariant book.Valid() && fresh(book) && fresh(book.orders.Values)
      invariant book.Value() == Replay(done, w) && InStep(p, done, w, planEnd)
    {
      var e := sorted[i];
      DedupeStep(events, i);
      if IdentityOf(e) !in processed {
        processed := processed + {IdentityOf(e)};
        p := ReplayEvent(book, p, done, e, w, planEnd);
        done := done + [e];
      }
    }
    assert sorted[..|sorted|] == sorted;
  }

  method BuildPayload(events: seq<RawEvent>, w: Window, planStart: int, planEnd: int)
    returns (book: DomBook, payloads: seq<Payload>, points: map<PointKey, Point>, snapshot: Levels)
    requires w.bucketMs > 0
    ensures payloads == Run(Canonical(events), w).1
    ensures multiset(book.segments) == History(Canonical(events), w)
    ensures points == Points(payloads, w.bucketMs, planStart, planEnd)
    ensures snapshot == Snapshot(Canonical(events), w, planEnd)
  {
    var progress;
    book, progress := ReplayAll(events, w, planEnd);
    payloads, points, snapshot := Collect(progress, Canonical(events), Levels(book.bidLevels, book.askLevels), w,
                                          planStart, planEnd);
    CloseAtEnd(book, Canonical(events), w);
  }

  method CloseAtEnd(book: DomBook, ghost es: seq<RawEvent>, w: Window)
    requires w.bucketMs > 0 && book.Value() == Replay(es, w)
    modifies book`segments
    ensures multiset(book.segments) == History(es, w)
  {
    book.CloseAllSegments(w.visEnd, w);
  }

  method Collect(p: Progress, ghost es: seq<RawEvent>, levels: Levels, w: Window, planStart: int, planEnd: int)
    returns (payloads: seq<Payload>, points: map<PointKey, Point>, snapshot: Levels)
    requires w.bucketMs > 0 && InStep(p, es, w, planEnd) && levels == Replay(es, w).levels
    ensures payloads == Run(es, w).1 && points == Points(payloads, w.bucketMs, planStart, planEnd)
    ensures snapshot == Snapshot(es, w, planEnd)
  {
    payloads, points := p.payloads, Emitting(p.tallies, planStart, planEnd);
    snapshot := if p.seen then p.snapshot else levels;
  }
}
