/** The order in which events are replayed: sorted by time, sequence, source, order id and action,
    then stripped of repeats. The result does not depend on how the events were delivered. */
module DomOrdering {
  import opened Wrappers
  import opened DomModel
  import opened DomHistory
  import Sorting

  /** Text order, character by character; a proper prefix comes first. */
  function CompareText(a: string, b: string): int {
    if a == [] then (if b == [] then 0 else -1)
    else if b == [] then 1
    else if a[0] != b[0] then (if a[0] < b[0] then -1 else 1)
    else CompareText(a[1..], b[1..])
  }

  function CompareInt(a: int, b: int): int { if a < b then -1 else if a == b then 0 else 1 }

  function Then(first: int, second: int): int { if first != 0 then first else second }

  function Compare(a: RawEvent, b: RawEvent): int {
    Then(CompareInt(a.ts, b.ts),
    Then(CompareInt(a.sequence, b.sequence),
    Then(CompareText(a.source, b.source),
    Then(CompareText(a.orderId, b.orderId), CompareText(a.action, b.action)))))
  }

  lemma {:induction false} CompareTextLaws(a: string, b: string)
    ensures CompareText(a, b) == 0 <==> a == b
    ensures CompareText(b, a) == -CompareText(a, b)
    ensures CompareText(a, b) in {-1, 0, 1}
  {
    if a != [] && b != [] && a[0] == b[0] {
      CompareTextLaws(a[1..], b[1..]);
      assert a == [a[0]] + a[1..] && b == [b[0]] + b[1..];
    }
  }

  lemma {:induction false} CompareTextTransitive(a: string, b: string, c: string)
    requires CompareText(a, b) <= 0 && CompareText(b, c) <= 0
    ensures CompareText(a, c) <= 0
    ensures CompareText(a, b) < 0 || CompareText(b, c) < 0 ==> CompareText(a, c) < 0
  {
    if a != [] && b != [] && c != [] && a[0] == b[0] && b[0] == c[0] {
      CompareTextTransitive(a[1..], b[1..], c[1..]);
    }
  }

  lemma CompareLaws(a: RawEvent, b: RawEvent)
    ensures Compare(b, a) == -Compare(a, b)
    ensures Compare(a, b) == 0 <==> a.ts == b.ts && a.sequence == b.sequence && a.source == b.source
                                    && a.orderId == b.orderId && a.action == b.action
  {
    CompareTextLaws(a.source, b.source);
    CompareTextLaws(a.orderId, b.orderId);
    CompareTextLaws(a.action, b.action);
  }

  lemma CompareTransitive(a: RawEvent, b: RawEvent, c: RawEvent)
    requires Compare(a, b) <= 0 && Compare(b, c) <= 0
    ensures Compare(a, c) <= 0
  {
    if a.ts == b.ts == c.ts && a.sequence == b.sequence == c.sequence {
      CompareTextLaws(a.source, b.source);
      CompareTextLaws(b.source, c.source);
      CompareTextLaws(a.source, c.source);
      CompareTextTransitive(a.source, b.source, c.source);
      if a.source == b.source == c.source {
        CompareTextLaws(a.orderId, b.orderId);
        CompareTextLaws(b.orderId, c.orderId);
        CompareTextLaws(a.orderId, c.orderId);
        CompareTextTransitive(a.orderId, b.orderId, c.orderId);
        if a.orderId == b.orderId == c.orderId {
          CompareTextTransitive(a.action, b.action, c.action);
        }
      }
    }
  }

  // ----- the order, in raw terms -----

  /** `a` and `b` agree on their first `k` characters, where `a` ends or has the smaller character. */
  predicate FirstDiffer(a: string, b: string, k: nat) {
    k <= |a| && k < |b| && a[..k] == b[..k] && (k == |a| || a[k] < b[k])
  }

  ghost predicate TextBefore(a: string, b: string) { exists k: nat :: FirstDiffer(a, b, k) }

  /** Earlier in time, then by sequence number, then by the texts of source, order id and action. */
  ghost predicate Precedes(a: RawEvent, b: RawEvent) {
    || a.ts < b.ts
    || (a.ts == b.ts && a.sequence < b.sequence)
    || (a.ts == b.ts && a.sequence == b.sequence && TextBefore(a.source, b.source))
    || (a.ts == b.ts && a.sequence == b.sequence && a.source == b.source && TextBefore(a.orderId, b.orderId))
    || (a.ts == b.ts && a.sequence == b.sequence && a.source == b.source && a.orderId == b.orderId
        && TextBefore(a.action, b.action))
  }

  lemma TextBeforeTail(a: string, b: string)
    requires a != [] && b != [] && a[0] == b[0]
    ensures TextBefore(a, b) <==> TextBefore(a[1..], b[1..])
  {
    if k: nat :| FirstDiffer(a, b, k) {
      assert k > 0 && a[1..][..k - 1] == a[..k][1..] && b[1..][..k - 1] == b[..k][1..];
      assert FirstDiffer(a[1..], b[1..], k - 1);
    }
    if k: nat :| FirstDiffer(a[1..], b[1..], k) {
      assert a[..k + 1] == [a[0]] + a[1..][..k] && b[..k + 1] == [b[0]] + b[1..][..k];
      assert FirstDiffer(a, b, k + 1);
    }
  }

  lemma {:induction false} TextMeans(a: string, b: string)
    ensures CompareText(a, b) < 0 <==> TextBefore(a, b)
  {
    if a != [] && b != [] && a[0] == b[0] {
      TextBeforeTail(a, b);
      TextMeans(a[1..], b[1..]);
    } else if b != [] && (a == [] || a[0] < b[0]) {
      assert FirstDiffer(a, b, 0);
    } else if k: nat :| FirstDiffer(a, b, k) {
      assert k > 0 ==> a[..k][0] == b[..k][0];
    }
  }

  /** The comparison is that order. */
  lemma CompareMeans(a: RawEvent, b: RawEvent)
    ensures Compare(a, b) < 0 <==> Precedes(a, b)
  {
    CompareTextLaws(a.source, b.source);
    CompareTextLaws(a.orderId, b.orderId);
    TextMeans(a.source, b.source);
    TextMeans(a.orderId, b.orderId);
    TextMeans(a.action, b.action);
  }

  function EventOrder(): (RawEvent, RawEvent) -> bool {
    (a: RawEvent, b: RawEvent) => Compare(a, b) <= 0
  }

  lemma EventOrderTotal()
    ensures Sorting.TotalPreorder(EventOrder())
  {
    forall a, b ensures EventOrder()(a, b) || EventOrder()(b, a) {
      CompareLaws(a, b);
    }
    forall a, b, c | EventOrder()(a, b) && EventOrder()(b, c) ensures EventOrder()(a, c) {
      CompareTransitive(a, b, c);
    }
  }

  predicate Sorted(es: seq<RawEvent>) {
    forall i, j :: 0 <= i < j < |es| ==> Compare(es[i], es[j]) <= 0
  }

  /** The stable sort of the events. */
  function Sort(es: seq<RawEvent>): seq<RawEvent> {
    Sorting.Sort(es, EventOrder())
  }

  lemma SortSorted(es: seq<RawEvent>)
    ensures Sorted(Sort(es)) && forall e :: e in Sort(es) <==> e in es
  {
    EventOrderTotal();
    Sorting.SortSorted(es, EventOrder());
    Sorting.SortKeepsElements(es, EventOrder());
    forall i, j | 0 <= i < j < |Sort(es)| ensures Compare(Sort(es)[i], Sort(es)[j]) <= 0 {
      assert EventOrder()(Sort(es)[i], Sort(es)[j]);
    }
  }

  datatype Identity = Identity(
    source: string, instrument: int, sequence: int, ts: int, orderId: string, action: string)

  function IdentityOf(e: RawEvent): Identity {
    Identity(e.source, e.instrument, e.sequence, e.ts, e.orderId, e.action)
  }

  function Identities(es: seq<RawEvent>): set<Identity> {
    set e | e in es :: IdentityOf(e)
  }

  /** The events whose identity did not occur before. */
  function Dedupe(es: seq<RawEvent>): seq<RawEvent> {
    if es == [] then []
    else
      var before, e := es[..|es| - 1], es[|es| - 1];
      if IdentityOf(e) in Identities(before) then Dedupe(before) else Dedupe(before) + [e]
  }

  function Canonical(es: seq<RawEvent>): seq<RawEvent> {
    Dedupe(Sort(es))
  }

  /** Events that the sort cannot tell apart are the same event. */
  predicate KeysDetermineEvents(es: seq<RawEvent>) {
    forall x, y :: x in es && y in es && Compare(x, y) == 0 ==> x == y
  }

  predicate StrictlySorted(es: seq<RawEvent>) {
    forall i, j :: 0 <= i < j < |es| ==> Compare(es[i], es[j]) < 0
  }

  lemma {:induction false} DedupeSubset(es: seq<RawEvent>)
    ensures forall e :: e in Dedupe(es) ==> e in es
    ensures Identities(Dedupe(es)) == Identities(es)
  {
    if es != [] {
      var before, e := es[..|es| - 1], es[|es| - 1];
      DedupeSubset(before);
      assert es == before + [e];
      assert Identities(es) == Identities(before) + {IdentityOf(e)};
      if IdentityOf(e) !in Identities(before) {
        assert Identities(Dedupe(before) + [e]) == Identities(Dedupe(before)) + {IdentityOf(e)};
      }
    }
  }

  lemma {:induction false} DedupeSorted(es: seq<RawEvent>)
    requires Sorted(es)
    ensures Sorted(Dedupe(es))
  {
    if es != [] {
      var before, e := es[..|es| - 1], es[|es| - 1];
      DedupeSorted(before);
      DedupeSubset(before);
      forall x | x in Dedupe(before) ensures Compare(x, e) <= 0 {
        var i :| 0 <= i < |before| && before[i] == x;
        assert Compare(es[i], es[|es| - 1]) <= 0;
      }
    }
  }

  lemma {:induction false} DedupeDistinct(es: seq<RawEvent>)
    ensures forall i, j :: 0 <= i < j < |Dedupe(es)| ==> IdentityOf(Dedupe(es)[i]) != IdentityOf(Dedupe(es)[j])
  {
    if es != [] {
      var before, e := es[..|es| - 1], es[|es| - 1];
      DedupeDistinct(before);
      DedupeSubset(before);
      forall x | x in Dedupe(before) ensures IdentityOf(x) in Identities(before) {
        assert IdentityOf(x) in Identities(Dedupe(before));
      }
    }
  }

  lemma DedupeStrict(es: seq<RawEvent>)
    requires Sorted(es) && KeysDetermineEvents(es)
    ensures StrictlySorted(Dedupe(es))
    ensures forall e :: e in es ==> e in Dedupe(es)
  {
    var kept := Dedupe(es);
    DedupeSorted(es);
    DedupeDistinct(es);
    DedupeSubset(es);
    forall i, j | 0 <= i < j < |kept| ensures Compare(kept[i], kept[j]) < 0 {
      assert kept[i] in es && kept[j] in es;
      assert IdentityOf(kept[i]) != IdentityOf(kept[j]);
    }
    forall e | e in es ensures e in kept {
      assert IdentityOf(e) in Identities(es);
      var x :| x in kept && IdentityOf(x) == IdentityOf(e);
      CompareLaws(x, e);
    }
  }

  lemma {:induction false} StrictlySortedUnique(a: seq<RawEvent>, b: seq<RawEvent>)
    requires StrictlySorted(a) && StrictlySorted(b)
    requires forall e :: e in a <==> e in b
    ensures a == b
  {
    if a != [] {
      assert a[0] in b;
    }
    if b != [] {
      assert b[0] in a;
    }
    if a != [] {
      CompareLaws(a[0], b[0]);
      assert a[0] == b[0];
      CompareLaws(a[0], a[0]);
      forall e ensures e in a[1..] <==> e in b[1..] {
        if e in a[1..] {
          assert e in b && Compare(a[0], e) < 0;
        }
        if e in b[1..] {
          assert e in a && Compare(b[0], e) < 0;
        }
      }
      StrictlySortedUnique(a[1..], b[1..]);
      assert a == [a[0]] + a[1..] && b == [b[0]] + b[1..];
    }
  }

  lemma CanonicalFacts(es: seq<RawEvent>)
    requires KeysDetermineEvents(es)
    ensures StrictlySorted(Canonical(es))
    ensures forall e :: e in Canonical(es) <==> e in es
  {
    SortSorted(es);
    DedupeStrict(Sort(es));
    DedupeSubset(Sort(es));
  }

  /** Main result: two deliveries of the same events, in any order and with any repeats, replay
      alike, so book, payloads and history agree. */
  lemma DeliveryIrrelevant(a: seq<RawEvent>, b: seq<RawEvent>, w: Window)
    requires w.bucketMs > 0
    requires KeysDetermineEvents(a) && forall e :: e in a <==> e in b
    ensures Canonical(a) == Canonical(b)
    ensures Run(Canonical(a), w) == Run(Canonical(b), w)
    ensures History(Canonical(a), w) == History(Canonical(b), w)
  {
    CanonicalFacts(a);
    CanonicalFacts(b);
    StrictlySortedUnique(Canonical(a), Canonical(b));
  }

  // ----- without that, delivery order shows -----

  /** The first event that the sort cannot tell from `x`. */
  function FirstTie(es: seq<RawEvent>, x: RawEvent): Option<RawEvent> {
    if es == [] then None
    else if Compare(es[0], x) == 0 then Some(es[0])
    else FirstTie(es[1..], x)
  }

  lemma {:induction false} FirstTieAppend(a: seq<RawEvent>, b: seq<RawEvent>, x: RawEvent)
    ensures FirstTie(a + b, x) == if FirstTie(a, x).Some? then FirstTie(a, x) else FirstTie(b, x)
  {
    if a == [] {
      assert a + b == b;
    } else {
      FirstTieAppend(a[1..], b, x);
      assert (a + b)[1..] == a[1..] + b;
    }
  }

  lemma {:induction false} InsertedTie(y: RawEvent, s: seq<RawEvent>, x: RawEvent)
    ensures FirstTie(Sorting.Insert(y, s, EventOrder()), x) == if Compare(y, x) == 0 then Some(y) else FirstTie(s, x)
  {
    if s != [] && !EventOrder()(y, s[0]) {
      CompareLaws(y, x);
      CompareLaws(y, s[0]);
      CompareLaws(s[0], x);
      InsertedTie(y, s[1..], x);
    }
  }

  /** The stable sort keeps the event delivered first ahead of its ties. */
  lemma {:induction false} SortedTie(es: seq<RawEvent>, x: RawEvent)
    ensures FirstTie(Sort(es), x) == FirstTie(es, x)
  {
    if es != [] {
      SortedTie(es[1..], x);
      InsertedTie(es[0], Sort(es[1..]), x);
    }
  }

  lemma TieIn(es: seq<RawEvent>, e: RawEvent, x: RawEvent)
    requires IdentityOf(e) in Identities(es) && Compare(e, x) == 0
    ensures FirstTie(es, x).Some?
  {
    var i :| 0 <= i < |es| && IdentityOf(es[i]) == IdentityOf(e);
    CompareTie(es, i, x);
  }

  lemma {:induction false} CompareTie(es: seq<RawEvent>, i: nat, x: RawEvent)
    requires i < |es| && Compare(es[i], x) == 0
    ensures FirstTie(es, x).Some?
  {
    if i > 0 {
      CompareTie(es[1..], i - 1, x);
    }
  }

  /** Dropping repeats keeps the first of the ties. */
  lemma {:induction false} DedupeFirstTie(es: seq<RawEvent>, x: RawEvent)
    ensures FirstTie(Dedupe(es), x) == FirstTie(es, x)
  {
    if es != [] {
      var before, e := es[..|es| - 1], es[|es| - 1];
      DedupeFirstTie(before, x);
      assert es == before + [e];
      FirstTieAppend(before, [e], x);
      FirstTieAppend(Dedupe(before), [e], x);
      if IdentityOf(e) in Identities(before) && Compare(e, x) == 0 {
        TieIn(before, e, x);
      }
    }
  }

  /** Of events with equal sort keys the one delivered first is replayed first. */
  lemma CanonicalTie(es: seq<RawEvent>, x: RawEvent)
    ensures FirstTie(Canonical(es), x) == FirstTie(es, x)
  {
    SortedTie(es, x);
    DedupeFirstTie(Sort(es), x);
  }

  lemma CanonicalFirst(x: RawEvent, es: seq<RawEvent>)
    ensures FirstTie(Canonical([x] + es), x) == Some(x)
  {
    CompareLaws(x, x);
    CanonicalTie([x] + es, x);
  }

  predicate Repeats(a: RawEvent, b: RawEvent) {
    && a.source == b.source && a.instrument == b.instrument && a.sequence == b.sequence && a.ts == b.ts
    && a.orderId == b.orderId && a.action == b.action
  }

  /** Main result: whatever was delivered, the replayed events are delivered ones, none precedes an earlier one, none
      repeats another, and each delivered event is one of them or repeats one. */
  lemma CanonicalMeans(es: seq<RawEvent>)
    ensures var c := Canonical(es);
            && (forall i, j :: 0 <= i < j < |c| ==> !Precedes(c[j], c[i]) && !Repeats(c[i], c[j]))
            && (forall e :: e in c ==> e in es)
            && (forall e :: e in es ==> exists x :: x in c && Repeats(x, e))
  {
    var c := Canonical(es);
    SortSorted(es);
    DedupeSorted(Sort(es));
    DedupeSubset(Sort(es));
    DedupeDistinct(Sort(es));
    forall i, j | 0 <= i < j < |c| ensures !Precedes(c[j], c[i]) && !Repeats(c[i], c[j]) {
      CompareMeans(c[j], c[i]);
      CompareLaws(c[i], c[j]);
    }
    forall e | e in es ensures exists x :: x in c && Repeats(x, e) {
      assert IdentityOf(e) in Identities(Sort(es));
      var x :| x in c && IdentityOf(x) == IdentityOf(e);
      assert Repeats(x, e);
    }
  }

  lemma {:induction false} FirstTieSame(es: seq<RawEvent>, x: RawEvent, y: RawEvent)
    requires Compare(x, y) == 0
    ensures FirstTie(es, x) == FirstTie(es, y)
  {
    if es != [] {
      CompareLaws(x, y);
      FirstTieSame(es[1..], x, y);
    }
  }

  ghost predicate SameEvents(a: seq<RawEvent>, b: seq<RawEvent>) { forall e :: e in a <==> e in b }

  lemma SameCanonical(a: seq<RawEvent>, b: seq<RawEvent>)
    requires KeysDetermineEvents(a) && SameEvents(a, b)
    ensures Canonical(b) == Canonical(a)
  {
    CanonicalFacts(a);
    CanonicalFacts(b);
    StrictlySortedUnique(Canonical(a), Canonical(b));
  }

  /** Every delivery of these events, in any order and with any repeats, replays as this one. */
  ghost predicate DeliveryFree(a: seq<RawEvent>) { forall b :: SameEvents(a, b) ==> Canonical(b) == Canonical(a) }

  lemma DeliverAgain(a: seq<RawEvent>, x: RawEvent)
    requires x in a && DeliveryFree(a)
    ensures Canonical([x] + a) == Canonical(a)
  {
    assert SameEvents(a, [x] + a);
  }

  lemma TiesShow(a: seq<RawEvent>, x: RawEvent, y: RawEvent)
    requires x != y && Compare(x, y) == 0
    ensures Canonical([x] + a) != Canonical([y] + a)
  {
    CanonicalFirst(x, a);
    CanonicalFirst(y, a);
    FirstTieSame(Canonical([x] + a), x, y);
  }

  /** Main result: delivery is irrelevant exactly for the events whose sort keys determine them. */
  lemma DeliveryIrrelevantIff(a: seq<RawEvent>)
    ensures KeysDetermineEvents(a) <==> DeliveryFree(a)
  {
    if KeysDetermineEvents(a) {
      forall b | SameEvents(a, b) ensures Canonical(b) == Canonical(a) {
        SameCanonical(a, b);
      }
    } else if DeliveryFree(a) {
      var x, y :| x in a && y in a && Compare(x, y) == 0 && x != y;
      DeliverAgain(a, x);
      DeliverAgain(a, y);
      TiesShow(a, x, y);
    }
  }

  lemma SortedInTime(es: seq<RawEvent>)
    requires Sorted(es)
    ensures InTimeOrder(es)
  {
    forall i, j | 0 <= i < j < |es| ensures es[i].ts <= es[j].ts {
      assert Compare(es[i], es[j]) <= 0;
    }
  }

  /** Whatever was delivered, the replayed events are in time order, as the history theorem asks. */
  lemma CanonicalInTimeOrder(es: seq<RawEvent>)
    ensures InTimeOrder(Canonical(es))
  {
    SortSorted(es);
    DedupeSorted(Sort(es));
    SortedInTime(Canonical(es));
  }

  /** Replaying one more of the sorted events. */
  lemma DedupeStep(events: seq<RawEvent>, i: nat)
    requires i < |Sort(events)|
    ensures var sorted, e := Sort(events), Sort(events)[i];
            && Identities(sorted[..i + 1]) == Identities(sorted[..i]) + {IdentityOf(e)}
            && (IdentityOf(e) in Identities(sorted[..i]) ==> Dedupe(sorted[..i + 1]) == Dedupe(sorted[..i]))
            && (IdentityOf(e) !in Identities(sorted[..i]) ==>
                  Dedupe(sorted[..i + 1]) == Dedupe(sorted[..i]) + [e] && InTimeOrder(Dedupe(sorted[..i]) + [e]))
  {
    var sorted, e := Sort(events), Sort(events)[i];
    assert sorted[..i + 1] == sorted[..i] + [e];
    DedupeMore(sorted[..i], e);
    DedupeInTime(events, i + 1);
  }

  lemma DedupeMore(front: seq<RawEvent>, e: RawEvent)
    ensures Identities(front + [e]) == Identities(front) + {IdentityOf(e)}
    ensures Dedupe(front + [e]) == if IdentityOf(e) in Identities(front) then Dedupe(front) else Dedupe(front) + [e]
  {
    assert (front + [e])[..|front|] == front;
  }

  lemma DedupeInTime(events: seq<RawEvent>, n: nat)
    requires n <= |Sort(events)|
    ensures InTimeOrder(Dedupe(Sort(events)[..n]))
  {
    SortSorted(events);
    DedupeSorted(Sort(events)[..n]);
    SortedInTime(Dedupe(Sort(events)[..n]));
  }
}
