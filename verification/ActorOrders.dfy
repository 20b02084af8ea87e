/** What an order event does to the tracked orders, told in raw terms: how many contracts are left, what is
    logged, which ADD takes the place of a lost order. */
module ActorOrders {
  import opened Wrappers
  import opened ActorRanking
  import opened ActorModel
  import opened ActorDecision
  import ActorLedger

  // ----- replacements -----

  /** The size a replacement is compared with: the initial size, else what was cancelled, else its own. */
  function Reference(c: Candidate, add: Event): nat {
    if c.initialSize > 0 then c.initialSize
    else if c.cancelled > 0 then c.cancelled
    else if add.size > 0 then add.size else 1
  }

  function Distance(x: real, y: real): real { if x < y then y - x else x - y }

  /** `add` may stand in for `c`, lost at `at`: another order on the same side, not known to be of another
      instrument, close in price and time and similar in size. */
  predicate MayReplace(cfg: Config, c: Candidate, add: Event, at: int) {
    && add.action == AddOrder && add.orderId != "" && add.orderId != c.activeId && add.side == c.side
    && (add.instrument == c.instrument || add.instrument == None || c.instrument == None)
    && add.price != None && Distance(add.price.value, c.price) <= cfg.tickDistance as real * cfg.tickSize
    && at - cfg.timeGap <= add.ts <= at + cfg.timeGap
    && SimilarSize(cfg, add.size, Reference(c, add))
  }

  predicate SimilarSize(cfg: Config, size: nat, reference: nat) {
    cfg.similarityMin * reference as real <= size as real <= cfg.similarityMax * reference as real
  }

  lemma SimilarRatio(cfg: Config, size: nat, reference: nat)
    requires reference > 0
    ensures cfg.similarityMin <= Ratio(size as real, reference as real) <= cfg.similarityMax
       <==> SimilarSize(cfg, size, reference)
  {
    Quotient(size as real, reference as real, cfg.similarityMin);
    Quotient(size as real, reference as real, cfg.similarityMax);
  }

  lemma Quotient(a: real, b: real, c: real)
    requires b > 0.0
    ensures a / b <= c <==> a <= c * b
    ensures c <= a / b <==> c * b <= a
  {
    assert a == a / b * b;
  }

  /** Main result: the matching test is that, both ways. */
  lemma MatchesMean(cfg: Config, c: Candidate, add: Event, at: int)
    ensures Matches(cfg, c, add, at) <==> MayReplace(cfg, c, add, at)
  {
    SimilarRatio(cfg, add.size, Reference(c, add));
  }

  /** `adds[i]` passes, none that passes is nearer to `at`, and none before it is as near. */
  ghost predicate Nearest(adds: seq<Event>, passes: Event -> bool, at: int, i: nat) {
    && i < |adds| && passes(adds[i])
    && (forall j :: 0 <= j < |adds| && passes(adds[j]) ==> Abs(adds[i].ts - at) <= Abs(adds[j].ts - at))
    && (forall j :: 0 <= j < i && passes(adds[j]) ==> Abs(adds[i].ts - at) < Abs(adds[j].ts - at))
  }

  function Test(cfg: Config, c: Candidate, at: int): Event -> bool { add => MayReplace(cfg, c, add, at) }

  /** `adds[i]` is the nearest ADD that may replace `c`. */
  ghost predicate Stands(cfg: Config, adds: seq<Event>, c: Candidate, at: int, i: nat) {
    Nearest(adds, Test(cfg, c, at), at, i)
  }

  ghost predicate Irreplaceable(cfg: Config, adds: seq<Event>, c: Candidate, at: int) {
    forall i :: 0 <= i < |adds| ==> !MayReplace(cfg, c, adds[i], at)
  }

  ghost predicate Chosen(adds: seq<Event>, passes: Event -> bool, at: int, r: Option<Event>) {
    if r.Some? then exists i: nat :: Nearest(adds, passes, at, i) && r.value == adds[i]
    else forall i :: 0 <= i < |adds| ==> !passes(adds[i])
  }

  lemma StaysNearest(adds: seq<Event>, passes: Event -> bool, at: int, i: nat)
    requires adds != [] && Nearest(adds[..|adds| - 1], passes, at, i)
    requires var add := adds[|adds| - 1]; passes(add) ==> Abs(adds[i].ts - at) <= Abs(add.ts - at)
    ensures Nearest(adds, passes, at, i)
  {
    assert forall j :: 0 <= j < |adds| - 1 ==> adds[..|adds| - 1][j] == adds[j];
  }

  lemma BecomesNearest(adds: seq<Event>, passes: Event -> bool, at: int, i: nat)
    requires adds != [] && Nearest(adds[..|adds| - 1], passes, at, i)
    requires var add := adds[|adds| - 1]; passes(add) && Abs(add.ts - at) < Abs(adds[i].ts - at)
    ensures Nearest(adds, passes, at, |adds| - 1)
  {
    assert forall j :: 0 <= j < |adds| - 1 ==> adds[..|adds| - 1][j] == adds[j];
  }

  lemma ChosenStep(adds: seq<Event>, passes: Event -> bool, at: int, before: Option<Event>)
    requires adds != [] && Chosen(adds[..|adds| - 1], passes, at, before)
    ensures var add := adds[|adds| - 1];
            Chosen(adds, passes, at, if passes(add) && (before.None? || Abs(add.ts - at) < Abs(before.value.ts - at))
                                     then Some(add) else before)
  {
    var n := |adds| - 1;
    if before.Some? {
      var i: nat :| Nearest(adds[..n], passes, at, i) && before.value == adds[..n][i];
      if passes(adds[n]) && Abs(adds[n].ts - at) < Abs(adds[i].ts - at) {
        BecomesNearest(adds, passes, at, i);
      } else {
        StaysNearest(adds, passes, at, i);
      }
    } else {
      assert forall j :: 0 <= j < n ==> adds[..n][j] == adds[j];
      assert passes(adds[n]) ==> Nearest(adds, passes, at, n);
    }
  }

  function Pick(adds: seq<Event>, passes: Event -> bool, at: int): Option<Event> {
    if adds == [] then None
    else
      var before, add := Pick(adds[..|adds| - 1], passes, at), adds[|adds| - 1];
      if passes(add) && (before.None? || Abs(add.ts - at) < Abs(before.value.ts - at)) then Some(add) else before
  }

  lemma {:induction false} PickIsNearest(adds: seq<Event>, passes: Event -> bool, at: int)
    ensures Chosen(adds, passes, at, Pick(adds, passes, at))
  {
    if adds != [] {
      PickIsNearest(adds[..|adds| - 1], passes, at);
      ChosenStep(adds, passes, at, Pick(adds[..|adds| - 1], passes, at));
    }
  }

  lemma {:induction false} ReplacementPicks(cfg: Config, adds: seq<Event>, c: Candidate, at: int, passes: Event -> bool)
    requires forall e: Event :: passes(e) <==> Matches(cfg, c, e, at)
    ensures Replacement(cfg, adds, c, at) == Pick(adds, passes, at)
  {
    if adds != [] {
      ReplacementPicks(cfg, adds[..|adds| - 1], c, at, passes);
      assert passes(adds[|adds| - 1]) <==> Matches(cfg, c, adds[|adds| - 1], at);
    }
  }

  lemma TestIsMatch(cfg: Config, c: Candidate, at: int)
    ensures forall e: Event :: Test(cfg, c, at)(e) <==> Matches(cfg, c, e, at)
  {
    forall e: Event ensures Test(cfg, c, at)(e) <==> Matches(cfg, c, e, at) {
      MatchesMean(cfg, c, e, at);
    }
  }

  /** Main result: the replacement is the nearest ADD that may stand in, and there is none only if none may. */
  lemma ReplacementStands(cfg: Config, adds: seq<Event>, c: Candidate, at: int)
    ensures Chosen(adds, Test(cfg, c, at), at, Replacement(cfg, adds, c, at))
  {
    TestIsMatch(cfg, c, at);
    ReplacementPicks(cfg, adds, c, at, Test(cfg, c, at));
    PickIsNearest(adds, Test(cfg, c, at), at);
  }

  /** `r` is `c` with the order of `add` in its place. */
  predicate TakesOver(c: Candidate, add: Event, r: Candidate) {
    && r.activeId == add.orderId && r.size == add.size && r.status == Replaced && r.lostSince == 0
    && r.lastReplacement == add.ts && r.replaced == c.replaced + add.size
    && r.price == (if add.price == None || add.price == Some(0.0) then c.price else add.price.value)
    && r.cancelled == c.cancelled && r.filled == c.filled
  }

  predicate SameOrigin(c: Candidate, r: Candidate) {
    && r.initialSize == c.initialSize && r.side == c.side && r.instrument == c.instrument
    && r.importance == c.importance && r.baseline == c.baseline
  }

  // ----- when tracking starts -----

  /** `c` is the order `o` with nothing counted yet, lost already if it shows nothing. */
  predicate BeginsAs(o: Order, c: Candidate) {
    && c.activeId == o.orderId && c.side == o.side && c.instrument == o.instrument && c.price == o.price
    && c.initialSize == o.initialSize && c.size == o.currentSize
    && c.baseline >= o.refillContracts && c.baseline >= o.refillCount
    && c.baseline in {o.refillContracts, o.refillCount}
    && c.cancelled == c.filled == c.replaced == 0 && c.lastReplacement == 0
    && (o.currentSize > 0 ==> c.status == Active && c.lostSince == 0)
    && (o.currentSize == 0 ==> c.status == Lost && c.lostSince == o.lastSeen)
  }

  /** Tracking starts with one candidate for each tracked order, in their order. */
  lemma StartMeans(cfg: Config, q: Request)
    ensures var cl, orders := Started(cfg, q), Tracked(cfg.weights, q.orders, cfg.maxCandidates);
            && |cl.candidates| == |orders| && (forall k :: 0 <= k < |orders| ==>
                                    BeginsAs(orders[k].order, cl.candidates[k]))
            && cl.exit == None && cl.weakenedSince == 0 && cl.activity == []
            && cl.position == q.position && cl.start == q.start && cl.end == q.end && cl.symbols == q.symbols
  {
  }

  // ----- one event on the order it names -----

  /** The contracts an event names, or all that are left. */
  function Named(c: Candidate, e: Event): nat { if e.size > 0 then e.size else c.size }

  /** The contracts left once the event has been applied. */
  function Left(c: Candidate, e: Event): nat {
    if e.action == Modify then Named(c, e)
    else if c.size > Named(c, e) then c.size - Named(c, e) else 0
  }

  function CancelledNow(c: Candidate, e: Event): nat {
    match e.action
    case Modify => if Named(c, e) < c.size then c.size - Named(c, e) else 0
    case Cancel => if 0 < c.size < Named(c, e) then c.size else Named(c, e)
    case _ => 0
  }

  function FilledNow(c: Candidate, e: Event): nat {
    if e.action in {Fill, Trade} then Named(c, e) else 0
  }

  function RefilledNow(c: Candidate, e: Event): nat {
    if e.action == Modify && Named(c, e) > c.size then Named(c, e) - c.size else 0
  }

  /** `c` at the event's price and with its cancelled contracts counted. */
  function Counting(c: Candidate, e: Event): Candidate {
    c.(price := if e.price == None then c.price else e.price.value, cancelled := c.cancelled + CancelledNow(c, e))
  }

  predicate OnOrder(e: Event) { e.action in {Modify, Cancel, Fill, Trade} }

  /** What an event does that leaves contracts: they are shown, and an order keeps its identity. */
  ghost predicate Shrunk(c: Candidate, e: Event, r: Candidate) {
    && r.size == Left(c, e) && r.activeId == c.activeId && r.lastReplacement == c.lastReplacement
    && r.price == Counting(c, e).price && r.replaced == c.replaced
    && r.cancelled == c.cancelled + CancelledNow(c, e) && r.filled == c.filled + FilledNow(c, e)
    && r.status == if CancelledNow(c, e) > 0 then Reduced
                   else if RefilledNow(c, e) > 0 && c.status != Replaced then Active else c.status
  }

  /** What an event does that leaves nothing: the nearest ADD that may replace the order takes over, or the order
      is gone. */
  ghost predicate Emptied(cfg: Config, adds: seq<Event>, c: Candidate, e: Event, r: Candidate) {
    && (forall i: nat :: Stands(cfg, adds, Counting(c, e), e.ts, i) ==>
          TakesOver(Counting(c, e).(filled := c.filled + FilledNow(c, e)), adds[i], r))
    && (Irreplaceable(cfg, adds, Counting(c, e), e.ts) ==>
          && r.size == 0 && r.activeId == c.activeId && r.lostSince == e.ts
          && r.cancelled == c.cancelled + CancelledNow(c, e) && r.filled == c.filled + FilledNow(c, e)
          && (e.action == Cancel ==> r.status == Cancelled) && (e.action in {Fill, Trade} ==> r.status == Filled)
          && (e.action == Modify ==> r.status == c.status))
  }

  lemma StandsOne(cfg: Config, adds: seq<Event>, c: Candidate, at: int, i: nat, j: nat)
    requires Stands(cfg, adds, c, at, i) && Stands(cfg, adds, c, at, j)
    ensures i == j
  {
  }

  /** The test reads identity, price and cancelled contracts only. */
  lemma SameChoice(cfg: Config, adds: seq<Event>, c: Candidate, d: Candidate, at: int)
    requires c.activeId == d.activeId && c.side == d.side && c.instrument == d.instrument && c.price == d.price
    requires c.initialSize == d.initialSize && c.cancelled == d.cancelled
    ensures Irreplaceable(cfg, adds, c, at) <==> Irreplaceable(cfg, adds, d, at)
    ensures forall i: nat :: Stands(cfg, adds, c, at, i) <==> Stands(cfg, adds, d, at, i)
  {
    assert forall e: Event :: Test(cfg, c, at)(e) <==> Test(cfg, d, at)(e);
  }

  /** What becomes of an order that is lost. */
  lemma LossMeans(cfg: Config, adds: seq<Event>, c: Candidate, e: Event, status: Status)
    ensures var r := MarkLost(cfg, adds, c, e, status).candidate;
            && SameOrigin(c, r)
            && (forall i: nat :: Stands(cfg, adds, c, e.ts, i) ==> TakesOver(c, adds[i], r))
            && (Irreplaceable(cfg, adds, c, e.ts) ==>
                  r == c.(size := 0, status := status, lostSince := e.ts))
  {
    var lost := c.(status := status, size := 0, lostSince := e.ts);
    ReplacementStands(cfg, adds, lost, e.ts);
    SameChoice(cfg, adds, c, lost, e.ts);
    forall i: nat, j: nat | Stands(cfg, adds, c, e.ts, i) && Stands(cfg, adds, c, e.ts, j) ensures i == j {
      StandsOne(cfg, adds, c, e.ts, i, j);
    }
  }

  /** `d` is `c` with the event counted and nothing left. */
  predicate CountedAs(c: Candidate, e: Event, d: Candidate) {
    && SameOrigin(c, d) && d.activeId == c.activeId && d.price == Counting(c, e).price
    && d.cancelled == c.cancelled + CancelledNow(c, e) && d.filled == c.filled + FilledNow(c, e)
    && d.replaced == c.replaced
  }

  lemma LostMeans(cfg: Config, adds: seq<Event>, c: Candidate, e: Event, d: Candidate, status: Status)
    requires OnOrder(e) && CountedAs(c, e, d)
    requires status == match e.action case Cancel => Cancelled case Modify => c.status case _ => Filled
    ensures var r := MarkLost(cfg, adds, d, e, status).candidate; SameOrigin(c, r) && Emptied(cfg, adds, c, e, r)
  {
    LossMeans(cfg, adds, d, e, status);
    SameChoice(cfg, adds, Counting(c, e), d, e.ts);
  }

  lemma ModifyMeans(cfg: Config, adds: seq<Event>, c: Candidate, e: Event)
    requires e.action == Modify
    ensures var r := ApplyModify(cfg, adds, c, e).candidate;
            SameOrigin(c, r) && if Left(c, e) > 0 then Shrunk(c, e, r) else Emptied(cfg, adds, c, e, r)
  {
    var d := Resized(c, e).candidate;
    if Left(c, e) == 0 {
      LostMeans(cfg, adds, c, e, d, d.status);
    }
  }

  lemma FillMeans(cfg: Config, adds: seq<Event>, c: Candidate, e: Event)
    requires e.action in {Fill, Trade}
    ensures var r := ApplyFill(cfg, adds, c, e).candidate;
            SameOrigin(c, r) && if Left(c, e) > 0 then Shrunk(c, e, r) else Emptied(cfg, adds, c, e, r)
  {
    if Left(c, e) == 0 {
      LostMeans(cfg, adds, c, e, FilledBy(c, e).candidate, Filled);
    }
  }

  lemma CancelMeans(cfg: Config, adds: seq<Event>, c: Candidate, e: Event)
    requires e.action == Cancel
    ensures var r := ApplyCancel(cfg, adds, c, e).candidate;
            SameOrigin(c, r) && if Left(c, e) > 0 then Shrunk(c, e, r) else Emptied(cfg, adds, c, e, r)
  {
    if Left(c, e) == 0 {
      LostMeans(cfg, adds, c, e, CancelledBy(c, e).candidate, Cancelled);
    }
  }

  /** Main result: a modify, fill or cancel leaves the named, or the remaining, contracts; an order it empties is
      gone or replaced. */
  lemma EventMeans(cfg: Config, adds: seq<Event>, c: Candidate, e: Event)
    requires OnOrder(e)
    ensures var r := ApplyToCandidate(cfg, adds, c, e).candidate;
            SameOrigin(c, r) && if Left(c, e) > 0 then Shrunk(c, e, r) else Emptied(cfg, adds, c, e, r)
  {
    match e.action
    case Modify => ModifyMeans(cfg, adds, c, e);
    case Cancel => CancelMeans(cfg, adds, c, e);
    case _ => FillMeans(cfg, adds, c, e);
  }

  /** Main result: what such an event logs as refilled, cancelled and filled. */
  lemma EventLogs(cfg: Config, adds: seq<Event>, c: Candidate, e: Event)
    requires OnOrder(e)
    ensures Logs(c, e, ApplyToCandidate(cfg, adds, c, e).records)
  {
    match e.action
    case Modify => ModifyLogs(cfg, adds, c, e);
    case Cancel => CancelLogs(cfg, adds, c, e);
    case _ => FillLogs(cfg, adds, c, e);
  }

  ghost predicate Logs(c: Candidate, e: Event, log: seq<Activity>) {
    && Contracts(log, RefillActivity) == RefilledNow(c, e) && Contracts(log, CancelActivity) == CancelledNow(c, e)
    && Contracts(log, FillActivity) == FilledNow(c, e)
  }

  lemma ModifyLogs(cfg: Config, adds: seq<Event>, c: Candidate, e: Event)
    requires e.action == Modify
    ensures Logs(c, e, ApplyModify(cfg, adds, c, e).records)
  {
    var d := Resized(c, e);
    LogsRead(c, e, d.records, if d.candidate.size > 0 then []
                              else MarkLost(cfg, adds, d.candidate, e, d.candidate.status).records);
  }

  lemma CancelLogs(cfg: Config, adds: seq<Event>, c: Candidate, e: Event)
    requires e.action == Cancel
    ensures Logs(c, e, ApplyCancel(cfg, adds, c, e).records)
  {
    var d := CancelledBy(c, e);
    LogsRead(c, e, d.records, if d.candidate.size > 0 then []
                              else MarkLost(cfg, adds, d.candidate, e, Cancelled).records);
  }

  lemma FillLogs(cfg: Config, adds: seq<Event>, c: Candidate, e: Event)
    requires e.action in {Fill, Trade}
    ensures Logs(c, e, ApplyFill(cfg, adds, c, e).records)
  {
    var d := FilledBy(c, e);
    LogsRead(c, e, d.records, if d.candidate.size > 0 then []
                              else MarkLost(cfg, adds, d.candidate, e, Filled).records);
  }

  /** A log of at most one entry before at most one replacement. */
  lemma LogOne(first: seq<Activity>, last: seq<Activity>, kind: Kind)
    requires |first| <= 1 && |last| <= 1 && kind != ReplaceActivity
    requires last != [] ==> last[0].kind == ReplaceActivity
    ensures Contracts(first + last, kind) == if |first| == 1 && first[0].kind == kind then first[0].contracts else 0
  {
    ActorLedger.ContractsAppend(first, last, kind);
    LogSingle(first, kind);
    LogSingle(last, kind);
  }

  lemma LogSingle(log: seq<Activity>, kind: Kind)
    requires |log| <= 1
    ensures Contracts(log, kind) == if |log| == 1 && log[0].kind == kind then log[0].contracts else 0
  {
    if log != [] {
      ActorLedger.ContractsOne(log[0], kind);
      assert log == [log[0]];
    }
  }

  lemma LogsRead(c: Candidate, e: Event, first: seq<Activity>, last: seq<Activity>)
    requires |first| <= 1 && |last| <= 1 && (last != [] ==> last[0].kind == ReplaceActivity)
    requires RefilledNow(c, e) == (if |first| == 1 && first[0].kind == RefillActivity then first[0].contracts else 0)
    requires CancelledNow(c, e) == (if |first| == 1 && first[0].kind == CancelActivity then first[0].contracts else 0)
    requires FilledNow(c, e) == (if |first| == 1 && first[0].kind == FillActivity then first[0].contracts else 0)
    ensures Logs(c, e, first + last)
  {
    LogOne(first, last, RefillActivity);
    LogOne(first, last, CancelActivity);
    LogOne(first, last, FillActivity);
  }

  // ----- one event on a cluster -----

  /** `n` is the first candidate that carries this order id. */
  predicate Carries(cs: seq<Candidate>, id: string, n: nat) {
    n < |cs| && id != "" && cs[n].activeId == id && forall k :: 0 <= k < n ==> cs[k].activeId != id
  }

  ghost predicate Awaiting(cfg: Config, cs: seq<Candidate>, e: Event, n: nat) {
    && n < |cs| && Lacks(cfg, cs[n], e) && forall k :: 0 <= k < n ==> !Lacks(cfg, cs[k], e)
  }

  /** `c` is lost and `e` may stand in for it. */
  predicate Lacks(cfg: Config, c: Candidate, e: Event) {
    && (c.size == 0 || c.status !in {Active, Reduced, Replaced}) && c.lostSince > 0
    && MayReplace(cfg, c, e, c.lostSince)
  }

  lemma CarriesIs(cs: seq<Candidate>, id: string)
    ensures IndexOf(cs, id) < |cs| ==> Carries(cs, id, IndexOf(cs, id))
    ensures forall n: nat :: Carries(cs, id, n) ==> n == IndexOf(cs, id)
  {
  }

  lemma AwaitingIs(cfg: Config, cs: seq<Candidate>, e: Event)
    ensures AwaitingIndex(cfg, cs, e) < |cs| ==> Awaiting(cfg, cs, e, AwaitingIndex(cfg, cs, e))
    ensures forall n: nat :: Awaiting(cfg, cs, e, n) ==> n == AwaitingIndex(cfg, cs, e)
  {
    forall k | 0 <= k < |cs| ensures Awaits(cfg, cs[k], e) <==> Lacks(cfg, cs[k], e) {
      MatchesMean(cfg, cs[k], e, cs[k].lostSince);
    }
  }

  /** Main result: a modify, fill or cancel changes the first candidate that carries its order id and no other. */
  lemma EventTouchesOne(cfg: Config, prune: bool, adds: seq<Event>, cl: Cluster, e: Event)
    requires OnOrder(e)
    ensures var cs, cs' := cl.candidates, ApplyEvent(cfg, prune, adds, cl, e).candidates;
            && ((forall n: nat :: !Carries(cs, e.orderId, n)) ==> cs' == cs)
            && (forall n: nat :: Carries(cs, e.orderId, n) ==>
                  cs' == cs[n := ApplyToCandidate(cfg, adds, cs[n], e).candidate])
  {
    CarriesIs(cl.candidates, e.orderId);
  }

  /** Main result: an ADD renews the candidate that carries its order id, or else takes the place of the first lost
      candidate it may replace, or else changes none. */
  lemma AddMeans(cfg: Config, prune: bool, adds: seq<Event>, cl: Cluster, e: Event)
    requires e.action == AddOrder
    ensures var cs, cs' := cl.candidates, ApplyEvent(cfg, prune, adds, cl, e).candidates;
            && |cs'| == |cs|
            && (forall n: nat :: Carries(cs, e.orderId, n) ==> Renewed(cs[n], e, cs'[n]) && cs' == cs[n := cs'[n]])
            && ((forall n: nat :: !Carries(cs, e.orderId, n)) ==>
                  && (forall n: nat :: Awaiting(cfg, cs, e, n) ==>
                        TakesOver(cs[n], e, cs'[n]) && SameOrigin(cs[n], cs'[n]) && cs' == cs[n := cs'[n]])
                  && ((forall n: nat :: !Awaiting(cfg, cs, e, n)) ==> cs' == cs))
  {
    CarriesIs(cl.candidates, e.orderId);
    AwaitingIs(cfg, cl.candidates, e);
  }

  /** `r` is `c` shown again with the size of the ADD. */
  predicate Renewed(c: Candidate, e: Event, r: Candidate) {
    && r.size == e.size && r.status == (if c.status == Replaced then Replaced else Active) && r.lostSince == 0
    && r.price == (if e.price == None then c.price else e.price.value) && r.activeId == c.activeId
    && r.cancelled == c.cancelled && r.filled == c.filled && r.replaced == c.replaced
    && r.lastReplacement == c.lastReplacement && SameOrigin(c, r)
  }

  /** Main result: a CLEAR loses exactly the candidates that show contracts; each is gone or replaced. */
  lemma ClearMeans(cfg: Config, prune: bool, adds: seq<Event>, cl: Cluster, e: Event)
    requires e.action == Clear
    ensures var cs, cs' := cl.candidates, ApplyEvent(cfg, prune, adds, cl, e).candidates;
            |cs'| == |cs| && forall n :: 0 <= n < |cs| ==> Cleared(cfg, adds, cs[n], e, cs'[n])
  {
    var seen := cl.(lastEvent := Max(cl.lastEvent, e.ts));
    LosesEach(cfg, prune, adds, seen, e, |seen.candidates|);
    forall n | 0 <= n < |cl.candidates|
      ensures Cleared(cfg, adds, cl.candidates[n], e, AfterClear(cfg, adds, cl.candidates[n], e))
    {
      ClearedOne(cfg, adds, cl.candidates[n], e);
    }
  }

  ghost predicate Cleared(cfg: Config, adds: seq<Event>, c: Candidate, e: Event, r: Candidate) {
    if c.size == 0 || c.status !in {Active, Reduced, Replaced} then r == c
    else
      && (forall i: nat :: Stands(cfg, adds, c, e.ts, i) ==> TakesOver(c, adds[i], r))
      && (Irreplaceable(cfg, adds, c, e.ts) ==>
            r == c.(size := 0, status := Lost, lostSince := e.ts))
  }

  lemma ClearedOne(cfg: Config, adds: seq<Event>, c: Candidate, e: Event)
    ensures Cleared(cfg, adds, c, e, AfterClear(cfg, adds, c, e))
  {
    LossMeans(cfg, adds, c, e, Lost);
  }

  function AfterClear(cfg: Config, adds: seq<Event>, c: Candidate, e: Event): Candidate {
    if IsActive(c) then MarkLost(cfg, adds, c, e, Lost).candidate else c
  }

  lemma LoseNext(cfg: Config, prune: bool, adds: seq<Event>, cl: Cluster, e: Event, n: nat)
    requires 0 < n <= |cl.candidates|
    ensures var before := LoseActive(cfg, prune, adds, cl, e, n - 1).candidates;
            LoseActive(cfg, prune, adds, cl, e, n).candidates
            == before[n - 1 := AfterClear(cfg, adds, before[n - 1], e)]
  {
    var before := LoseActive(cfg, prune, adds, cl, e, n - 1).candidates;
    assert before[n - 1 := before[n - 1]] == before;
  }

  function Front(cfg: Config, adds: seq<Event>, cs: seq<Candidate>, e: Event, n: nat): (r: seq<Candidate>)
    requires n <= |cs|
    ensures |r| == |cs|
    ensures forall k :: 0 <= k < |cs| ==> r[k] == if k < n then AfterClear(cfg, adds, cs[k], e) else cs[k]
  {
    seq(|cs|, k requires 0 <= k < |cs| => if k < n then AfterClear(cfg, adds, cs[k], e) else cs[k])
  }

  lemma {:induction false} LosesEach(cfg: Config, prune: bool, adds: seq<Event>, cl: Cluster, e: Event, n: nat)
    requires n <= |cl.candidates|
    ensures LoseActive(cfg, prune, adds, cl, e, n).candidates == Front(cfg, adds, cl.candidates, e, n)
  {
    if n > 0 {
      LosesEach(cfg, prune, adds, cl, e, n - 1);
      LoseNext(cfg, prune, adds, cl, e, n);
      FrontNext(cfg, adds, cl.candidates, e, n);
    }
  }

  lemma FrontNext(cfg: Config, adds: seq<Event>, cs: seq<Candidate>, e: Event, n: nat)
    requires 0 < n <= |cs|
    ensures var before := Front(cfg, adds, cs, e, n - 1);
            Front(cfg, adds, cs, e, n) == before[n - 1 := AfterClear(cfg, adds, before[n - 1], e)]
  {
  }
}
