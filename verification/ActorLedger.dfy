/** What the tracker counts over whole runs: the counters agree with the complete activity log, and a
    candidate counts as active exactly while it shows contracts. */
module ActorLedger {
  import opened Wrappers
  import opened ActorRanking
  import opened ActorModel
  import opened ActorExit

  // ----- the nearest replacement -----

  /** The chosen ADD is a nearest match, and there is one whenever some ADD matches. */
  lemma {:induction false} ReplacementNearest(cfg: Config, adds: seq<Event>, c: Candidate, lostAt: int)
    ensures var r := Replacement(cfg, adds, c, lostAt);
            forall a :: a in adds && Matches(cfg, c, a, lostAt) ==>
                r.Some? && Abs(r.value.ts - lostAt) <= Abs(a.ts - lostAt)
  {
    if adds != [] {
      ReplacementNearest(cfg, adds[..|adds| - 1], c, lostAt);
      assert adds == adds[..|adds| - 1] + [adds[|adds| - 1]];
    }
  }

  // ----- counters and log -----

  function Counted(kind: Kind, c: Candidate): nat {
    match kind
    case CancelActivity => c.cancelled
    case FillActivity => c.filled
    case ReplaceActivity => c.replaced
    case _ => 0
  }

  predicate Counts(kind: Kind) { kind == CancelActivity || kind == FillActivity || kind == ReplaceActivity }

  lemma {:induction false} ContractsAppend(a: seq<Activity>, b: seq<Activity>, kind: Kind)
    ensures Contracts(a + b, kind) == Contracts(a, kind) + Contracts(b, kind)
  {
    if b == [] {
      assert a + b == a;
    } else {
      ContractsAppend(a, b[..|b| - 1], kind);
      assert (a + b)[..|a + b| - 1] == a + b[..|b| - 1];
    }
  }

  lemma ContractsOne(r: Activity, kind: Kind)
    ensures Contracts([r], kind) == if r.kind == kind then r.contracts else 0
  {
    assert [r][..0] == [];
  }

  lemma AdoptCounts(c: Candidate, add: Event, kind: Kind)
    requires Counts(kind)
    ensures Counted(kind, Adopt(c, add).candidate) == Counted(kind, c) + Contracts(Adopt(c, add).records, kind)
  {
    ContractsOne(Activity(add.ts, ReplaceActivity, add.size), kind);
  }

  lemma LossCounts(cfg: Config, adds: seq<Event>, c: Candidate, e: Event, status: Status, kind: Kind)
    requires Counts(kind)
    ensures var r := MarkLost(cfg, adds, c, e, status);
            Counted(kind, r.candidate) == Counted(kind, c) + Contracts(r.records, kind)
  {
    var lost := c.(status := status, size := 0, lostSince := e.ts);
    var add := Replacement(cfg, adds, lost, e.ts);
    if add.Some? {
      AdoptCounts(lost, add.value, kind);
    }
  }

  /** The first records and then those of the loss, if the candidate is lost. */
  lemma ThenCounts(c: Candidate, first: Change, last: Change, kind: Kind)
    requires Counted(kind, first.candidate) == Counted(kind, c) + Contracts(first.records, kind)
    requires Counted(kind, last.candidate) == Counted(kind, first.candidate) + Contracts(last.records, kind)
    ensures var r := Then(first.records, last);
            Counted(kind, r.candidate) == Counted(kind, c) + Contracts(r.records, kind)
  {
    ContractsAppend(first.records, last.records, kind);
  }

  lemma ModifyCounts(cfg: Config, adds: seq<Event>, c: Candidate, e: Event, kind: Kind)
    requires Counts(kind)
    ensures var r := ApplyModify(cfg, adds, c, e);
            Counted(kind, r.candidate) == Counted(kind, c) + Contracts(r.records, kind)
  {
    var r := Resized(c, e);
    if r.records != [] {
      ContractsOne(r.records[0], kind);
    }
    LossCounts(cfg, adds, r.candidate, e, r.candidate.status, kind);
    ThenCounts(c, r, if r.candidate.size == 0 then MarkLost(cfg, adds, r.candidate, e, r.candidate.status)
                     else Change(r.candidate, []), kind);
  }

  lemma FillCounts(cfg: Config, adds: seq<Event>, c: Candidate, e: Event, kind: Kind)
    requires Counts(kind)
    ensures var r := ApplyFill(cfg, adds, c, e);
            Counted(kind, r.candidate) == Counted(kind, c) + Contracts(r.records, kind)
  {
    var r := FilledBy(c, e);
    ContractsOne(r.records[0], kind);
    LossCounts(cfg, adds, r.candidate, e, Filled, kind);
    ThenCounts(c, r, if r.candidate.size == 0 then MarkLost(cfg, adds, r.candidate, e, Filled)
                     else Change(r.candidate, []), kind);
  }

  lemma CancelCounts(cfg: Config, adds: seq<Event>, c: Candidate, e: Event, kind: Kind)
    requires Counts(kind)
    ensures var r := ApplyCancel(cfg, adds, c, e);
            Counted(kind, r.candidate) == Counted(kind, c) + Contracts(r.records, kind)
  {
    var r := CancelledBy(c, e);
    ContractsOne(r.records[0], kind);
    LossCounts(cfg, adds, r.candidate, e, Cancelled, kind);
    ThenCounts(c, r, if r.candidate.size > 0 then Change(r.candidate.(status := Reduced), [])
                     else MarkLost(cfg, adds, r.candidate, e, Cancelled), kind);
  }

  /** Every event adds to a counter what it logs for that counter. */
  lemma ChangeCounts(cfg: Config, adds: seq<Event>, c: Candidate, e: Event, kind: Kind)
    requires Counts(kind)
    ensures var r := ApplyToCandidate(cfg, adds, c, e);
            Counted(kind, r.candidate) == Counted(kind, c) + Contracts(r.records, kind)
  {
    match e.action
    case Modify => ModifyCounts(cfg, adds, c, e, kind);
    case Fill => FillCounts(cfg, adds, c, e, kind);
    case Trade => FillCounts(cfg, adds, c, e, kind);
    case Cancel => CancelCounts(cfg, adds, c, e, kind);
    case _ =>
  }

  /** The sum of a counter over the candidates. */
  function Sum(cs: seq<Candidate>, kind: Kind): nat {
    if cs == [] then 0 else Sum(cs[..|cs| - 1], kind) + Counted(kind, cs[|cs| - 1])
  }

  lemma {:induction false} SumUpdate(cs: seq<Candidate>, n: nat, c: Candidate, kind: Kind)
    requires n < |cs|
    ensures Sum(cs[n := c], kind) == Sum(cs, kind) - Counted(kind, cs[n]) + Counted(kind, c)
  {
    var last := |cs| - 1;
    if n == last {
      assert cs[n := c][..last] == cs[..last];
    } else {
      SumUpdate(cs[..last], n, c, kind);
      assert cs[n := c][..last] == cs[..last][n := c];
    }
  }

  lemma {:induction false} RecordsKept(cfg: Config, log: seq<Activity>, records: seq<Activity>)
    ensures RecordAll(cfg, false, log, records) == log + records
  {
    if records != [] {
      RecordsKept(cfg, log, records[..|records| - 1]);
      assert records == records[..|records| - 1] + [records[|records| - 1]];
    }
  }

  /** A counter less what the complete log says about it. */
  function Unlogged(cl: Cluster, kind: Kind): int { Sum(cl.candidates, kind) - Contracts(cl.activity, kind) }

  lemma PutCounts(cfg: Config, cl: Cluster, n: nat, change: Change, kind: Kind)
    requires n < |cl.candidates|
    requires Counted(kind, change.candidate) == Counted(kind, cl.candidates[n]) + Contracts(change.records, kind)
    ensures Unlogged(Put(cfg, false, cl, n, change), kind) == Unlogged(cl, kind)
  {
    SumUpdate(cl.candidates, n, change.candidate, kind);
    RecordsKept(cfg, cl.activity, change.records);
    ContractsAppend(cl.activity, change.records, kind);
  }

  lemma {:induction false} LossesCount(cfg: Config, adds: seq<Event>, cl: Cluster, e: Event, n: nat, kind: Kind)
    requires n <= |cl.candidates| && Counts(kind)
    ensures Unlogged(LoseActive(cfg, false, adds, cl, e, n), kind) == Unlogged(cl, kind)
  {
    if n > 0 {
      LossesCount(cfg, adds, cl, e, n - 1, kind);
      var before := LoseActive(cfg, false, adds, cl, e, n - 1);
      var c := before.candidates[n - 1];
      if IsActive(c) {
        LossCounts(cfg, adds, c, e, Lost, kind);
        PutCounts(cfg, before, n - 1, MarkLost(cfg, adds, c, e, Lost), kind);
      }
    }
  }

  lemma ApplyCounts(cfg: Config, adds: seq<Event>, cl: Cluster, e: Event, kind: Kind)
    requires Counts(kind)
    ensures Unlogged(ApplyEvent(cfg, false, adds, cl, e), kind) == Unlogged(cl, kind)
  {
    var seen := cl.(lastEvent := Max(cl.lastEvent, e.ts));
    var n, m := IndexOf(cl.candidates, e.orderId), AwaitingIndex(cfg, cl.candidates, e);
    if e.action == AddOrder {
      var records := [Activity(e.ts, AddActivity, e.size)];
      var logged := Record(cfg, false, seen, records);
      RecordsKept(cfg, seen.activity, records);
      ContractsAppend(seen.activity, records, kind);
      ContractsOne(records[0], kind);
      if n < |cl.candidates| {
        SumUpdate(cl.candidates, n, Readd(cl.candidates[n], e), kind);
      } else if m < |cl.candidates| {
        AdoptCounts(cl.candidates[m], e, kind);
        PutCounts(cfg, logged, m, Adopt(cl.candidates[m], e), kind);
      }
    } else if e.action == Clear {
      LossesCount(cfg, adds, seen, e, |seen.candidates|, kind);
    } else if n < |cl.candidates| {
      ChangeCounts(cfg, adds, cl.candidates[n], e, kind);
      PutCounts(cfg, seen, n, ApplyToCandidate(cfg, adds, cl.candidates[n], e), kind);
    }
  }

  lemma AdvanceCounts(cfg: Config, adds: seq<Event>, cl: Cluster, e: Event, kind: Kind)
    requires Counts(kind)
    ensures Unlogged(Advance(cfg, false, adds, cl, e), kind) == Unlogged(cl, kind)
  {
    ApplyCounts(cfg, adds, cl, e, kind);
    UpdateKeeps(cfg, false, ApplyEvent(cfg, false, adds, cl, e), e.ts);
  }

  lemma UpdateKeeps(cfg: Config, prune: bool, cl: Cluster, now: int)
    ensures Update(cfg, prune, cl, now).candidates == cl.candidates
    ensures !prune ==> Update(cfg, prune, cl, now).activity == cl.activity
  {
  }

  lemma {:induction false} NothingCounted(cs: seq<Candidate>, kind: Kind)
    requires forall c :: c in cs ==> Counted(kind, c) == 0
    ensures Sum(cs, kind) == 0
  {
    if cs != [] {
      NothingCounted(cs[..|cs| - 1], kind);
    }
  }

  /** Main result: in every reachable state the cancelled, filled and replaced contracts of a cluster are
      exactly those of that kind in its complete activity log. */
  lemma {:induction false} CountersMatchLog(cfg: Config, inputs: seq<Input>, k: string, kind: Kind)
    requires k in Run(cfg, false, inputs).clusters && Counts(kind)
    ensures var cl := Run(cfg, false, inputs).clusters[k]; Sum(cl.candidates, kind) == Contracts(cl.activity, kind)
  {
    var front, i := inputs[..|inputs| - 1], inputs[|inputs| - 1];
    var g := Run(cfg, false, front);
    RunListed(cfg, false, front);
    match i
    case Raw(e) =>
      EachCluster(cfg, false, g, g.order, e);
      CountersMatchLog(cfg, front, k, kind);
      AdvanceCounts(cfg, g.adds, g.clusters[k], e, kind);
    case Start(q) =>
      if q.position == k {
        NothingCounted(Started(cfg, q).candidates, kind);
      } else {
        CountersMatchLog(cfg, front, k, kind);
      }
    case Stop(_) =>
      CountersMatchLog(cfg, front, k, kind);
  }

  // ----- active exactly while contracts show -----

  /** A candidate is active exactly while it shows contracts. */
  predicate Consistent(c: Candidate) { IsActive(c) <==> c.size > 0 }

  predicate AllConsistent(cl: Cluster) { forall n :: 0 <= n < |cl.candidates| ==> Consistent(cl.candidates[n]) }

  lemma {:induction false} LossesConsistent(cfg: Config, prune: bool, adds: seq<Event>, cl: Cluster, e: Event, n: nat)
    requires n <= |cl.candidates| && AllConsistent(cl)
    ensures AllConsistent(LoseActive(cfg, prune, adds, cl, e, n))
  {
    if n > 0 {
      LossesConsistent(cfg, prune, adds, cl, e, n - 1);
    }
  }

  lemma PutConsistent(cfg: Config, prune: bool, cl: Cluster, n: nat, change: Change)
    requires AllConsistent(cl) && n < |cl.candidates| && Consistent(change.candidate)
    ensures AllConsistent(Put(cfg, prune, cl, n, change))
  {
  }

  lemma ChangeConsistent(cfg: Config, adds: seq<Event>, c: Candidate, e: Event)
    requires Consistent(c)
    ensures Consistent(ApplyToCandidate(cfg, adds, c, e).candidate)
  {
  }

  lemma AddConsistent(cfg: Config, prune: bool, cl: Cluster, e: Event)
    requires AllConsistent(cl)
    ensures AllConsistent(ApplyAdd(cfg, prune, cl, e))
  {
    var logged := Record(cfg, prune, cl, [Activity(e.ts, AddActivity, e.size)]);
    var m := AwaitingIndex(cfg, cl.candidates, e);
    if m < |cl.candidates| {
      PutConsistent(cfg, prune, logged, m, Adopt(cl.candidates[m], e));
    }
  }

  lemma ApplyConsistent(cfg: Config, prune: bool, adds: seq<Event>, cl: Cluster, e: Event)
    requires AllConsistent(cl)
    ensures AllConsistent(ApplyEvent(cfg, prune, adds, cl, e))
  {
    var seen := cl.(lastEvent := Max(cl.lastEvent, e.ts));
    var n := IndexOf(seen.candidates, e.orderId);
    if e.action == AddOrder {
      AddConsistent(cfg, prune, seen, e);
    } else if e.action == Clear {
      LossesConsistent(cfg, prune, adds, seen, e, |seen.candidates|);
    } else if n < |seen.candidates| {
      ChangeConsistent(cfg, adds, seen.candidates[n], e);
      PutConsistent(cfg, prune, seen, n, ApplyToCandidate(cfg, adds, seen.candidates[n], e));
    }
  }

  lemma {:induction false} AdvanceConsistent(cfg: Config, prune: bool, adds: seq<Event>, cl: Cluster, e: Event)
    requires AllConsistent(cl)
    ensures AllConsistent(Advance(cfg, prune, adds, cl, e))
  {
    ApplyConsistent(cfg, prune, adds, cl, e);
    UpdateKeeps(cfg, prune, ApplyEvent(cfg, prune, adds, cl, e), e.ts);
  }

  /** Main result: in every reachable state, whatever was cancelled, filled, cleared, replaced or added
      again, a candidate is active exactly while it shows contracts. */
  lemma {:induction false} ActiveIffShown(cfg: Config, prune: bool, inputs: seq<Input>)
    ensures forall k :: k in Run(cfg, prune, inputs).clusters ==> AllConsistent(Run(cfg, prune, inputs).clusters[k])
  {
    if inputs != [] {
      var front, i := inputs[..|inputs| - 1], inputs[|inputs| - 1];
      var g := Run(cfg, prune, front);
      ActiveIffShown(cfg, prune, front);
      RunListed(cfg, prune, front);
      if i.Raw? {
        EachCluster(cfg, prune, g, g.order, i.event);
        forall k | k in g.clusters ensures AllConsistent(Advance(cfg, prune, g.adds, g.clusters[k], i.event)) {
          AdvanceConsistent(cfg, prune, g.adds, g.clusters[k], i.event);
        }
      }
    }
  }

  // ----- the dominant candidate -----

  /** The importances, which no event changes. */
  function Importances(cs: seq<Candidate>): (r: seq<real>)
    ensures |r| == |cs| && forall i :: 0 <= i < |r| ==> r[i] == cs[i].importance
  {
    seq(|cs|, i requires 0 <= i < |cs| => cs[i].importance)
  }

  predicate Falling(rs: seq<real>) { forall i, j :: 0 <= i < j < |rs| ==> rs[i] >= rs[j] }

  lemma {:induction false} DominantOfFalling(cs: seq<Candidate>)
    requires cs != [] && Falling(Importances(cs))
    ensures Dominant(cs) == Some(cs[0])
  {
    if |cs| > 1 {
      var front := cs[..|cs| - 1];
      assert forall i :: 0 <= i < |front| ==> Importances(front)[i] == Importances(cs)[i];
      DominantOfFalling(front);
      assert Importances(cs)[0] >= Importances(cs)[|cs| - 1];
    }
  }

  lemma {:induction false} LossesKeepImportance(cfg: Config, prune: bool, adds: seq<Event>, cl: Cluster, e: Event,
                                                n: nat)
    requires n <= |cl.candidates|
    ensures Importances(LoseActive(cfg, prune, adds, cl, e, n).candidates) == Importances(cl.candidates)
  {
    if n > 0 {
      LossesKeepImportance(cfg, prune, adds, cl, e, n - 1);
    }
  }

  lemma ChangeKeepsImportance(cfg: Config, adds: seq<Event>, c: Candidate, e: Event)
    ensures ApplyToCandidate(cfg, adds, c, e).candidate.importance == c.importance
  {
  }

  lemma ApplyKeepsImportance(cfg: Config, prune: bool, adds: seq<Event>, cl: Cluster, e: Event)
    ensures Importances(ApplyEvent(cfg, prune, adds, cl, e).candidates) == Importances(cl.candidates)
  {
    var seen := cl.(lastEvent := Max(cl.lastEvent, e.ts));
    var n := IndexOf(seen.candidates, e.orderId);
    if e.action == Clear {
      LossesKeepImportance(cfg, prune, adds, seen, e, |seen.candidates|);
    } else if e.action != AddOrder && n < |seen.candidates| {
      ChangeKeepsImportance(cfg, adds, seen.candidates[n], e);
    }
  }

  lemma AdvanceKeepsImportance(cfg: Config, prune: bool, adds: seq<Event>, cl: Cluster, e: Event)
    ensures Importances(Advance(cfg, prune, adds, cl, e).candidates) == Importances(cl.candidates)
  {
    ApplyKeepsImportance(cfg, prune, adds, cl, e);
    UpdateKeeps(cfg, prune, ApplyEvent(cfg, prune, adds, cl, e), e.ts);
  }

  lemma StartedFalling(cfg: Config, q: Request)
    ensures Falling(Importances(Started(cfg, q).candidates))
  {
    var tracked := Tracked(cfg.weights, q.orders, cfg.maxCandidates);
    TrackedBest(cfg.weights, q.orders, cfg.maxCandidates);
    forall i, j | 0 <= i < j < |tracked| ensures tracked[i].importance >= tracked[j].importance {
      assert ByRank()(tracked[i], tracked[j]);
    }
  }

  lemma {:induction false} AlwaysFalling(cfg: Config, prune: bool, inputs: seq<Input>, k: string)
    requires k in Run(cfg, prune, inputs).clusters
    ensures Falling(Importances(Run(cfg, prune, inputs).clusters[k].candidates))
  {
    var front, i := inputs[..|inputs| - 1], inputs[|inputs| - 1];
    var g := Run(cfg, prune, front);
    RunListed(cfg, prune, front);
    match i
    case Raw(e) =>
      EachCluster(cfg, prune, g, g.order, e);
      AlwaysFalling(cfg, prune, front, k);
      AdvanceKeepsImportance(cfg, prune, g.adds, g.clusters[k], e);
    case Start(q) =>
      if q.position == k {
        StartedFalling(cfg, q);
      } else {
        AlwaysFalling(cfg, prune, front, k);
      }
    case Stop(_) =>
      AlwaysFalling(cfg, prune, front, k);
  }

  /** Main result: in every reachable state the dominant candidate is the first one tracked, the order that
      outranked all others when tracking began, whatever has replaced it since. */
  lemma DominantIsFirst(cfg: Config, prune: bool, inputs: seq<Input>, k: string)
    requires k in Run(cfg, prune, inputs).clusters && Run(cfg, prune, inputs).clusters[k].candidates != []
    ensures var cs := Run(cfg, prune, inputs).clusters[k].candidates; Dominant(cs) == Some(cs[0])
  {
    AlwaysFalling(cfg, prune, inputs, k);
    DominantOfFalling(Run(cfg, prune, inputs).clusters[k].candidates);
  }
}
