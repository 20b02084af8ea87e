/** The tracker as it runs: candidates and clusters updated in place, the ADD log and the activity logs
    pruned as they grow; each method proved against the functions of ActorModel. */
module ActorEngine {
  import opened Wrappers
  import Sorting
  import opened ActorRanking
  import opened ActorModel
  import opened ActorExit

  function MatchesOf(cfg: Config, adds: seq<Event>, c: Candidate, lostAt: int): seq<Event> {
    if adds == [] then []
    else
      var add := adds[|adds| - 1];
      MatchesOf(cfg, adds[..|adds| - 1], c, lostAt) + if Matches(cfg, c, add, lostAt) then [add] else []
  }

  /** The first event that is nearest in time. */
  function Nearest(events: seq<Event>, lostAt: int): Option<Event> {
    if events == [] then None
    else
      var before, e := Nearest(events[..|events| - 1], lostAt), events[|events| - 1];
      if before.None? || Abs(e.ts - lostAt) < Abs(before.value.ts - lostAt) then Some(e) else before
  }

  lemma {:induction false} ReplacementIsNearest(cfg: Config, adds: seq<Event>, c: Candidate, lostAt: int)
    ensures Replacement(cfg, adds, c, lostAt) == Nearest(MatchesOf(cfg, adds, c, lostAt), lostAt)
  {
    if adds != [] {
      var matching, add := MatchesOf(cfg, adds[..|adds| - 1], c, lostAt), adds[|adds| - 1];
      ReplacementIsNearest(cfg, adds[..|adds| - 1], c, lostAt);
      if Matches(cfg, c, add, lostAt) {
        assert (matching + [add])[..|matching|] == matching;
      } else {
        assert matching + [] == matching;
      }
    }
  }

  method NearestOf(events: seq<Event>, lostAt: int) returns (best: Option<Event>)
    ensures best == Nearest(events, lostAt)
  {
    best := None;
    for j := 0 to |events|
      invariant best == Nearest(events[..j], lostAt)
    {
      assert events[..j + 1][..j] == events[..j];
      if best.None? || Abs(events[j].ts - lostAt) < Abs(best.value.ts - lostAt) {
        best := Some(events[j]);
      }
    }
    assert events[..|events|] == events;
  }

  method OrdersWithImportance(w: Weights, orders: seq<Order>) returns (ranked: seq<Scored>)
    ensures ranked == Ranked(w, orders)
  {
    var scored: seq<Scored> := [];
    for i := 0 to |orders|
      invariant |scored| == i
      invariant forall k :: 0 <= k < i ==> scored[k] == Scored(orders[k], Importance(w, orders, orders[k]))
    {
      scored := scored + [Scored(orders[i], Importance(w, orders, orders[i]))];
    }
    assert scored == AllScored(w, orders);
    ranked := Sorting.Sort(scored, ByRank());
  }

  class TrackedCandidate {
    ghost const owner: string
    const instrument: Option<string>
    const side: string
    const initialSize: nat
    const baseline: nat
    const importance: real
    var activeId: string
    var price: real
    var size: nat
    var status: Status
    var cancelled: nat
    var filled: nat
    var replaced: nat
    var pendingRefill: nat
    var lastRefill: int
    var lastReplacement: int
    var lostSince: int
    var lastSeen: int

    function Model(): Candidate
      reads this
    {
      Candidate(activeId, instrument, side, price, initialSize, size, baseline, importance, status,
                cancelled, filled, replaced, pendingRefill, lastRefill, lastReplacement, lostSince, lastSeen)
    }

    constructor FromOrder(s: Scored, ghost position: string)
      ensures Model() == Begun(s) && owner == position
    {
      var o := s.order;
      owner := position;
      instrument, side, initialSize, importance := o.instrument, o.side, o.initialSize, s.importance;
      baseline := if o.refillContracts >= o.refillCount then o.refillContracts else o.refillCount;
      activeId, price, size, lastSeen := o.orderId, o.price, o.currentSize, o.lastSeen;
      status, lostSince := if o.currentSize > 0 then Active else Lost, if o.currentSize > 0 then 0 else o.lastSeen;
      cancelled, filled, replaced, pendingRefill := 0, 0, 0, 0;
      lastRefill, lastReplacement := 0, 0;
    }

    method ReprintPrice(e: Event)
      modifies this`price
      ensures Model() == Priced(old(Model()), e)
    {
      if e.price.Some? {
        price := e.price.value;
      }
    }

    method ApplyReplacement(add: Event) returns (records: seq<Activity>)
      modifies this
      ensures Change(Model(), records) == Adopt(old(Model()), add)
    {
      activeId, status, size := add.orderId, Replaced, add.size;
      if add.price.Some? && add.price.value != 0.0 {
        price := add.price.value;
      }
      replaced := replaced + add.size;
      lastReplacement, lastSeen, lostSince := add.ts, add.ts, 0;
      records := [Activity(add.ts, ReplaceActivity, add.size)];
    }

    method ReplacementFrom(cfg: Config, adds: seq<Event>, lostAt: int) returns (best: Option<Event>)
      ensures best == Replacement(cfg, adds, Model(), lostAt)
    {
      var matching := MatchingAdds(cfg, adds, lostAt);
      ReplacementIsNearest(cfg, adds, Model(), lostAt);
      best := NearestOf(matching, lostAt);
    }

    method MatchingAdds(cfg: Config, adds: seq<Event>, lostAt: int) returns (matching: seq<Event>)
      ensures matching == MatchesOf(cfg, adds, Model(), lostAt)
    {
      matching := [];
      for i := 0 to |adds|
        invariant matching == MatchesOf(cfg, adds[..i], Model(), lostAt)
      {
        assert adds[..i + 1][..i] == adds[..i];
        if Matches(cfg, Model(), adds[i], lostAt) {
          matching := matching + [adds[i]];
        }
      }
      assert adds[..|adds|] == adds;
    }

    method Lose(cfg: Config, adds: seq<Event>, e: Event, status: Status) returns (records: seq<Activity>)
      modifies this
      ensures Change(Model(), records) == MarkLost(cfg, adds, old(Model()), e, status)
    {
      this.status, size, lostSince := status, 0, e.ts;
      var add := ReplacementFrom(cfg, adds, e.ts);
      records := [];
      if add.Some? {
        records := ApplyReplacement(add.value);
      }
    }

    method Resize(e: Event) returns (records: seq<Activity>)
      modifies this
      ensures Change(Model(), records) == Resized(old(Model()), e)
    {
      ReprintPrice(e);
      var newSize := if e.size > 0 then e.size else size;
      records := [];
      if newSize > size {
        lastRefill := e.ts;
        status := if status != Replaced then Active else Replaced;
        records := [Activity(e.ts, RefillActivity, newSize - size)];
      } else if newSize < size {
        cancelled := cancelled + (size - newSize);
        status := if newSize > 0 then Reduced else Cancelled;
        records := [Activity(e.ts, CancelActivity, size - newSize)];
      }
      size, lastSeen := newSize, e.ts;
    }

    method ModifyBy(cfg: Config, adds: seq<Event>, e: Event) returns (records: seq<Activity>)
      modifies this
      ensures Change(Model(), records) == ApplyModify(cfg, adds, old(Model()), e)
    {
      records := Resize(e);
      if size == 0 {
        var more := Lose(cfg, adds, e, status);
        records := records + more;
      }
    }

    method TakeFill(e: Event) returns (records: seq<Activity>)
      modifies this
      ensures Change(Model(), records) == FilledBy(old(Model()), e)
    {
      var executed := if e.size > 0 then e.size else size;
      filled := filled + executed;
      size := if executed < size then size - executed else 0;
      pendingRefill := pendingRefill + executed;
      lastSeen := e.ts;
      records := [Activity(e.ts, FillActivity, executed)];
      ReprintPrice(e);
    }

    method FillBy(cfg: Config, adds: seq<Event>, e: Event) returns (records: seq<Activity>)
      modifies this
      ensures Change(Model(), records) == ApplyFill(cfg, adds, old(Model()), e)
    {
      records := TakeFill(e);
      if size == 0 {
        var more := Lose(cfg, adds, e, Filled);
        records := records + more;
      }
    }

    method TakeCancel(e: Event) returns (records: seq<Activity>)
      modifies this
      ensures Change(Model(), records) == CancelledBy(old(Model()), e)
    {
      var asked := if e.size > 0 then e.size else size;
      var taken := if size > 0 && size < asked then size else asked;
      cancelled := cancelled + taken;
      size := if taken < size then size - taken else 0;
      lastSeen := e.ts;
      records := [Activity(e.ts, CancelActivity, taken)];
      ReprintPrice(e);
    }

    method CancelBy(cfg: Config, adds: seq<Event>, e: Event) returns (records: seq<Activity>)
      modifies this
      ensures Change(Model(), records) == ApplyCancel(cfg, adds, old(Model()), e)
    {
      records := TakeCancel(e);
      if size > 0 {
        status := Reduced;
      } else {
        var more := Lose(cfg, adds, e, Cancelled);
        records := records + more;
      }
    }

    method AddAgain(e: Event)
      modifies this
      ensures Model() == Readd(old(Model()), e)
    {
      ReprintPrice(e);
      size, lastSeen, lostSince := e.size, e.ts, 0;
      status := if status != Replaced then Active else Replaced;
    }

    method ChangeBy(cfg: Config, adds: seq<Event>, e: Event) returns (records: seq<Activity>)
      modifies this
      ensures Change(Model(), records) == ApplyToCandidate(cfg, adds, old(Model()), e)
    {
      match e.action
      case Modify => records := ModifyBy(cfg, adds, e);
      case Fill => records := FillBy(cfg, adds, e);
      case Trade => records := FillBy(cfg, adds, e);
      case Cancel => records := CancelBy(cfg, adds, e);
      case _ => records := [];
    }
  }

  function Models(candidates: seq<TrackedCandidate>): (r: seq<Candidate>)
    reads candidates
    ensures |r| == |candidates| && forall k :: 0 <= k < |r| ==> r[k] == candidates[k].Model()
  {
    seq(|candidates|, k requires 0 <= k < |candidates| reads candidates => candidates[k].Model())
  }

  method CandidatesFrom(tracked: seq<Scored>, ghost position: string) returns (made: seq<TrackedCandidate>)
    ensures fresh(made) && Models(made) == AllBegun(tracked)
    ensures (forall c :: c in made ==> c.owner == position) && forall i, j :: 0 <= i < j < |made| ==> made[i] != made[j]
  {
    made := [];
    for i := 0 to |tracked|
      invariant |made| == i && fresh(made)
      invariant forall k :: 0 <= k < i ==> made[k].Model() == Begun(tracked[k]) && made[k].owner == position
      invariant forall j, k :: 0 <= j < k < i ==> made[j] != made[k]
    {
      var c := new TrackedCandidate.FromOrder(tracked[i], position);
      made := made + [c];
    }
    assert Models(made) == AllBegun(tracked);
  }

  class TrackedCluster {
    const position: string
    const symbols: set<string>
    const start: int
    const end: Option<int>
    const candidates: seq<TrackedCandidate>
    var lastEvent: int
    var weakenedSince: int
    var exit: Option<ExitSignal>
    var activity: seq<Activity>

    ghost predicate Valid() {
      && (forall c :: c in candidates ==> c.owner == position)
      && forall i, j :: 0 <= i < j < |candidates| ==> candidates[i] != candidates[j]
    }

    function Model(): Cluster
      reads this, candidates
    {
      Cluster(position, symbols, start, end, Models(candidates), lastEvent, weakenedSince, exit, activity)
    }

    constructor (cfg: Config, q: Request)
      ensures Valid() && Model() == Started(cfg, q) && position == q.position && fresh(candidates)
    {
      position, symbols, start, end := q.position, q.symbols, q.start, q.end;
      lastEvent, weakenedSince, exit, activity := q.start, 0, None, [];
      var ranked := OrdersWithImportance(cfg.weights, q.orders);
      var tracked := ranked[..Min(cfg.maxCandidates, |ranked|)];
      var made := CandidatesFrom(tracked, q.position);
      candidates := made;
    }

    /** Tracking has stopped: no candidate counts any more. */
    method MarkExited()
      requires Valid()
      modifies Footprint()
      ensures forall c :: c in candidates ==> c.status == Exited
    {
      for i := 0 to |candidates|
        invariant forall k :: 0 <= k < i ==> candidates[k].status == Exited
      {
        candidates[i].status := Exited;
      }
    }

    method RecordActivity(cfg: Config, records: seq<Activity>)
      modifies this`activity
      ensures activity == RecordAll(cfg, true, old(activity), records)
    {
      assert records[..0] == [];
      for i := 0 to |records|
        invariant activity == RecordAll(cfg, true, old(activity), records[..i])
      {
        assert records[..i + 1][..i] == records[..i];
        activity := activity + [records[i]];
        activity := Since(activity, ActivityTs, records[i].ts - cfg.recentWindow);
      }
      assert records[..|records|] == records;
    }

    lemma OneChanged(was: seq<Candidate>, n: nat)
      requires Valid() && |was| == |candidates| && n < |was|
      requires forall k :: 0 <= k < |was| && k != n ==> candidates[k].Model() == was[k]
      ensures Models(candidates) == was[n := candidates[n].Model()]
    {
    }

    method MarkLost(cfg: Config, adds: seq<Event>, e: Event, n: nat)
      requires Valid() && n < |candidates|
      modifies this`activity, candidates[n]
      ensures Model()
           == Put(cfg, true, old(Model()), n, ActorModel.MarkLost(cfg, adds, old(candidates[n].Model()), e, Lost))
    {
      ghost var was := Models(candidates);
      var records := candidates[n].Lose(cfg, adds, e, Lost);
      OneChanged(was, n);
      RecordActivity(cfg, records);
    }

    method ChangeCandidate(cfg: Config, adds: seq<Event>, e: Event, n: nat)
      requires Valid() && n < |candidates|
      modifies this`activity, candidates[n]
      ensures Model() == Put(cfg, true, old(Model()), n, ApplyToCandidate(cfg, adds, old(candidates[n].Model()), e))
    {
      ghost var was := Models(candidates);
      var records := candidates[n].ChangeBy(cfg, adds, e);
      OneChanged(was, n);
      RecordActivity(cfg, records);
    }

    method LoseAllActive(cfg: Config, adds: seq<Event>, e: Event)
      requires Valid()
      modifies this`activity, candidates
      ensures Model() == LoseActive(cfg, true, adds, old(Model()), e, |candidates|)
    {
      for i := 0 to |candidates|
        invariant Model() == LoseActive(cfg, true, adds, old(Model()), e, i)
      {
        if IsActive(candidates[i].Model()) {
          MarkLost(cfg, adds, e, i);
        }
      }
    }

    method AddBy(cfg: Config, e: Event)
      requires Valid()
      modifies this`activity, candidates
      ensures Model() == ApplyAdd(cfg, true, old(Model()), e)
    {
      ghost var was := Models(candidates);
      RecordActivity(cfg, [Activity(e.ts, AddActivity, e.size)]);
      var n := IndexOf(Models(candidates), e.orderId);
      if n < |candidates| {
        candidates[n].AddAgain(e);
        OneChanged(was, n);
        return;
      }
      var m := AwaitingIndex(cfg, Models(candidates), e);
      if m < |candidates| {
        var records := candidates[m].ApplyReplacement(e);
        OneChanged(was, m);
        RecordActivity(cfg, records);
      }
    }

    method ApplyEvent(cfg: Config, adds: seq<Event>, e: Event)
      requires Valid()
      modifies this`lastEvent, this`activity, candidates
      ensures Model() == ActorModel.ApplyEvent(cfg, true, adds, old(Model()), e)
    {
      lastEvent := Max(lastEvent, e.ts);
      if e.action == AddOrder {
        AddBy(cfg, e);
      } else if e.action == Clear {
        LoseAllActive(cfg, adds, e);
      } else {
        var n := IndexOf(Models(candidates), e.orderId);
        if n < |candidates| {
          ChangeCandidate(cfg, adds, e, n);
        }
      }
    }

    method Update(cfg: Config, now: int)
      modifies this`activity, this`weakenedSince, this`exit
      ensures Model() == ActorModel.Update(cfg, true, old(Model()), now)
    {
      activity := Since(activity, ActivityTs, now - cfg.recentWindow);
      if exit.Some? {
        return;
      }
      if !ExitConditions(cfg, Model(), now) {
        weakenedSince := 0;
      } else if weakenedSince <= 0 {
        weakenedSince := now;
      } else if now - weakenedSince >= cfg.confirmWindow {
        exit := Some(SignalOf(cfg, Model(), now));
      }
    }
  
    ghost function Footprint(): set<object> {
      {this} + set c: TrackedCandidate | c in candidates
    }

    method Take(cfg: Config, adds: seq<Event>, e: Event)
      requires Valid()
      modifies Footprint()
      ensures Model() == Advance(cfg, true, adds, old(Model()), e)
    {
      ApplyEvent(cfg, adds, e);
      Update(cfg, e.ts);
    }
  }

  class ActorProxyEngine {
    const cfg: Config
    var adds: seq<Event>
    var order: seq<string>
    var clusters: map<string, TrackedCluster>

    ghost predicate Valid()
      reads this`clusters
    {
      forall k :: k in clusters ==> clusters[k].position == k && clusters[k].Valid()
    }

    ghost function Candidates(): set<TrackedCandidate>
      reads this`clusters
    {
      set k, c | k in clusters && c in clusters[k].candidates :: c
    }

    ghost function Model(): Engine
      reads this, clusters.Values, Candidates()
    {
      assert forall k, c :: k in clusters && c in clusters[k].candidates ==> c in Candidates();
      Engine(adds, order, map k | k in clusters :: clusters[k].Model())
    }

    constructor (cfg: Config)
      ensures Valid() && Model() == Empty && this.cfg == cfg
    {
      this.cfg := cfg;
      adds, order, clusters := [], [], map[];
    }

    method StartTracking(q: Request)
      requires Valid()
      modifies this`order, this`clusters
      ensures Valid() && Model() == Step(cfg, true, old(Model()), Start(q))
    {
      ghost var was := Model();
      if q.position !in clusters {
        order := order + [q.position];
      }
      assert Model() == was.(order := order);
      SetCluster(q);
    }

    method SetCluster(q: Request)
      requires Valid()
      modifies this`clusters
      ensures Valid() && Model().clusters == old(Model()).clusters[q.position := Started(cfg, q)]
    {
      ghost var was := Model();
      var tracked := new TrackedCluster(cfg, q);
      clusters := clusters[q.position := tracked];
      Installed(was, q.position, tracked.Model());
    }

    lemma Installed(was: Engine, position: string, cl: Cluster)
      requires clusters.Keys == was.clusters.Keys + {position} && clusters[position].Model() == cl
      requires forall k :: k in was.clusters && k != position ==> clusters[k].Model() == was.clusters[k]
      ensures Model().clusters == was.clusters[position := cl]
    {
    }

    /** No object is shared between two positions. */
    lemma Apart(position: string)
      requires Valid() && position in clusters
      ensures forall k :: k in clusters && k != position ==>
                clusters[k] !in clusters[position].Footprint() && forall c :: c in clusters[k].candidates ==>
                    c !in clusters[position].Footprint()
    {
    }

    method StopTracking(position: string)
      requires Valid()
      modifies this`order, this`clusters, if position in clusters then clusters[position].Footprint() else {}
      ensures Valid() && Model() == Step(cfg, true, old(Model()), Stop(position))
      ensures position in old(clusters) ==> forall c :: c in old(clusters)[position].candidates ==> c.status == Exited
    {
      ghost var was := Model();
      if position in clusters {
        Retire(position);
      }
      Forget(position, was);
    }

    method Forget(position: string, ghost was: Engine)
      requires Valid() && was.adds == adds && was.order == order && was.clusters.Keys == clusters.Keys
      requires forall k :: k in clusters && k != position ==> clusters[k].Model() == was.clusters[k]
      modifies this`order, this`clusters
      ensures Valid() && Model() == was.(order := Without(was.order, position), clusters := was.clusters - {position})
    {
      clusters := clusters - {position};
      order := Without(order, position);
    }

    method Retire(position: string)
      requires Valid() && position in clusters
      modifies clusters[position].Footprint()
      ensures adds == old(adds) && clusters == old(clusters) && order == old(order)
      ensures forall k :: k in clusters && k != position ==> clusters[k].Model() == old(clusters[k].Model())
      ensures forall c :: c in clusters[position].candidates ==> c.status == Exited
    {
      Apart(position);
      clusters[position].MarkExited();
    }

    method OnCluster(position: string, e: Event) returns (signal: Option<ExitSignal>)
      requires Valid() && position in clusters
      modifies this`adds, clusters[position].Footprint()
      ensures clusters == old(clusters) && order == old(order)
      ensures Model() == ActorModel.OnCluster(cfg, true, old(Model()), position, e)
      ensures signal == if old(Accepts(clusters[position].Model(), e)) then clusters[position].exit else None
    {
      signal := None;
      if Accepts(clusters[position].Model(), e) {
        signal := Receive(position, e);
      }
    }

    method RememberAdd(e: Event)
      modifies this`adds
      ensures adds == Remember(cfg, true, old(adds), e)
      ensures forall k :: k in clusters ==> clusters[k].Model() == old(clusters[k].Model())
    {
      adds := adds + [e];
      adds := Since(adds, EventTs, e.ts - cfg.timeGap);
    }

    method Receive(position: string, e: Event) returns (signal: Option<ExitSignal>)
      requires Valid() && position in clusters && ActorModel.Accepts(clusters[position].Model(), e)
      modifies this`adds, clusters[position].Footprint()
      ensures clusters == old(clusters) && order == old(order) && signal == clusters[position].exit
      ensures Model() == ActorModel.OnCluster(cfg, true, old(Model()), position, e)
    {
      ghost var was := Model();
      assert was.clusters[position] == clusters[position].Model();
      if e.action == AddOrder {
        RememberAdd(e);
      }
      assert Model() == was.(adds := adds);
      Accepted(was, position, e, adds);
      signal := DeliverTo(position, e, Model());
    }

    method DeliverTo(position: string, e: Event, ghost was: Engine) returns (signal: Option<ExitSignal>)
      requires Valid() && position in clusters && was == Model()
      modifies clusters[position].Footprint()
      ensures clusters == old(clusters) && order == old(order) && signal == clusters[position].exit
      ensures Model()
           == was.(clusters := was.clusters[position := Advance(cfg, true, was.adds, was.clusters[position], e)])
    {
      signal := Deliver(position, e);
      ghost var cl := clusters[position].Model();
      Installed(was, position, cl);
      assert Model() == was.(clusters := was.clusters[position := cl]);
    }

    lemma Accepted(g: Engine, position: string, e: Event, log: seq<Event>)
      requires position in g.clusters && ActorModel.Accepts(g.clusters[position], e)
      requires log == if e.action == AddOrder then Remember(cfg, true, g.adds, e) else g.adds
      ensures ActorModel.OnCluster(cfg, true, g, position, e)
           == g.(adds := log, clusters := g.clusters[position := Advance(cfg, true, log, g.clusters[position], e)])
    {
    }

    method Deliver(position: string, e: Event) returns (signal: Option<ExitSignal>)
      requires Valid() && position in clusters
      modifies clusters[position].Footprint()
      ensures clusters[position].Model() == Advance(cfg, true, adds, old(clusters[position].Model()), e)
      ensures signal == clusters[position].exit && adds == old(adds) && clusters == old(clusters) && order == old(order)
      ensures forall k :: k in clusters && k != position ==> clusters[k].Model() == old(clusters[k].Model())
    {
      Apart(position);
      clusters[position].Take(cfg, adds, e);
      signal := clusters[position].exit;
    }

    method OnTurn(i: nat, e: Event, signals: seq<ExitSignal>, ghost was: Engine) returns (more: seq<ExitSignal>)
      requires Valid() && Listed(was) && was.order == order && i < |order|
      requires Model() == OnClusters(cfg, true, was, order[..i], e) && signals == SignalsOf(was, Model(), order[..i], e)
      modifies this`adds, clusters.Values, Candidates()
      ensures clusters == old(clusters) && order == old(order)
      ensures Model()
           == OnClusters(cfg, true, was, order[..i + 1], e) && more == SignalsOf(was, Model(), order[..i + 1], e)
    {
      TurnFacts(cfg, was, i, e);
      assert Model().clusters[order[i]] == clusters[order[i]].Model();
      var signal := OnCluster(order[i], e);
      assert Model().clusters[order[i]] == clusters[order[i]].Model();
      more := if signal.Some? then signals + [signal.value] else signals;
    }

    method OnRawDomEvent(e: Event) returns (signals: seq<ExitSignal>)
      requires Valid() && Listed(Model())
      modifies this`adds, clusters.Values, Candidates()
      ensures Valid() && Listed(Model())
      ensures Model() == Step(cfg, true, old(Model()), Raw(e)) && signals == Signals(cfg, true, old(Model()), Raw(e))
    {
      ghost var was := Model();
      signals := [];
      for i := 0 to |order|
        invariant Valid() && was.order == order
        invariant Model() == OnClusters(cfg, true, was, order[..i], e)
        invariant signals == SignalsOf(was, Model(), order[..i], e)
      {
        signals := OnTurn(i, e, signals, was);
      }
      assert order[..|order|] == order;
      StepListed(cfg, true, was, Raw(e));
    }
  }

  /** The next position is delivered to as it was, and adds its own signal only. */
  lemma TurnFacts(cfg: Config, g: Engine, i: nat, e: Event)
    requires Listed(g) && i < |g.order|
    ensures var p, before := g.order[i], OnClusters(cfg, true, g, g.order[..i], e);
            var after := OnClusters(cfg, true, g, g.order[..i + 1], e);
            && after == OnCluster(cfg, true, before, p, e)
            && p in before.clusters && p in after.clusters && before.clusters[p] == g.clusters[p]
            && SignalsOf(g, after, g.order[..i + 1], e)
               == SignalsOf(g, before, g.order[..i], e)
                  + if Accepts(g.clusters[p], e) && after.clusters[p].exit.Some? then [after.clusters[p].exit.value]
                    else []
  {
    var front, more, p := g.order[..i], g.order[..i + 1], g.order[i];
    var before, after := OnClusters(cfg, true, g, front, e), OnClusters(cfg, true, g, more, e);
    assert more[..i] == front && more[i] == p && p !in front && p in g.order;
    EachCluster(cfg, true, g, front, e);
    EachCluster(cfg, true, g, more, e);
    forall k | k in front && k in before.clusters ensures before.clusters[k] == after.clusters[k] {
      assert k in more;
    }
    SameSignals(g, before, after, front, e);
    LastSignal(g, after, more, e);
  }

  lemma LastSignal(g: Engine, after: Engine, positions: seq<string>, e: Event)
    requires positions != []
    ensures var p := positions[|positions| - 1];
            SignalsOf(g, after, positions, e)
            == SignalsOf(g, after, positions[..|positions| - 1], e)
               + if p in g.clusters && p in after.clusters && Accepts(g.clusters[p], e) && after.clusters[p].exit.Some?
                 then [after.clusters[p].exit.value] else []
  {
  }

  lemma {:induction false} SameSignals(g: Engine, a: Engine, b: Engine, positions: seq<string>, e: Event)
    requires a.clusters.Keys == b.clusters.Keys
    requires forall p :: p in positions && p in a.clusters ==> a.clusters[p] == b.clusters[p]
    ensures SignalsOf(g, a, positions, e) == SignalsOf(g, b, positions, e)
  {
    if positions != [] {
      SameSignals(g, a, b, positions[..|positions| - 1], e);
    }
  }
}
