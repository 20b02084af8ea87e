/** The actor-proxy tracker (actor_proxy/actor_proxy_engine.py): how one order event changes the tracked
    candidates of a position, and when their weakening raises an exit signal. */
module ActorModel {
  import opened Wrappers
  import opened ActorRanking

  datatype Settings = Settings(
    weights: Weights, maxCandidates: int, tickSize: real, tickDistance: int, timeGap: int,
    similarityMin: real, similarityMax: real, recentWindow: int,
    exitThreshold: real, dropRatio: real, confirmWindow: int, scoreThreshold: real)

  predicate Usable(s: Settings) {
    && s.tickSize > 0.0 && 0.0 <= s.similarityMin <= s.similarityMax
    && 0.0 <= s.exitThreshold <= 1.0 && 0.0 <= s.dropRatio <= 1.0 && 0.0 <= s.scoreThreshold <= 1.0
    && s.maxCandidates > 0 && s.tickDistance > 0 && s.timeGap > 0 && s.recentWindow > 0 && s.confirmWindow > 0
  }

  const Defaults := Settings(
    Weights(1.0, 1.25, 1.0, 0.75, 0.5), 8, 0.25, 2, 2000, 0.5, 2.0, 5000, 0.35, 0.25, 1000, 0.65)

  type Config = s: Settings | Usable(s) witness Defaults

  datatype Action = AddOrder | Modify | Cancel | Trade | Fill | Clear | OtherAction

  datatype Event = Event(
    ts: int, symbol: string, instrument: Option<string>, orderId: string, side: string,
    price: Option<real>, size: nat, action: Action)

  datatype Status = Active | Reduced | Cancelled | Filled | Replaced | Lost | Exited

  /** `baseline` is the larger of the refill contracts and the refill count the order began with. */
  datatype Candidate = Candidate(
    activeId: string, instrument: Option<string>, side: string, price: real,
    initialSize: nat, size: nat, baseline: nat, importance: real, status: Status,
    cancelled: nat, filled: nat, replaced: nat, pendingRefill: nat,
    lastRefill: int, lastReplacement: int, lostSince: int, lastSeen: int)

  datatype Kind = AddActivity | RefillActivity | CancelActivity | FillActivity | ReplaceActivity

  datatype Activity = Activity(ts: int, kind: Kind, contracts: nat)

  datatype ExitSignal = ExitSignal(position: string, score: real, activeRatio: real, dominant: Option<Status>, ts: int)

  datatype Cluster = Cluster(
    position: string, symbols: set<string>, start: int, end: Option<int>, candidates: seq<Candidate>,
    lastEvent: int, weakenedSince: int, exit: Option<ExitSignal>, activity: seq<Activity>)

  predicate IsActive(c: Candidate) { (c.status == Active || c.status == Reduced || c.status == Replaced) && c.size > 0 }

  function Abs(x: int): int { if x < 0 then -x else x }

  function Ratio(a: real, b: real): real { if b <= 0.0 then 0.0 else a / b }

  function Clamp(x: real): real { if x < 0.0 then 0.0 else if x > 1.0 then 1.0 else x }

  // ----- replacements -----

  predicate Matches(cfg: Config, c: Candidate, add: Event, lostAt: int) {
    && add.action == AddOrder && add.orderId != "" && add.orderId != c.activeId && add.side == c.side && add.price.Some?
    && (c.instrument.Some? && add.instrument.Some? ==> c.instrument == add.instrument)
    && (add.price.value - c.price <= cfg.tickSize * cfg.tickDistance as real)
    && (c.price - add.price.value <= cfg.tickSize * cfg.tickDistance as real)
    && Abs(add.ts - lostAt) <= cfg.timeGap
    && var reference := if c.initialSize > 0 then c.initialSize else if c.cancelled > 0 then c.cancelled
                        else if add.size > 0 then add.size else 1;
       cfg.similarityMin <= Ratio(add.size as real, reference as real) <= cfg.similarityMax
  }

  /** The first matching ADD that is nearest in time to the loss. */
  function Replacement(cfg: Config, adds: seq<Event>, c: Candidate, lostAt: int): (r: Option<Event>)
    ensures r.Some? ==> r.value in adds && Matches(cfg, c, r.value, lostAt)
  {
    if adds == [] then None
    else
      var before := Replacement(cfg, adds[..|adds| - 1], c, lostAt);
      var add := adds[|adds| - 1];
      if Matches(cfg, c, add, lostAt) && (before.None? || Abs(add.ts - lostAt) < Abs(before.value.ts - lostAt))
      then Some(add) else before
  }

  /** A changed candidate with the activity to record for it. */
  datatype Change = Change(candidate: Candidate, records: seq<Activity>)

  function Adopt(c: Candidate, add: Event): Change {
    Change(c.(activeId := add.orderId, status := Replaced, size := add.size,
              price := if add.price.Some? && add.price.value != 0.0 then add.price.value else c.price,
              replaced := c.replaced + add.size, lastReplacement := add.ts, lastSeen := add.ts, lostSince := 0),
           [Activity(add.ts, ReplaceActivity, add.size)])
  }

  function MarkLost(cfg: Config, adds: seq<Event>, c: Candidate, e: Event, status: Status): Change {
    var lost := c.(status := status, size := 0, lostSince := e.ts);
    var add := Replacement(cfg, adds, lost, e.ts);
    if add.Some? then Adopt(lost, add.value) else Change(lost, [])
  }

  function Priced(c: Candidate, e: Event): Candidate {
    if e.price.Some? then c.(price := e.price.value) else c
  }

  function Then(records: seq<Activity>, last: Change): Change { Change(last.candidate, records + last.records) }

  /** The candidate once the event has changed its size, with what that records. */
  function Resized(c: Candidate, e: Event): Change {
    var size := if e.size > 0 then e.size else c.size;
    if size > c.size then
      Change(Priced(c, e).(lastRefill := e.ts, size := size, lastSeen := e.ts,
                           status := if c.status != Replaced then Active else Replaced),
             [Activity(e.ts, RefillActivity, size - c.size)])
    else if size < c.size then
      Change(Priced(c, e).(cancelled := c.cancelled + (c.size - size), size := size, lastSeen := e.ts,
                           status := if size > 0 then Reduced else Cancelled),
             [Activity(e.ts, CancelActivity, c.size - size)])
    else Change(Priced(c, e).(size := size, lastSeen := e.ts), [])
  }

  function ApplyModify(cfg: Config, adds: seq<Event>, c: Candidate, e: Event): Change {
    var r := Resized(c, e);
    Then(r.records, if r.candidate.size == 0 then MarkLost(cfg, adds, r.candidate, e, r.candidate.status)
                    else Change(r.candidate, []))
  }

  function FilledBy(c: Candidate, e: Event): Change {
    var executed := if e.size > 0 then e.size else c.size;
    Change(Priced(c, e).(filled := c.filled + executed, size := Max(0, c.size - executed),
                         pendingRefill := c.pendingRefill + executed, lastSeen := e.ts),
           [Activity(e.ts, FillActivity, executed)])
  }

  function ApplyFill(cfg: Config, adds: seq<Event>, c: Candidate, e: Event): Change {
    var r := FilledBy(c, e);
    Then(r.records, if r.candidate.size == 0 then MarkLost(cfg, adds, r.candidate, e, Filled)
                    else Change(r.candidate, []))
  }

  function CancelledBy(c: Candidate, e: Event): Change {
    var asked := if e.size > 0 then e.size else c.size;
    var cancelled := if c.size > 0 then Min(asked, c.size) else asked;
    Change(Priced(c, e).(cancelled := c.cancelled + cancelled, size := Max(0, c.size - cancelled), lastSeen := e.ts),
           [Activity(e.ts, CancelActivity, cancelled)])
  }

  function ApplyCancel(cfg: Config, adds: seq<Event>, c: Candidate, e: Event): Change {
    var r := CancelledBy(c, e);
    Then(r.records, if r.candidate.size > 0 then Change(r.candidate.(status := Reduced), [])
                    else MarkLost(cfg, adds, r.candidate, e, Cancelled))
  }

  function Readd(c: Candidate, e: Event): Candidate {
    Priced(c, e).(size := e.size, lastSeen := e.ts, lostSince := 0,
                  status := if c.status != Replaced then Active else Replaced)
  }

  // ----- the activity log -----

  function Since<T>(log: seq<T>, ts: T -> int, cutoff: int): seq<T> {
    if log == [] then []
    else
      Since(log[..|log| - 1], ts, cutoff) + if ts(log[|log| - 1]) >= cutoff then [log[|log| - 1]] else []
  }

  const ActivityTs := (a: Activity) => a.ts
  const EventTs := (e: Event) => e.ts

  /** `prune` tells the tracker that drops old entries from the reference that keeps them all. */
  function Pruned(cfg: Config, prune: bool, log: seq<Activity>, now: int): seq<Activity> {
    if prune then Since(log, ActivityTs, now - cfg.recentWindow) else log
  }

  function RecordAll(cfg: Config, prune: bool, log: seq<Activity>, records: seq<Activity>): seq<Activity> {
    if records == [] then log
    else
      var last := records[|records| - 1];
      Pruned(cfg, prune, RecordAll(cfg, prune, log, records[..|records| - 1]) + [last], last.ts)
  }

  function Remember(cfg: Config, prune: bool, adds: seq<Event>, e: Event): seq<Event> {
    var log := adds + [e];
    if prune then Since(log, EventTs, e.ts - cfg.timeGap) else log
  }

  // ----- one event on one cluster -----

  /** The first candidate with this active order id, or the number of candidates. */
  function IndexOf(candidates: seq<Candidate>, orderId: string): (n: nat)
    ensures n <= |candidates|
    ensures n < |candidates| ==> orderId != "" && candidates[n].activeId == orderId
    ensures orderId != "" ==> forall k :: 0 <= k < n ==> candidates[k].activeId != orderId
  {
    if candidates == [] then 0
    else if orderId != "" && candidates[0].activeId == orderId then 0
    else 1 + IndexOf(candidates[1..], orderId)
  }

  predicate Awaits(cfg: Config, c: Candidate, add: Event) {
    !IsActive(c) && c.lostSince > 0 && Matches(cfg, c, add, c.lostSince)
  }

  /** The first lost candidate that the ADD may replace, or the number of candidates. */
  function AwaitingIndex(cfg: Config, candidates: seq<Candidate>, add: Event): (n: nat)
    ensures n <= |candidates|
    ensures n < |candidates| ==> Awaits(cfg, candidates[n], add)
    ensures forall k :: 0 <= k < n ==> !Awaits(cfg, candidates[k], add)
  {
    if candidates == [] then 0
    else if Awaits(cfg, candidates[0], add) then 0
    else 1 + AwaitingIndex(cfg, candidates[1..], add)
  }

  function Record(cfg: Config, prune: bool, cl: Cluster, records: seq<Activity>): Cluster {
    cl.(activity := RecordAll(cfg, prune, cl.activity, records))
  }

  function Put(cfg: Config, prune: bool, cl: Cluster, n: nat, change: Change): Cluster
    requires n < |cl.candidates|
  {
    Record(cfg, prune, cl.(candidates := cl.candidates[n := change.candidate]), change.records)
  }

  /** A CLEAR loses the first `n` candidates that were active. */
  function LoseActive(cfg: Config, prune: bool, adds: seq<Event>, cl: Cluster, e: Event, n: nat): (r: Cluster)
    requires n <= |cl.candidates|
    ensures |r.candidates| == |cl.candidates|
  {
    if n == 0 then cl
    else
      var before := LoseActive(cfg, prune, adds, cl, e, n - 1);
      if IsActive(before.candidates[n - 1]) then
        Put(cfg, prune, before, n - 1, MarkLost(cfg, adds, before.candidates[n - 1], e, Lost))
      else before
  }

  function ApplyAdd(cfg: Config, prune: bool, cl: Cluster, e: Event): Cluster {
    var logged := Record(cfg, prune, cl, [Activity(e.ts, AddActivity, e.size)]);
    var n := IndexOf(cl.candidates, e.orderId);
    var m := AwaitingIndex(cfg, cl.candidates, e);
    if n < |cl.candidates| then logged.(candidates := cl.candidates[n := Readd(cl.candidates[n], e)])
    else if m < |cl.candidates| then Put(cfg, prune, logged, m, Adopt(cl.candidates[m], e))
    else logged
  }

  function ApplyToCandidate(cfg: Config, adds: seq<Event>, c: Candidate, e: Event): Change {
    match e.action
    case Modify => ApplyModify(cfg, adds, c, e)
    case Fill => ApplyFill(cfg, adds, c, e)
    case Trade => ApplyFill(cfg, adds, c, e)
    case Cancel => ApplyCancel(cfg, adds, c, e)
    case _ => Change(c, [])
  }

  function ApplyEvent(cfg: Config, prune: bool, adds: seq<Event>, cl: Cluster, e: Event): Cluster {
    var seen := cl.(lastEvent := Max(cl.lastEvent, e.ts));
    if e.action == AddOrder then ApplyAdd(cfg, prune, seen, e)
    else if e.action == Clear then LoseActive(cfg, prune, adds, seen, e, |seen.candidates|)
    else
      var n := IndexOf(seen.candidates, e.orderId);
      if n < |seen.candidates| then Put(cfg, prune, seen, n, ApplyToCandidate(cfg, adds, seen.candidates[n], e))
      else seen
  }

  // ----- metrics and the exit decision -----

  function Total(cs: seq<Candidate>, f: Candidate -> nat): nat {
    if cs == [] then 0 else Total(cs[..|cs| - 1], f) + f(cs[|cs| - 1])
  }

  const InitialSize := (c: Candidate) => c.initialSize
  const ActiveSize := (c: Candidate) => if IsActive(c) then c.size else 0
  const CancelledContracts := (c: Candidate) => c.cancelled
  const FilledContracts := (c: Candidate) => c.filled
  const Baseline := (c: Candidate) => c.baseline

  function Contracts(log: seq<Activity>, kind: Kind): nat {
    if log == [] then 0
    else Contracts(log[..|log| - 1], kind) + if log[|log| - 1].kind == kind then log[|log| - 1].contracts else 0
  }

  /** Contracts of one kind per second over the recent window. */
  function Rate(cfg: Config, log: seq<Activity>, kind: Kind): real {
    Contracts(log, kind) as real / (cfg.recentWindow as real / 1000.0)
  }

  function Latest(cs: seq<Candidate>, f: Candidate -> int): int {
    if cs == [] then 0
    else if |cs| == 1 then f(cs[0])
    else Max(Latest(cs[..|cs| - 1], f), f(cs[|cs| - 1]))
  }

  const LastReplacement := (c: Candidate) => c.lastReplacement

  /** The first candidate of greatest importance. */
  function Dominant(cs: seq<Candidate>): Option<Candidate> {
    if cs == [] then None
    else
      var before := Dominant(cs[..|cs| - 1]);
      if before.None? || cs[|cs| - 1].importance > before.value.importance then Some(cs[|cs| - 1]) else before
  }

  function RefillDropped(cfg: Config, cs: seq<Candidate>, rate: real): bool {
    rate <= Max(1, Total(cs, Baseline)) as real / (cfg.recentWindow as real / 1000.0) * cfg.dropRatio
  }

  datatype Metrics = Metrics(
    initial: nat, active: nat, activeRatio: real, cancelled: nat, filled: nat,
    refillRate: real, cancelRate: real, addRate: real, dominantActive: bool, recentReplacement: bool, score: real)

  function Score(cfg: Config, activeRatio: real, gone: nat, initial: nat, dominantActive: bool, refillDropped: bool,
                 recentReplacement: bool): real {
    var low := if cfg.exitThreshold > 0.0 && activeRatio < cfg.exitThreshold
               then Clamp((cfg.exitThreshold - activeRatio) / cfg.exitThreshold) else 0.0;
    Clamp(0.35 * low + (if refillDropped then 0.20 else 0.0) + 0.20 * Clamp(Ratio(gone as real, initial as real))
          + (if dominantActive then 0.0 else 0.15) + if recentReplacement then 0.0 else 0.10)
  }

  /** The metrics read the entries inside the recent window only. */
  function MetricsOf(cfg: Config, cl: Cluster, now: int): Metrics {
    var cs, log := cl.candidates, Since(cl.activity, ActivityTs, now - cfg.recentWindow);
    var initial, active := Total(cs, InitialSize), Total(cs, ActiveSize);
    var cancelled, filled := Total(cs, CancelledContracts), Total(cs, FilledContracts);
    var ratio, refillRate := Ratio(active as real, initial as real), Rate(cfg, log, RefillActivity);
    var dominant, last := Dominant(cs), Latest(cs, LastReplacement);
    var dominantActive := dominant.Some? && IsActive(dominant.value);
    var recent := last > 0 && now - last <= cfg.timeGap;
    Metrics(initial, active, ratio, cancelled, filled, refillRate, Rate(cfg, log, CancelActivity),
            Rate(cfg, log, AddActivity),
            dominantActive, recent,
            Score(cfg, ratio, cancelled + filled, initial, dominantActive, RefillDropped(cfg, cs, refillRate), recent))
  }

  predicate Weak(c: Candidate) {
    c.status == Cancelled || c.status == Filled || c.status == Lost || (c.status == Reduced && c.size < c.initialSize)
  }

  predicate JustReplaced(cfg: Config, c: Candidate, now: int) {
    c.lastReplacement > 0 && now - c.lastReplacement <= cfg.confirmWindow
  }

  predicate ExitConditions(cfg: Config, cl: Cluster, now: int) {
    var m := MetricsOf(cfg, cl, now);
    && m.initial > 0 && m.activeRatio < cfg.exitThreshold && RefillDropped(cfg, cl.candidates, m.refillRate)
    && (exists c :: c in cl.candidates && Weak(c)) && (forall c :: c in cl.candidates ==> !JustReplaced(cfg, c, now))
    && m.score >= cfg.scoreThreshold
  }

  function SignalOf(cfg: Config, cl: Cluster, now: int): ExitSignal {
    var m, dominant := MetricsOf(cfg, cl, now), Dominant(cl.candidates);
    ExitSignal(cl.position, m.score, m.activeRatio, if dominant.Some? then Some(dominant.value.status) else None, now)
  }

  function Update(cfg: Config, prune: bool, cl: Cluster, now: int): Cluster {
    var cl := cl.(activity := Pruned(cfg, prune, cl.activity, now));
    if cl.exit.Some? then cl
    else if !ExitConditions(cfg, cl, now) then cl.(weakenedSince := 0)
    else if cl.weakenedSince <= 0 then cl.(weakenedSince := now)
    else if now - cl.weakenedSince < cfg.confirmWindow then cl
    else cl.(exit := Some(SignalOf(cfg, cl, now)))
  }

  // ----- the engine -----

  predicate InWindow(cl: Cluster, e: Event) { e.ts >= cl.start && (cl.end.Some? ==> e.ts <= cl.end.value) }

  predicate Concerns(cl: Cluster, e: Event) {
    && (e.symbol != "" && cl.symbols != {} ==> e.symbol in cl.symbols)
    && (e.instrument.Some? && (exists c :: c in cl.candidates && c.instrument.Some?) ==>
          exists c :: c in cl.candidates && c.instrument == e.instrument)
  }

  predicate Accepts(cl: Cluster, e: Event) { InWindow(cl, e) && Concerns(cl, e) }

  /** `order` are the tracked positions in the order they were first started. */
  datatype Engine = Engine(adds: seq<Event>, order: seq<string>, clusters: map<string, Cluster>)

  const Empty := Engine([], [], map[])

  function OnCluster(cfg: Config, prune: bool, g: Engine, position: string, e: Event): Engine {
    if position !in g.clusters || !Accepts(g.clusters[position], e) then g
    else
      var adds := if e.action == AddOrder then Remember(cfg, prune, g.adds, e) else g.adds;
      var cl := ApplyEvent(cfg, prune, adds, g.clusters[position], e);
      g.(adds := adds, clusters := g.clusters[position := Update(cfg, prune, cl, e.ts)])
  }

  function OnClusters(cfg: Config, prune: bool, g: Engine, positions: seq<string>, e: Event): Engine {
    if positions == [] then g
    else
      var n := |positions| - 1;
      OnCluster(cfg, prune, OnClusters(cfg, prune, g, positions[..n], e), positions[n], e)
  }

  function SignalsOf(g: Engine, after: Engine, positions: seq<string>, e: Event): seq<ExitSignal> {
    if positions == [] then []
    else
      var p := positions[|positions| - 1];
      SignalsOf(g, after, positions[..|positions| - 1], e)
      + if p in g.clusters && p in after.clusters && Accepts(g.clusters[p], e) && after.clusters[p].exit.Some?
        then [after.clusters[p].exit.value] else []
  }

  /** What tracking is started with. */
  datatype Request = Request(position: string, symbols: set<string>, start: int, end: Option<int>, orders: seq<Order>)

  datatype Input = Start(request: Request) | Stop(position: string) | Raw(event: Event)

  function Without(order: seq<string>, position: string): seq<string> {
    if order == [] then []
    else (if order[0] == position then [] else [order[0]]) + Without(order[1..], position)
  }

  /** An order as a candidate at the start: nothing counted yet, lost if it shows nothing. */
  function Begun(s: Scored): Candidate {
    var o := s.order;
    Candidate(o.orderId, o.instrument, o.side, o.price, o.initialSize, o.currentSize,
              if o.refillContracts >= o.refillCount then o.refillContracts else o.refillCount, s.importance,
              if o.currentSize > 0 then Active else Lost, 0, 0, 0, 0, 0, 0,
              if o.currentSize > 0 then 0 else o.lastSeen, o.lastSeen)
  }

  function AllBegun(ss: seq<Scored>): (r: seq<Candidate>)
    ensures |r| == |ss| && forall k :: 0 <= k < |r| ==> r[k] == Begun(ss[k])
  {
    seq(|ss|, k requires 0 <= k < |ss| => Begun(ss[k]))
  }

  /** A cluster as it is when tracking starts: the most important orders, none weakened. */
  function Started(cfg: Config, q: Request): Cluster {
    Cluster(q.position, q.symbols, q.start, q.end, AllBegun(Tracked(cfg.weights, q.orders, cfg.maxCandidates)),
            q.start, 0, None, [])
  }

  function Step(cfg: Config, prune: bool, g: Engine, i: Input): Engine {
    match i
    case Start(q) =>
      g.(order := if q.position in g.clusters then g.order else g.order + [q.position],
         clusters := g.clusters[q.position := Started(cfg, q)])
    case Stop(p) => g.(order := Without(g.order, p), clusters := g.clusters - {p})
    case Raw(e) => OnClusters(cfg, prune, g, g.order, e)
  }

  function Signals(cfg: Config, prune: bool, g: Engine, i: Input): seq<ExitSignal> {
    if i.Raw? then SignalsOf(g, Step(cfg, prune, g, i), g.order, i.event) else []
  }

  function Run(cfg: Config, prune: bool, inputs: seq<Input>): Engine {
    if inputs == [] then Empty
    else Step(cfg, prune, Run(cfg, prune, inputs[..|inputs| - 1]), inputs[|inputs| - 1])
  }
}
