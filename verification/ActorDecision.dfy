/** When a cluster counts as weak, in raw terms: contracts, logged refills, states and times of the candidates.
    Rates, ratios and the score of the tracker are shown to say just that. */
module ActorDecision {
  import opened Wrappers
  import opened ActorModel

  // ----- contracts -----

  function InitialContracts(cs: seq<Candidate>): nat {
    if cs == [] then 0 else cs[0].initialSize + InitialContracts(cs[1..])
  }

  /** The contracts shown by candidates that are active, reduced or replaced. */
  function ActiveContracts(cs: seq<Candidate>): nat {
    if cs == [] then 0
    else (if cs[0].status in {Active, Reduced, Replaced} then cs[0].size else 0) + ActiveContracts(cs[1..])
  }

  function GoneContracts(cs: seq<Candidate>): nat {
    if cs == [] then 0 else cs[0].cancelled + cs[0].filled + GoneContracts(cs[1..])
  }

  function BaselineRefills(cs: seq<Candidate>): nat {
    if cs == [] then 0 else cs[0].baseline + BaselineRefills(cs[1..])
  }

  /** The refilled contracts logged at `from` or later. */
  function RefilledSince(log: seq<Activity>, from: int): nat {
    if log == [] then 0
   
        else
      (if log[0].kind == RefillActivity && log[0].ts >= from then log[0].contracts else 0)
      + RefilledSince(log[1..], from)
  }

  // ----- the conditions -----

  /** The activity of refills has dropped off. */
  predicate RefillsDried(cfg: Config, cl: Cluster, now: int) {
    RefilledSince(cl.activity, now - cfg.recentWindow) as real
      <= cfg.dropRatio * Max(1, BaselineRefills(cl.candidates)) as real
  }

  predicate ContractsLow(cfg: Config, cs: seq<Candidate>) {
    ActiveContracts(cs) as real < cfg.exitThreshold * InitialContracts(cs) as real
  }

  ghost predicate ReplacedWithin(cs: seq<Candidate>, now: int, span: int) {
    exists i :: 0 <= i < |cs| && cs[i].lastReplacement > 0 && cs[i].lastReplacement >= now - span
  }

  /** `d` is the first candidate of greatest importance. */
  predicate FirstAmong(cs: seq<Candidate>, d: nat) {
    && d < |cs| && (forall i :: 0 <= i < |cs| ==> cs[i].importance <= cs[d].importance)
    && (forall i :: 0 <= i < d ==> cs[i].importance < cs[d].importance)
  }

  ghost predicate DominantLives(cs: seq<Candidate>) {
    exists d: nat :: FirstAmong(cs, d) && cs[d].status in {Active, Reduced, Replaced} && cs[d].size > 0
  }

  /** The share of contracts missing below the threshold. */
  function Missing(t: real, active: real, initial: real): real {
    if 0.0 <= active < t * initial then 1.0 - active / (t * initial) else 0.0
  }

  function GoneShare(gone: real, initial: real): real {
    if initial == 0.0 then 0.0 else if gone >= initial then 1.0 else gone / initial
  }

  /** How much speaks for an exit, from 0 to 1: 0.35 for missing contracts, 0.20 each for dried refills and for
      contracts cancelled or filled, 0.15 for a lost dominant candidate, 0.10 for no recent replacement. */
  ghost function Evidence(cfg: Config, cl: Cluster, now: int): real {
    var cs := cl.candidates;
    Weighed(Missing(cfg.exitThreshold, ActiveContracts(cs) as real, InitialContracts(cs) as real),
            GoneShare(GoneContracts(cs) as real, InitialContracts(cs) as real),
            RefillsDried(cfg, cl, now), DominantLives(cs), ReplacedWithin(cs, now, cfg.timeGap))
  }

  function Weighed(missing: real, gone: real, dried: bool, lives: bool, replaced: bool): real {
    0.35 * missing + 0.20 * gone + (if dried then 0.20 else 0.0) + (if lives then 0.0 else 0.15)
    + (if replaced then 0.0 else 0.10)
  }

  /** An exit is due: contracts are missing, refills have dried up, some candidate is gone or reduced, none was
      just replaced, and the evidence suffices. */
  ghost predicate ExitDue(cfg: Config, cl: Cluster, now: int) {
    && InitialContracts(cl.candidates) > 0
    && ContractsLow(cfg, cl.candidates) && RefillsDried(cfg, cl, now)
    && (exists i :: 0 <= i < |cl.candidates| && GoneOrReduced(cl.candidates[i]))
    && !ReplacedWithin(cl.candidates, now, cfg.confirmWindow)
    && Evidence(cfg, cl, now) >= cfg.scoreThreshold
  }

  predicate GoneOrReduced(c: Candidate) {
    c.status in {Cancelled, Filled, Lost} || (c.status == Reduced && c.size < c.initialSize)
  }

  // ----- the sums -----

  lemma {:induction false} TotalFront(cs: seq<Candidate>, f: Candidate -> nat)
    requires cs != []
    ensures Total(cs, f) == f(cs[0]) + Total(cs[1..], f)
  {
    if |cs| > 1 {
      TotalFront(cs[..|cs| - 1], f);
      assert cs[..|cs| - 1][1..] == cs[1..][..|cs| - 2];
    } else {
      assert cs[..0] == [] && cs[1..] == [];
    }
  }

  lemma {:induction false} Totals(cs: seq<Candidate>)
    ensures Total(cs, InitialSize) == InitialContracts(cs) && Total(cs, ActiveSize) == ActiveContracts(cs)
    ensures Total(cs, Baseline) == BaselineRefills(cs)
    ensures Total(cs, CancelledContracts) + Total(cs, FilledContracts) == GoneContracts(cs)
  {
    if cs != [] {
      Totals(cs[1..]);
      TotalFront(cs, InitialSize);
      TotalFront(cs, ActiveSize);
      TotalFront(cs, Baseline);
      TotalFront(cs, CancelledContracts);
      TotalFront(cs, FilledContracts);
    }
  }

  lemma {:induction false} RefilledFront(log: seq<Activity>, from: int)
    requires log != []
    ensures var last := log[|log| - 1];
            RefilledSince(log, from) == RefilledSince(log[..|log| - 1], from)
                                        + if last.kind == RefillActivity && last.ts >= from then last.contracts else 0
  {
    if |log| > 1 {
      RefilledFront(log[1..], from);
      assert log[1..][..|log| - 2] == log[..|log| - 1][1..];
    } else {
      assert log[..0] == [] && log[1..] == [];
    }
  }

  lemma {:induction false} RefillsLogged(log: seq<Activity>, from: int)
    ensures Contracts(Since(log, ActivityTs, from), RefillActivity) == RefilledSince(log, from)
  {
    if log != [] {
      var front, last := log[..|log| - 1], log[|log| - 1];
      RefillsLogged(front, from);
      RefilledFront(log, from);
      SinceLast(log, from);
      ContractsLast(Since(front, ActivityTs, from), last, RefillActivity);
    }
  }

  lemma SinceLast(log: seq<Activity>, from: int)
    requires log != []
    ensures var front, last := log[..|log| - 1], log[|log| - 1];
            Since(log, ActivityTs, from)
            == if last.ts >= from then Since(front, ActivityTs, from) + [last] else Since(front, ActivityTs, from)
  {
    var kept := Since(log[..|log| - 1], ActivityTs, from);
    assert kept + [] == kept;
  }

  lemma ContractsLast(log: seq<Activity>, last: Activity, kind: Kind)
    ensures Contracts(log + [last], kind) == Contracts(log, kind) + if last.kind == kind then last.contracts else 0
  {
    assert (log + [last])[..|log|] == log;
  }

  // ----- times and dominance -----

  lemma {:induction false} LatestIsLargest(cs: seq<Candidate>)
    ensures forall i :: 0 <= i < |cs| ==> cs[i].lastReplacement <= Latest(cs, LastReplacement)
    ensures Latest(cs, LastReplacement) > 0 ==>
              exists i :: 0 <= i < |cs| && cs[i].lastReplacement == Latest(cs, LastReplacement)
  {
    if |cs| > 1 {
      LatestIsLargest(cs[..|cs| - 1]);
    }
  }

  lemma ReplacedIsLatest(cs: seq<Candidate>, now: int, span: int)
    ensures var last := Latest(cs, LastReplacement);
            last > 0 && now - last <= span <==> ReplacedWithin(cs, now, span)
  {
    LatestIsLargest(cs);
  }

  lemma {:induction false} DominantIsFirstAmong(cs: seq<Candidate>)
    ensures cs != [] ==> exists d: nat :: FirstAmong(cs, d) && Dominant(cs) == Some(cs[d])
  {
    if cs != [] {
      var front, n := cs[..|cs| - 1], |cs| - 1;
      DominantIsFirstAmong(front);
      if front == [] {
        assert FirstAmong(cs, 0) && Dominant(front) == None && Dominant(cs) == Some(cs[0]);
      } else {
        var d: nat :| FirstAmong(front, d) && Dominant(front) == Some(front[d]);
        assert front[d] == cs[d];
        var e := if cs[n].importance > cs[d].importance then n else d;
        assert FirstAmong(cs, e) && Dominant(cs) == Some(cs[e]);
      }
    }
  }

  lemma FirstAmongOne(cs: seq<Candidate>, a: nat, b: nat)
    requires FirstAmong(cs, a) && FirstAmong(cs, b)
    ensures a == b
  {
    assert cs[a].importance <= cs[b].importance && cs[b].importance <= cs[a].importance;
  }

  lemma DominantActive(cs: seq<Candidate>)
    ensures Dominant(cs).Some? && IsActive(Dominant(cs).value) <==> DominantLives(cs)
  {
    DominantIsFirstAmong(cs);
    if cs != [] {
      var d: nat :| FirstAmong(cs, d) && Dominant(cs) == Some(cs[d]);
      forall e: nat | FirstAmong(cs, e) ensures e == d {
        FirstAmongOne(cs, d, e);
      }
    }
  }

  // ----- rates and ratios -----

  lemma Cross(a: real, b: real, c: real)
    requires c > 0.0
    ensures a / c <= b / c <==> a <= b
    ensures a / c < b <==> a < b * c
  {
    assert a == a / c * c && b == b / c * c;
  }

  /** What the metrics read, in raw terms. */
  lemma MetricsMean(cfg: Config, cl: Cluster, now: int)
    ensures var m, cs := MetricsOf(cfg, cl, now), cl.candidates;
            && m.initial == InitialContracts(cs) && m.cancelled + m.filled == GoneContracts(cs)
            && m.refillRate == PerSecond(RefilledSince(cl.activity, now - cfg.recentWindow) as real, cfg.recentWindow)
            && (m.dominantActive <==> DominantLives(cs))
            && (m.recentReplacement <==> ReplacedWithin(cs, now, cfg.timeGap))
  {
    Totals(cl.candidates);
    RefillsLogged(cl.activity, now - cfg.recentWindow);
    DominantActive(cl.candidates);
    ReplacedIsLatest(cl.candidates, now, cfg.timeGap);
  }

  lemma ScoreRead(cfg: Config, cl: Cluster, now: int)
    ensures var m, cs := MetricsOf(cfg, cl, now), cl.candidates;
            m.score == Score(cfg, ShareActive(cs), m.cancelled + m.filled, m.initial, m.dominantActive,
                             RefillDropped(cfg, cs, m.refillRate), m.recentReplacement)
  {
    RatioRead(cfg, cl, now);
  }

  /** The rate test is a test on contracts. */
  lemma RefillsDriedIs(cfg: Config, cl: Cluster, now: int, rate: real)
    requires rate == PerSecond(RefilledSince(cl.activity, now - cfg.recentWindow) as real, cfg.recentWindow)
    ensures RefillDropped(cfg, cl.candidates, rate) <==> RefillsDried(cfg, cl, now)
  {
    var base := Max(1, BaselineRefills(cl.candidates)) as real;
    RateTest(RefilledSince(cl.activity, now - cfg.recentWindow) as real, base, cfg.recentWindow, cfg.dropRatio);
    DropRead(cfg, cl.candidates, rate, base);
    DriedRead(cfg, cl, now, base);
  }

  function PerSecond(contracts: real, ms: int): real
    requires ms > 0
  {
    contracts / (ms as real / 1000.0)
  }

  predicate AtMostShare(x: real, y: real, share: real) { x <= y * share }

  lemma DropRead(cfg: Config, cs: seq<Candidate>, rate: real, base: real)
    requires base == Max(1, BaselineRefills(cs)) as real
    ensures RefillDropped(cfg, cs, rate) <==> AtMostShare(rate, PerSecond(base, cfg.recentWindow), cfg.dropRatio)
  {
    Totals(cs);
  }

  lemma DriedRead(cfg: Config, cl: Cluster, now: int, base: real)
    requires base == Max(1, BaselineRefills(cl.candidates)) as real
    ensures RefillsDried(cfg, cl, now)
       <==> AtMostShare(RefilledSince(cl.activity, now - cfg.recentWindow) as real, base, cfg.dropRatio)
  {
  }

  lemma RateTest(refilled: real, base: real, ms: int, drop: real)
    requires ms > 0
    ensures AtMostShare(PerSecond(refilled, ms), PerSecond(base, ms), drop) <==> AtMostShare(refilled, base, drop)
  {
    QuotientTest(refilled, base, ms as real / 1000.0, drop);
  }

  lemma QuotientTest(refilled: real, base: real, seconds: real, drop: real)
    requires seconds > 0.0
    ensures refilled / seconds <= base / seconds * drop <==> refilled <= drop * base
  {
    Cross(refilled, base * drop, seconds);
    Scaled(base, seconds, drop);
  }

  lemma Scaled(a: real, b: real, c: real)
    requires b > 0.0
    ensures a / b * c == a * c / b
  {
    assert a == a / b * b;
    assert a * c == a / b * c * b;
  }

  function ShareActive(cs: seq<Candidate>): real {
    Ratio(ActiveContracts(cs) as real, InitialContracts(cs) as real)
  }

  lemma RatioLow(cfg: Config, cs: seq<Candidate>)
    requires InitialContracts(cs) > 0
    ensures ShareActive(cs) < cfg.exitThreshold <==> ContractsLow(cfg, cs)
    ensures ShareActive(cs) * InitialContracts(cs) as real == ActiveContracts(cs) as real
  {
    RatioTest(ActiveContracts(cs) as real, InitialContracts(cs) as real, cfg.exitThreshold);
  }

  lemma RatioTest(a: real, b: real, t: real)
    requires b > 0.0
    ensures Ratio(a, b) < t <==> a < t * b
    ensures Ratio(a, b) * b == a
  {
    Cross(a, t, b);
  }

  // ----- the score -----

  /** What the score says of a share of missing contracts. */
  lemma MissingShare(active: real, initial: real, t: real)
    requires active >= 0.0 && initial > 0.0 && 0.0 <= t <= 1.0
    ensures var low := if t > 0.0 && active / initial < t then Clamp((t - active / initial) / t) else 0.0;
            low == if active < t * initial then 1.0 - active / (t * initial) else 0.0
  {
    Cross(active, t, initial);
    if active < t * initial {
      Shares(active, initial, t);
    }
  }

  lemma Shares(active: real, initial: real, t: real)
    requires active >= 0.0 && initial > 0.0 && t > 0.0 && active < t * initial
    ensures (t - active / initial) / t == 1.0 - active / (t * initial)
    ensures 0.0 <= active / (t * initial) <= 1.0
  {
    var q := active / initial;
    assert active == q * initial;
    var r := q / t;
    assert q == r * t;
    assert active == r * (t * initial);
    Cross(active, 1.0, t * initial);
    assert (t - q) / t == 1.0 - r;
  }

  lemma GoneIsShare(gone: nat, initial: nat)
    ensures Clamp(Ratio(gone as real, initial as real)) == GoneShare(gone as real, initial as real)
    ensures 0.0 <= GoneShare(gone as real, initial as real) <= 1.0
  {
    if initial > 0 {
      Cross(gone as real, 1.0, initial as real);
      Cross(0.0, gone as real / initial as real, 1.0);
    }
  }

  lemma MissingIsShare(t: real, active: nat, initial: nat)
    requires initial > 0 && 0.0 <= t <= 1.0
    ensures var ratio := Ratio(active as real, initial as real);
            (if t > 0.0 && ratio < t then Clamp((t - ratio) / t)
             else 0.0) == Missing(t, active as real, initial as real)
    ensures 0.0 <= Missing(t, active as real, initial as real) <= 1.0
  {
    MissingShare(active as real, initial as real, t);
    if active as real < t * initial as real {
      Product(t, initial as real);
      Shares(active as real, initial as real, t);
    }
  }

  lemma ClampIdle(missing: real, gone: real, dried: bool, lives: bool, replaced: bool)
    requires 0.0 <= missing <= 1.0 && 0.0 <= gone <= 1.0
    ensures 0.0 <= Weighed(missing, gone, dried, lives, replaced) <= 1.0
  {
  }

  lemma ScoreWeighs(cfg: Config, active: nat, gone: nat, initial: nat, lives: bool, dried: bool, replaced: bool)
    requires initial > 0
    ensures var missing := Missing(cfg.exitThreshold, active as real, initial as real);
            var taken := GoneShare(gone as real, initial as real);
            && Score(cfg, Ratio(active as real, initial as real), gone, initial, lives, dried, replaced)
               == Weighed(missing, taken, dried, lives, replaced)
            && 0.0 <= Weighed(missing, taken, dried, lives, replaced) <= 1.0
  {
    MissingIsShare(cfg.exitThreshold, active, initial);
    GoneIsShare(gone, initial);
    ClampIdle(Missing(cfg.exitThreshold, active as real, initial as real), GoneShare(gone as real, initial as real),
              dried, lives, replaced);
  }

  /** The score is the evidence. */
  lemma ScoreIsEvidence(cfg: Config, cl: Cluster, now: int)
    requires InitialContracts(cl.candidates) > 0
    ensures MetricsOf(cfg, cl, now).score == Evidence(cfg, cl, now) && 0.0 <= Evidence(cfg, cl, now) <= 1.0
  {
    var cs := cl.candidates;
    MetricsMean(cfg, cl, now);
    ScoreRead(cfg, cl, now);
    RefillsDriedIs(cfg, cl, now, MetricsOf(cfg, cl, now).refillRate);
    ScoreWeighs(cfg, ActiveContracts(cs), GoneContracts(cs), InitialContracts(cs), DominantLives(cs),
                RefillsDried(cfg, cl, now), ReplacedWithin(cs, now, cfg.timeGap));
  }

  lemma Product(t: real, n: real)
    requires 0.0 <= t && n > 0.0 && 0.0 < t * n
    ensures t > 0.0
  {
  }

  /** Main result: the exit conditions of the tracker say exactly that an exit is due. */
  lemma ExitConditionsMean(cfg: Config, cl: Cluster, now: int)
    ensures ExitConditions(cfg, cl, now) <==> ExitDue(cfg, cl, now)
  {
    ConditionsRead(cfg, cl, now, MetricsOf(cfg, cl, now));
    if InitialContracts(cl.candidates) > 0 {
      NumbersMean(cfg, cl, now);
      ScoreIsEvidence(cfg, cl, now);
      SomeWeak(cl.candidates);
      NoneReplaced(cfg, cl.candidates, now);
    }
  }

  lemma NumbersMean(cfg: Config, cl: Cluster, now: int)
    requires InitialContracts(cl.candidates) > 0
    ensures ContractsLow(cfg, cl.candidates) <==> MetricsOf(cfg, cl, now).activeRatio < cfg.exitThreshold
    ensures RefillsDried(cfg, cl, now) <==> RefillDropped(cfg, cl.candidates, MetricsOf(cfg, cl, now).refillRate)
  {
    LowIs(cfg, cl, now, MetricsOf(cfg, cl, now));
    DriedIs(cfg, cl, now, MetricsOf(cfg, cl, now));
  }

  lemma LowIs(cfg: Config, cl: Cluster, now: int, m: Metrics)
    requires InitialContracts(cl.candidates) > 0 && m == MetricsOf(cfg, cl, now)
    ensures ContractsLow(cfg, cl.candidates) <==> m.activeRatio < cfg.exitThreshold
  {
    RatioRead(cfg, cl, now);
    RatioLow(cfg, cl.candidates);
  }

  lemma RatioRead(cfg: Config, cl: Cluster, now: int)
    ensures MetricsOf(cfg, cl, now).activeRatio == ShareActive(cl.candidates)
  {
    Totals(cl.candidates);
  }

  lemma DriedIs(cfg: Config, cl: Cluster, now: int, m: Metrics)
    requires m == MetricsOf(cfg, cl, now)
    ensures RefillsDried(cfg, cl, now) <==> RefillDropped(cfg, cl.candidates, m.refillRate)
  {
    MetricsMean(cfg, cl, now);
    RefillsDriedIs(cfg, cl, now, m.refillRate);
  }

  lemma ConditionsRead(cfg: Config, cl: Cluster, now: int, m: Metrics)
    requires m == MetricsOf(cfg, cl, now)
    ensures ExitConditions(cfg, cl, now) <==>
              && InitialContracts(cl.candidates) > 0 && m.activeRatio < cfg.exitThreshold
              && RefillDropped(cfg, cl.candidates, m.refillRate) && m.score >= cfg.scoreThreshold
              && (exists c :: c in cl.candidates && Weak(c))
              && (forall c :: c in cl.candidates ==> !JustReplaced(cfg, c, now))
  {
    Totals(cl.candidates);
  }

  lemma SomeWeak(cs: seq<Candidate>)
    ensures (exists c :: c in cs && Weak(c)) <==> (exists i :: 0 <= i < |cs| && GoneOrReduced(cs[i]))
  {
    if c :| c in cs && Weak(c) {
      var i :| 0 <= i < |cs| && cs[i] == c;
      assert GoneOrReduced(cs[i]);
    }
    if i :| 0 <= i < |cs| && GoneOrReduced(cs[i]) {
      assert cs[i] in cs && Weak(cs[i]);
    }
  }

  lemma NoneReplaced(cfg: Config, cs: seq<Candidate>, now: int)
    ensures (forall c :: c in cs ==> !JustReplaced(cfg, c, now)) <==> !ReplacedWithin(cs, now, cfg.confirmWindow)
  {
    if i :| 0 <= i < |cs| && cs[i].lastReplacement > 0 && cs[i].lastReplacement >= now - cfg.confirmWindow {
      assert cs[i] in cs && JustReplaced(cfg, cs[i], now);
    }
  }

  /** The signal carries the evidence, the share of contracts still active and the dominant candidate's state. */
  lemma SignalMeans(cfg: Config, cl: Cluster, now: int)
    requires InitialContracts(cl.candidates) > 0
    ensures var e := SignalOf(cfg, cl, now);
            && e.position == cl.position && e.ts == now && e.score == Evidence(cfg, cl, now)
            && e.activeRatio == ShareActive(cl.candidates)
  {
    RatioRead(cfg, cl, now);
    ScoreIsEvidence(cfg, cl, now);
  }

  lemma SignalDominant(cfg: Config, cl: Cluster, now: int)
    requires cl.candidates != []
    ensures exists d: nat :: FirstAmong(cl.candidates, d)
                             && SignalOf(cfg, cl, now).dominant == Some(cl.candidates[d].status)
  {
    DominantIsFirstAmong(cl.candidates);
  }

  // ----- which events count -----

  /** Main result: an event counts for a cluster exactly if it falls into its tracking window, its symbol is
      unknown or one of the cluster's, and its instrument is unknown or one of the candidates' known ones. */
  lemma AcceptsMeans(cl: Cluster, e: Event)
    ensures Accepts(cl, e) <==>
              && cl.start <= e.ts && (cl.end == None || e.ts <= cl.end.value)
              && (e.symbol == "" || cl.symbols == {} || e.symbol in cl.symbols)
              && (e.instrument == None || (forall i :: 0 <= i < |cl.candidates| ==> cl.candidates[i].instrument == None)
                  || exists i :: 0 <= i < |cl.candidates| && cl.candidates[i].instrument == e.instrument)
  {
    var cs := cl.candidates;
    assert (exists c :: c in cs && c.instrument.Some?) <==> !(forall i :: 0 <= i < |cs| ==> cs[i].instrument == None);
    assert (exists c :: c in cs && c.instrument == e.instrument)
      <==> exists i :: 0 <= i < |cs| && cs[i].instrument == e.instrument;
  }
}
