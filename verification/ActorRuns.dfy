/** Properties of the actor-proxy tracker over whole runs: pruning loses nothing, and an exit is
    signalled exactly when the exit conditions have held long enough. */
module ActorRuns {
  import opened Wrappers
  import opened ActorModel

  // ----- the part of a log after a cutoff -----

  lemma {:induction false} SinceAppend<T>(a: seq<T>, b: seq<T>, ts: T -> int, cutoff: int)
    ensures Since(a + b, ts, cutoff) == Since(a, ts, cutoff) + Since(b, ts, cutoff)
  {
    if b == [] {
      assert a + b == a;
    } else {
      SinceAppend(a, b[..|b| - 1], ts, cutoff);
      assert (a + b)[..|a + b| - 1] == a + b[..|b| - 1];
    }
  }

  lemma {:induction false} SinceTwice<T>(log: seq<T>, ts: T -> int, early: int, late: int)
    requires early <= late
    ensures Since(Since(log, ts, early), ts, late) == Since(log, ts, late)
  {
    if log != [] {
      var front, x := log[..|log| - 1], log[|log| - 1];
      var kept := Since(front, ts, early);
      SinceTwice(front, ts, early, late);
      if ts(x) >= early {
        assert Since(log, ts, early) == kept + [x] && (kept + [x])[..|kept|] == kept;
      } else {
        assert Since(log, ts, early) == kept;
      }
    }
  }

  /** Two logs with the same entries from the cutoff on. */
  ghost predicate Agree<T>(p: seq<T>, f: seq<T>, ts: T -> int, cutoff: int) {
    Since(p, ts, cutoff) == Since(f, ts, cutoff)
  }

  lemma AgreeLater<T>(p: seq<T>, f: seq<T>, ts: T -> int, early: int, late: int)
    requires Agree(p, f, ts, early) && early <= late
    ensures Agree(p, f, ts, late)
  {
    SinceTwice(p, ts, early, late);
    SinceTwice(f, ts, early, late);
  }

  lemma AgreePruned<T>(p: seq<T>, f: seq<T>, ts: T -> int, early: int, late: int)
    requires Agree(p, f, ts, late) && early <= late
    ensures Agree(Since(p, ts, early), f, ts, late)
  {
    SinceTwice(p, ts, early, late);
  }

  lemma AgreeAppend<T>(p: seq<T>, f: seq<T>, x: seq<T>, ts: T -> int, cutoff: int)
    requires Agree(p, f, ts, cutoff)
    ensures Agree(p + x, f + x, ts, cutoff)
  {
    SinceAppend(p, x, ts, cutoff);
    SinceAppend(f, x, ts, cutoff);
  }

  lemma {:induction false} AgreeRecords(cfg: Config, p: seq<Activity>, f: seq<Activity>, records: seq<Activity>,
                                        now: int)
    requires Agree(p, f, ActivityTs, now - cfg.recentWindow) && forall r :: r in records ==> r.ts <= now
    ensures Agree(RecordAll(cfg, true, p, records), RecordAll(cfg, false, f, records), ActivityTs,
                  now - cfg.recentWindow)
  {
    if records != [] {
      var front, last := records[..|records| - 1], records[|records| - 1];
      AgreeRecords(cfg, p, f, front, now);
      var p', f' := RecordAll(cfg, true, p, front), RecordAll(cfg, false, f, front);
      AgreeAppend(p', f', [last], ActivityTs, now - cfg.recentWindow);
      AgreePruned(p' + [last], f' + [last], ActivityTs, last.ts - cfg.recentWindow, now - cfg.recentWindow);
    }
  }

  // ----- a replacement is never older than the gap -----

  lemma {:induction false} ReplacementIsRecent(cfg: Config, adds: seq<Event>, c: Candidate, lostAt: int)
    ensures Replacement(cfg, adds, c, lostAt) == Replacement(cfg, Since(adds, EventTs, lostAt - cfg.timeGap), c, lostAt)
  {
    if adds != [] {
      var front, last := adds[..|adds| - 1], adds[|adds| - 1];
      ReplacementIsRecent(cfg, front, c, lostAt);
      var kept := Since(front, EventTs, lostAt - cfg.timeGap);
      if last.ts >= lostAt - cfg.timeGap {
        assert (kept + [last])[..|kept|] == kept;
      } else {
        assert kept + [] == kept;
      }
    }
  }

  ghost predicate AddsAgree(cfg: Config, p: seq<Event>, f: seq<Event>, now: int) {
    Agree(p, f, EventTs, now - cfg.timeGap) && forall a :: a in p ==> a.ts <= now
  }

  lemma SameReplacement(cfg: Config, p: seq<Event>, f: seq<Event>, c: Candidate, now: int)
    requires AddsAgree(cfg, p, f, now)
    ensures Replacement(cfg, p, c, now) == Replacement(cfg, f, c, now)
  {
    var cutoff := now - cfg.timeGap;
    assert Since(p, EventTs, cutoff) == Since(f, EventTs, cutoff);
    ReplacementIsRecent(cfg, p, c, now);
    ReplacementIsRecent(cfg, f, c, now);
  }

  lemma {:induction false} SinceKeepsBound(log: seq<Event>, cutoff: int, now: int)
    requires forall a :: a in log ==> a.ts <= now
    ensures forall a :: a in Since(log, EventTs, cutoff) ==> a.ts <= now
  {
    if log != [] {
      SinceKeepsBound(log[..|log| - 1], cutoff, now);
    }
  }

  lemma RememberAgrees(cfg: Config, p: seq<Event>, f: seq<Event>, e: Event)
    requires AddsAgree(cfg, p, f, e.ts)
    ensures AddsAgree(cfg, Remember(cfg, true, p, e), Remember(cfg, false, f, e), e.ts)
  {
    var p', f' := Remember(cfg, true, p, e), Remember(cfg, false, f, e);
    LastLogAgrees(p, f, e, e.ts - cfg.timeGap);
    SinceKeepsBound(p + [e], e.ts - cfg.timeGap, e.ts);
    assert forall a :: a in p' ==> a.ts <= e.ts;
    assert Agree(p', f', EventTs, e.ts - cfg.timeGap);
  }

  lemma LastLogAgrees(p: seq<Event>, f: seq<Event>, e: Event, cutoff: int)
    requires Agree(p, f, EventTs, cutoff)
    ensures Agree(Since(p + [e], EventTs, cutoff), f + [e], EventTs, cutoff)
  {
    AgreeAppend(p, f, [e], EventTs, cutoff);
    AgreePruned(p + [e], f + [e], EventTs, cutoff, cutoff);
  }

  // ----- one event -----

  /** The same cluster but for activity that is older than the recent window. */
  ghost predicate SameCluster(cfg: Config, p: Cluster, f: Cluster, now: int) {
    p.(activity := []) == f.(activity := []) && Agree(p.activity, f.activity, ActivityTs, now - cfg.recentWindow)
  }

  lemma SameChange(cfg: Config, p: seq<Event>, f: seq<Event>, c: Candidate, e: Event)
    requires AddsAgree(cfg, p, f, e.ts)
    ensures ApplyToCandidate(cfg, p, c, e) == ApplyToCandidate(cfg, f, c, e)
    ensures MarkLost(cfg, p, c, e, Lost) == MarkLost(cfg, f, c, e, Lost)
    ensures forall r :: r in ApplyToCandidate(cfg, p, c, e).records || r in MarkLost(cfg, p, c, e, Lost).records ==>
        r.ts <= e.ts
  {
    forall x: Candidate, s: Status
      ensures MarkLost(cfg, p, x, e, s) == MarkLost(cfg, f, x, e, s)
      ensures forall r :: r in MarkLost(cfg, p, x, e, s).records ==> r.ts <= e.ts
    {
      var lost := x.(status := s, size := 0, lostSince := e.ts);
      SameReplacement(cfg, p, f, lost, e.ts);
      var add := Replacement(cfg, p, lost, e.ts);
      assert add.Some? ==> add.value in p;
    }
  }

  lemma {:induction false} SamePut(cfg: Config, p: Cluster, f: Cluster, n: nat, change: Change, now: int)
    requires SameCluster(cfg, p, f, now) && n < |p.candidates| && forall r :: r in change.records ==> r.ts <= now
    ensures SameCluster(cfg, Put(cfg, true, p, n, change), Put(cfg, false, f, n, change), now)
  {
    AgreeRecords(cfg, p.activity, f.activity, change.records, now);
  }

  lemma {:induction false} SameLoss(cfg: Config, ap: seq<Event>, af: seq<Event>, p: Cluster, f: Cluster, e: Event,
                                    n: nat)
    requires AddsAgree(cfg, ap, af, e.ts) && SameCluster(cfg, p, f, e.ts) && n <= |p.candidates|
    ensures SameCluster(cfg, LoseActive(cfg, true, ap, p, e, n), LoseActive(cfg, false, af, f, e, n), e.ts)
  {
    if n > 0 {
      SameLoss(cfg, ap, af, p, f, e, n - 1);
      var p', f' := LoseActive(cfg, true, ap, p, e, n - 1), LoseActive(cfg, false, af, f, e, n - 1);
      var c := p'.candidates[n - 1];
      SameChange(cfg, ap, af, c, e);
      if IsActive(c) {
        SamePut(cfg, p', f', n - 1, MarkLost(cfg, ap, c, e, Lost), e.ts);
      }
    }
  }

  lemma {:induction false} SameAdd(cfg: Config, p: Cluster, f: Cluster, e: Event)
    requires SameCluster(cfg, p, f, e.ts)
    ensures SameCluster(cfg, ApplyAdd(cfg, true, p, e), ApplyAdd(cfg, false, f, e), e.ts)
  {
    var records := [Activity(e.ts, AddActivity, e.size)];
    var p1, f1 := Record(cfg, true, p, records), Record(cfg, false, f, records);
    AgreeRecords(cfg, p.activity, f.activity, records, e.ts);
    assert p.(activity := []).candidates == f.(activity := []).candidates;
    assert SameCluster(cfg, p1, f1, e.ts);
    var n, m := IndexOf(p.candidates, e.orderId), AwaitingIndex(cfg, p.candidates, e);
    if n < |p.candidates| {
      var again := p.candidates[n := Readd(p.candidates[n], e)];
      assert ApplyAdd(cfg, true, p, e) == p1.(candidates := again);
      assert ApplyAdd(cfg, false, f, e) == f1.(candidates := again);
    } else if m < |p.candidates| {
      SamePut(cfg, p1, f1, m, Adopt(p.candidates[m], e), e.ts);
    }
  }

  lemma {:induction false} SameApply(cfg: Config, ap: seq<Event>, af: seq<Event>, p: Cluster, f: Cluster, e: Event)
    requires AddsAgree(cfg, ap, af, e.ts) && SameCluster(cfg, p, f, e.ts)
    ensures SameCluster(cfg, ApplyEvent(cfg, true, ap, p, e), ApplyEvent(cfg, false, af, f, e), e.ts)
  {
    var p1, f1 := p.(lastEvent := Max(p.lastEvent, e.ts)), f.(lastEvent := Max(f.lastEvent, e.ts));
    assert p1.(activity := []) == f1.(activity := []);
    var n := IndexOf(p1.candidates, e.orderId);
    if e.action == AddOrder {
      SameAdd(cfg, p1, f1, e);
    } else if e.action == Clear {
      SameLoss(cfg, ap, af, p1, f1, e, |p1.candidates|);
    } else if n < |p1.candidates| {
      SameChange(cfg, ap, af, p1.candidates[n], e);
      SamePut(cfg, p1, f1, n, ApplyToCandidate(cfg, ap, p1.candidates[n], e), e.ts);
    }
  }

  lemma SameMetrics(cfg: Config, p: Cluster, f: Cluster, now: int)
    requires SameCluster(cfg, p, f, now)
    ensures MetricsOf(cfg, p, now) == MetricsOf(cfg, f, now)
    ensures ExitConditions(cfg, p, now) <==> ExitConditions(cfg, f, now)
  {
    assert p.candidates == p.(activity := []).candidates == f.candidates;
  }

  lemma SameUpdate(cfg: Config, p: Cluster, f: Cluster, now: int)
    requires SameCluster(cfg, p, f, now)
    ensures SameCluster(cfg, Update(cfg, true, p, now), Update(cfg, false, f, now), now)
  {
    AgreePruned(p.activity, f.activity, ActivityTs, now - cfg.recentWindow, now - cfg.recentWindow);
    SameMetrics(cfg, p.(activity := Pruned(cfg, true, p.activity, now)), f, now);
  }

  // ----- the whole engine -----

  ghost predicate SameEngine(cfg: Config, p: Engine, f: Engine, now: int) {
    && p.order == f.order && p.clusters.Keys == f.clusters.Keys && AddsAgree(cfg, p.adds, f.adds, now)
    && forall k :: k in p.clusters ==> SameCluster(cfg, p.clusters[k], f.clusters[k], now)
  }

  lemma {:induction false} SameOnClusters(cfg: Config, p: Engine, f: Engine, positions: seq<string>, e: Event)
    requires SameEngine(cfg, p, f, e.ts)
    ensures SameEngine(cfg, OnClusters(cfg, true, p, positions, e), OnClusters(cfg, false, f, positions, e), e.ts)
  {
    if positions != [] {
      var front, k := positions[..|positions| - 1], positions[|positions| - 1];
      SameOnClusters(cfg, p, f, front, e);
      var p1, f1 := OnClusters(cfg, true, p, front, e), OnClusters(cfg, false, f, front, e);
      SameOnCluster(cfg, p1, f1, k, e);
    }
  }

  lemma {:induction false} SameOnCluster(cfg: Config, p: Engine, f: Engine, k: string, e: Event)
    requires SameEngine(cfg, p, f, e.ts)
    ensures SameEngine(cfg, OnCluster(cfg, true, p, k, e), OnCluster(cfg, false, f, k, e), e.ts)
  {
    if k in p.clusters {
      var cp, cf := p.clusters[k], f.clusters[k];
      assert SameCluster(cfg, cp, cf, e.ts);
      SameAccepts(cp, cf, e);
      if Accepts(cp, e) {
        var ap := if e.action == AddOrder then Remember(cfg, true, p.adds, e) else p.adds;
        var af := if e.action == AddOrder then Remember(cfg, false, f.adds, e) else f.adds;
        RememberAgrees(cfg, p.adds, f.adds, e);
        var cp', cf' := ApplyEvent(cfg, true, ap, cp, e), ApplyEvent(cfg, false, af, cf, e);
        SameApply(cfg, ap, af, cp, cf, e);
        SameUpdate(cfg, cp', cf', e.ts);
        InstallSame(cfg, p, f, ap, af, k, Update(cfg, true, cp', e.ts), Update(cfg, false, cf', e.ts), e.ts);
      }
    }
  }

  lemma SameAccepts(p: Cluster, f: Cluster, e: Event)
    requires p.(activity := []) == f.(activity := [])
    ensures Accepts(p, e) == Accepts(f, e)
  {
    assert p.candidates == p.(activity := []).candidates == f.candidates;
    assert p.symbols == p.(activity := []).symbols == f.symbols;
  }

  lemma InstallSame(cfg: Config, p: Engine, f: Engine, ap: seq<Event>, af: seq<Event>, k: string, cp: Cluster,
                    cf: Cluster, now: int)
    requires SameEngine(cfg, p, f, now) && AddsAgree(cfg, ap, af, now) && SameCluster(cfg, cp, cf, now)
    ensures SameEngine(cfg, p.(adds := ap, clusters := p.clusters[k := cp]),
                       f.(adds := af, clusters := f.clusters[k := cf]), now)
  {
  }

  lemma SameLater(cfg: Config, p: Engine, f: Engine, early: int, late: int)
    requires SameEngine(cfg, p, f, early) && early <= late
    ensures SameEngine(cfg, p, f, late)
  {
    AgreeLater(p.adds, f.adds, EventTs, early - cfg.timeGap, late - cfg.timeGap);
    forall k | k in p.clusters ensures SameCluster(cfg, p.clusters[k], f.clusters[k], late) {
      AgreeLater(p.clusters[k].activity, f.clusters[k].activity, ActivityTs, early - cfg.recentWindow,
                 late - cfg.recentWindow);
    }
  }

  /** Event times never decrease. */
  ghost predicate Ordered(inputs: seq<Input>) {
    forall i, j :: 0 <= i < j < |inputs| && inputs[i].Raw? && inputs[j].Raw? ==>
        inputs[i].event.ts <= inputs[j].event.ts
  }

  ghost predicate NoLaterThan(inputs: seq<Input>, now: int) {
    forall i :: 0 <= i < |inputs| && inputs[i].Raw? ==> inputs[i].event.ts <= now
  }

  /** Main result: the tracker that drops old log entries and the one that keeps every entry stay in
      the same state: same candidates, same weakening, same exits. */
  lemma {:induction false} PruningLosesNothing(cfg: Config, inputs: seq<Input>, now: int)
    requires Ordered(inputs) && NoLaterThan(inputs, now)
    ensures SameEngine(cfg, Run(cfg, true, inputs), Run(cfg, false, inputs), now)
  {
    if inputs != [] {
      var front, i := inputs[..|inputs| - 1], inputs[|inputs| - 1];
      var p, f := Run(cfg, true, front), Run(cfg, false, front);
      if i.Raw? {
        PruningLosesNothing(cfg, front, i.event.ts);
        SameOnClusters(cfg, p, f, p.order, i.event);
        SameLater(cfg, Step(cfg, true, p, i), Step(cfg, false, f, i), i.event.ts, now);
      } else {
        PruningLosesNothing(cfg, front, now);
      }
    }
  }

  /** Main result: at the time of the latest event, and at any later one, every rate, the score and with them the
      exit conditions read off the pruned log are those of the complete log. */
  lemma PruningKeepsMetrics(cfg: Config, inputs: seq<Input>, k: string, now: int)
    requires Ordered(inputs) && NoLaterThan(inputs, now) && k in Run(cfg, true, inputs).clusters
    ensures k in Run(cfg, false, inputs).clusters
    ensures var p, f := Run(cfg, true, inputs).clusters[k], Run(cfg, false, inputs).clusters[k];
            && MetricsOf(cfg, p, now) == MetricsOf(cfg, f, now)
            && (ExitConditions(cfg, p, now) <==> ExitConditions(cfg, f, now))
  {
    PruningLosesNothing(cfg, inputs, now);
    SameMetrics(cfg, Run(cfg, true, inputs).clusters[k], Run(cfg, false, inputs).clusters[k], now);
  }

  lemma {:induction false} SameSignalsOf(cfg: Config, p: Engine, f: Engine, p': Engine, f': Engine,
                                         positions: seq<string>, e: Event)
    requires SameEngine(cfg, p, f, e.ts) && SameEngine(cfg, p', f', e.ts)
    ensures SignalsOf(p, p', positions, e) == SignalsOf(f, f', positions, e)
  {
    if positions != [] {
      SameSignalsOf(cfg, p, f, p', f', positions[..|positions| - 1], e);
      var k := positions[|positions| - 1];
      if k in p.clusters && k in p'.clusters {
        assert SameCluster(cfg, p.clusters[k], f.clusters[k], e.ts);
        assert SameCluster(cfg, p'.clusters[k], f'.clusters[k], e.ts);
      }
    }
  }

  /** Main result: so the signals answered to any next event are the same too. */
  lemma PruningKeepsSignals(cfg: Config, inputs: seq<Input>, i: Input)
    requires Ordered(inputs + [i])
    ensures Signals(cfg, true, Run(cfg, true, inputs), i) == Signals(cfg, false, Run(cfg, false, inputs), i)
  {
    if i.Raw? {
      var all, now := inputs + [i], i.event.ts;
      assert forall j :: 0 <= j < |inputs| ==> all[j] == inputs[j];
      assert all[|inputs|] == i && all[..|inputs|] == inputs;
      PruningLosesNothing(cfg, inputs, now);
      PruningLosesNothing(cfg, all, now);
      var p, f := Run(cfg, true, inputs), Run(cfg, false, inputs);
      SameSignalsOf(cfg, p, f, Step(cfg, true, p, i), Step(cfg, false, f, i), p.order, i.event);
    }
  }
}
