/** When the tracker raises an exit: exactly after an exit has been due over the window. */
module ActorExit {
  import opened Wrappers
  import opened ActorModel
  import opened ActorDecision

  /** The tracked positions, each listed once. */
  ghost predicate Listed(g: Engine) {
    && (forall k :: k in g.order <==> k in g.clusters)
    && (forall i, j :: 0 <= i < j < |g.order| ==> g.order[i] != g.order[j])
  }

  lemma {:induction false} WithoutFacts(order: seq<string>, p: string)
    requires forall i, j :: 0 <= i < j < |order| ==> order[i] != order[j]
    ensures var r := Without(order, p);
            && (forall k :: k in r <==> k in order && k != p)
            && (forall i, j :: 0 <= i < j < |r| ==> r[i] != r[j])
  {
    if order != [] {
      WithoutFacts(order[1..], p);
      assert order == [order[0]] + order[1..];
      assert order[0] !in order[1..];
    }
  }

  function Advance(cfg: Config, prune: bool, adds: seq<Event>, cl: Cluster, e: Event): Cluster {
    Update(cfg, prune, ApplyEvent(cfg, prune, adds, cl, e), e.ts)
  }

  /** One event advances each accepting cluster once, against the ADDs remembered before it. */
  lemma {:induction false} EachCluster(cfg: Config, prune: bool, g: Engine, positions: seq<string>, e: Event)
    requires forall i, j :: 0 <= i < j < |positions| ==> positions[i] != positions[j]
    ensures var r := OnClusters(cfg, prune, g, positions, e);
            && r.order == g.order && r.clusters.Keys == g.clusters.Keys && (e.action != AddOrder ==> r.adds == g.adds)
            && forall k :: k in g.clusters ==>
                 r.clusters[k] == if k in positions && Accepts(g.clusters[k], e)
                                  then Advance(cfg, prune, g.adds, g.clusters[k], e) else g.clusters[k]
  {
    if positions != [] {
      var front, p := positions[..|positions| - 1], positions[|positions| - 1];
      EachCluster(cfg, prune, g, front, e);
      assert positions == front + [p];
      assert p !in front;
    }
  }

  lemma StepListed(cfg: Config, prune: bool, g: Engine, i: Input)
    requires Listed(g)
    ensures Listed(Step(cfg, prune, g, i))
  {
    match i
    case Start(_) =>
    case Stop(p) => WithoutFacts(g.order, p);
    case Raw(e) => EachCluster(cfg, prune, g, g.order, e);
  }

  lemma {:induction false} RunListed(cfg: Config, prune: bool, inputs: seq<Input>)
    ensures Listed(Run(cfg, prune, inputs))
  {
    if inputs != [] {
      RunListed(cfg, prune, inputs[..|inputs| - 1]);
      StepListed(cfg, prune, Run(cfg, prune, inputs[..|inputs| - 1]), inputs[|inputs| - 1]);
    }
  }

  // ----- histories -----

  ghost function At(cfg: Config, inputs: seq<Input>, n: nat): Engine
    requires n <= |inputs|
  {
    Run(cfg, true, inputs[..n])
  }

  lemma AtNext(cfg: Config, inputs: seq<Input>, n: nat)
    requires n < |inputs|
    ensures Listed(At(cfg, inputs, n)) && At(cfg, inputs, n + 1) == Step(cfg, true, At(cfg, inputs, n), inputs[n])
  {
    RunListed(cfg, true, inputs[..n]);
    assert inputs[..n + 1][..n] == inputs[..n];
  }

  /** Input `n` is an event that the cluster of `k` accepts. */
  ghost predicate AcceptedAt(cfg: Config, inputs: seq<Input>, n: nat, k: string)
    requires n < |inputs|
  {
    inputs[n].Raw? && k in At(cfg, inputs, n).clusters && Accepts(At(cfg, inputs, n).clusters[k], inputs[n].event)
  }

  ghost predicate Restarts(i: Input, k: string) {
    (i.Start? && i.request.position == k) || (i.Stop? && i.position == k)
  }

  /** An exit is due right after input `n`. */
  ghost predicate WeakAfter(cfg: Config, inputs: seq<Input>, n: nat, k: string)
    requires n < |inputs| && inputs[n].Raw?
  {
    k in At(cfg, inputs, n + 1).clusters && ExitDue(cfg, At(cfg, inputs, n + 1).clusters[k], inputs[n].event.ts)
  }

  /** From the accepted event `i` on, tracking lasts and an exit is due after every accepted event before `n`. */
  ghost predicate Streak(cfg: Config, inputs: seq<Input>, i: nat, n: nat, k: string)
    requires n <= |inputs|
  {
    && i < n && AcceptedAt(cfg, inputs, i, k)
    && forall l :: i <= l < n ==>
        !Restarts(inputs[l], k) && (AcceptedAt(cfg, inputs, l, k) ==> WeakAfter(cfg, inputs, l, k))
  }

  /** Event times are positive and never decrease. */
  ghost predicate Timed(inputs: seq<Input>) {
    && (forall i :: 0 <= i < |inputs| && inputs[i].Raw? ==> inputs[i].event.ts > 0)
    && forall i, j :: 0 <= i < j < |inputs| && inputs[i].Raw? && inputs[j].Raw? ==>
        inputs[i].event.ts <= inputs[j].event.ts
  }

  lemma {:induction false} SinceSelf(log: seq<Activity>, cutoff: int)
    ensures Since(Since(log, ActivityTs, cutoff), ActivityTs, cutoff) == Since(log, ActivityTs, cutoff)
  {
    if log != [] {
      var kept, x := Since(log[..|log| - 1], ActivityTs, cutoff), log[|log| - 1];
      SinceSelf(log[..|log| - 1], cutoff);
      if x.ts >= cutoff {
        assert Since(log, ActivityTs, cutoff) == kept + [x] && (kept + [x])[..|kept|] == kept;
      } else {
        assert Since(log, ActivityTs, cutoff) == kept;
      }
    }
  }

  /** What an update decides, told from the cluster it leaves. */
  lemma {:induction false} UpdateDecides(cfg: Config, cl: Cluster, now: int)
    ensures var r := Update(cfg, true, cl, now);
            && ExitConditions(cfg, r, now) == ExitConditions(cfg, cl, now)
            && (cl.exit.Some? ==> r.exit == cl.exit)
            && (cl.exit.None? ==>
                  && (r.exit.Some? <==>
                        ExitConditions(cfg, cl, now) && cl.weakenedSince > 0
                        && now - cl.weakenedSince >= cfg.confirmWindow)
                  && (r.exit.Some? ==> r.exit.value.ts == now)
                  && r.weakenedSince == if !ExitConditions(cfg, cl, now) then 0
                                        else if cl.weakenedSince <= 0 then now else cl.weakenedSince)
  {
    SinceSelf(cl.activity, now - cfg.recentWindow);
    var p, r := cl.(activity := Pruned(cfg, true, cl.activity, now)), Update(cfg, true, cl, now);
    SameConditions(cfg, p, cl, now);
    SameConditions(cfg, p, r, now);
  }

  /** The conditions depend on the candidates and the recent activity only. */
  lemma SameConditions(cfg: Config, a: Cluster, b: Cluster, now: int)
    requires a.candidates == b.candidates
    requires Since(a.activity, ActivityTs, now - cfg.recentWindow)
         == Since(b.activity, ActivityTs, now - cfg.recentWindow)
    ensures ExitConditions(cfg, a, now) == ExitConditions(cfg, b, now)
  {
    assert MetricsOf(cfg, a, now) == MetricsOf(cfg, b, now);
  }

  lemma {:induction false} LoseActiveKeeps(cfg: Config, prune: bool, adds: seq<Event>, cl: Cluster, e: Event, n: nat)
    requires n <= |cl.candidates|
    ensures var r := LoseActive(cfg, prune, adds, cl, e, n);
            r.weakenedSince == cl.weakenedSince && r.exit == cl.exit && r.position == cl.position
  {
    if n > 0 {
      LoseActiveKeeps(cfg, prune, adds, cl, e, n - 1);
    }
  }

  lemma ApplyKeeps(cfg: Config, prune: bool, adds: seq<Event>, cl: Cluster, e: Event)
    ensures var r := ApplyEvent(cfg, prune, adds, cl, e); r.weakenedSince == cl.weakenedSince && r.exit == cl.exit
  {
    LoseActiveKeeps(cfg, prune, adds, cl.(lastEvent := Max(cl.lastEvent, e.ts)), e, |cl.candidates|);
  }

  /** What input `n` does to the decision about `k`. */
  lemma Turn(cfg: Config, inputs: seq<Input>, n: nat, k: string)
    requires n < |inputs| && k in At(cfg, inputs, n).clusters && !Restarts(inputs[n], k)
    ensures k in At(cfg, inputs, n + 1).clusters
    ensures var c, c' := At(cfg, inputs, n).clusters[k], At(cfg, inputs, n + 1).clusters[k];
            if !AcceptedAt(cfg, inputs, n, k) then c' == c
            else
              var now := inputs[n].event.ts;
              && (c.exit.Some? ==> c'.exit == c.exit)
              && (c.exit.None? ==>
                    && (c'.exit.Some? <==>
                          WeakAfter(cfg, inputs, n, k) && c.weakenedSince > 0
                          && now - c.weakenedSince >= cfg.confirmWindow)
                    && (c'.exit.Some? ==> c'.exit.value.ts == now)
                    && c'.weakenedSince == if !WeakAfter(cfg, inputs, n, k) then 0
                                           else if c.weakenedSince <= 0 then now else c.weakenedSince)
  {
    AtNext(cfg, inputs, n);
    var g := At(cfg, inputs, n);
    if inputs[n].Raw? {
      var e := inputs[n].event;
      EachCluster(cfg, true, g, g.order, e);
      ApplyKeeps(cfg, true, g.adds, g.clusters[k], e);
      UpdateDecides(cfg, ApplyEvent(cfg, true, g.adds, g.clusters[k], e), e.ts);
      if Accepts(g.clusters[k], e) {
        ExitConditionsMean(cfg, At(cfg, inputs, n + 1).clusters[k], e.ts);
      }
    }
  }

  /** While no exit is raised: the stored weakening time is that of the earliest event from which the
      an exit has been due without a break. */
  ghost predicate WeakeningKnown(cfg: Config, inputs: seq<Input>, n: nat, k: string)
    requires n <= |inputs| && k in At(cfg, inputs, n).clusters
  {
    var w := At(cfg, inputs, n).clusters[k].weakenedSince;
    && (w > 0 ==> exists i: nat :: Streak(cfg, inputs, i, n, k) && inputs[i].event.ts == w)
    && (forall i: nat :: Streak(cfg, inputs, i, n, k) ==> 0 < w <= inputs[i].event.ts)
  }

  lemma {:induction false} StreakShorter(cfg: Config, inputs: seq<Input>, i: nat, n: nat, k: string)
    requires n < |inputs| && Streak(cfg, inputs, i, n + 1, k) && i < n
    ensures Streak(cfg, inputs, i, n, k)
  {
  }

  lemma StreakLonger(cfg: Config, inputs: seq<Input>, i: nat, n: nat, k: string)
    requires n < |inputs| && Streak(cfg, inputs, i, n, k) && !Restarts(inputs[n], k)
    requires AcceptedAt(cfg, inputs, n, k) ==> WeakAfter(cfg, inputs, n, k)
    ensures Streak(cfg, inputs, i, n + 1, k)
  {
  }

  lemma {:induction false} Weakening(cfg: Config, inputs: seq<Input>, n: nat, k: string)
    requires n <= |inputs| && Timed(inputs) && k in At(cfg, inputs, n).clusters
    requires At(cfg, inputs, n).clusters[k].exit.None?
    ensures WeakeningKnown(cfg, inputs, n, k)
  {
    if n > 0 {
      var m := n - 1;
      AtNext(cfg, inputs, m);
      if Restarts(inputs[m], k) {
        assert At(cfg, inputs, n).clusters[k].weakenedSince == 0;
      } else {
        StillTracked(cfg, inputs, m, k);
        Turn(cfg, inputs, m, k);
        Weakening(cfg, inputs, m, k);
        WeakeningStep(cfg, inputs, m, k);
      }
    }
  }

  lemma StillTracked(cfg: Config, inputs: seq<Input>, n: nat, k: string)
    requires n < |inputs| && k in At(cfg, inputs, n + 1).clusters && !Restarts(inputs[n], k)
    ensures k in At(cfg, inputs, n).clusters
  {
    AtNext(cfg, inputs, n);
    var g := At(cfg, inputs, n);
    if inputs[n].Raw? {
      EachCluster(cfg, true, g, g.order, inputs[n].event);
    }
  }

  /** The stored time is that of some event with an unbroken streak. */
  lemma {:induction false} WeakeningWitness(cfg: Config, inputs: seq<Input>, m: nat, k: string) returns (i: nat)
    requires m < |inputs| && Timed(inputs) && !Restarts(inputs[m], k)
    requires k in At(cfg, inputs, m).clusters && WeakeningKnown(cfg, inputs, m, k)
    requires k in At(cfg, inputs, m + 1).clusters && At(cfg, inputs, m + 1).clusters[k].exit.None?
    requires At(cfg, inputs, m + 1).clusters[k].weakenedSince > 0
    ensures Streak(cfg, inputs, i, m + 1, k) && inputs[i].event.ts == At(cfg, inputs, m + 1).clusters[k].weakenedSince
  {
    Turn(cfg, inputs, m, k);
    var w := At(cfg, inputs, m).clusters[k].weakenedSince;
    if w > 0 {
      i :| Streak(cfg, inputs, i, m, k) && inputs[i].event.ts == w;
      StreakLonger(cfg, inputs, i, m, k);
    } else {
      i := m;
    }
  }

  /** No event with an unbroken streak is earlier. */
  lemma {:induction false} WeakeningEarliest(cfg: Config, inputs: seq<Input>, m: nat, k: string, i: nat)
    requires m < |inputs| && Timed(inputs) && !Restarts(inputs[m], k)
    requires k in At(cfg, inputs, m).clusters && WeakeningKnown(cfg, inputs, m, k)
    requires k in At(cfg, inputs, m + 1).clusters && At(cfg, inputs, m + 1).clusters[k].exit.None?
    requires Streak(cfg, inputs, i, m + 1, k)
    ensures 0 < At(cfg, inputs, m + 1).clusters[k].weakenedSince <= inputs[i].event.ts
  {
    Turn(cfg, inputs, m, k);
    if i < m {
      StreakShorter(cfg, inputs, i, m, k);
    } else if At(cfg, inputs, m).clusters[k].weakenedSince > 0 {
      var j: nat :| Streak(cfg, inputs, j, m, k) && inputs[j].event.ts == At(cfg, inputs, m).clusters[k].weakenedSince;
    }
  }

  lemma {:induction false} WeakeningStep(cfg: Config, inputs: seq<Input>, m: nat, k: string)
    requires m < |inputs| && Timed(inputs) && !Restarts(inputs[m], k)
    requires k in At(cfg, inputs, m).clusters && WeakeningKnown(cfg, inputs, m, k)
    requires k in At(cfg, inputs, m + 1).clusters && At(cfg, inputs, m + 1).clusters[k].exit.None?
    ensures WeakeningKnown(cfg, inputs, m + 1, k)
  {
    if At(cfg, inputs, m + 1).clusters[k].weakenedSince > 0 {
      var i := WeakeningWitness(cfg, inputs, m, k);
    }
    forall i: nat | Streak(cfg, inputs, i, m + 1, k)
      ensures 0 < At(cfg, inputs, m + 1).clusters[k].weakenedSince <= inputs[i].event.ts
    {
      WeakeningEarliest(cfg, inputs, m, k, i);
    }
  }

  /** Main result: with positive, non-decreasing event times, input `n` raises an exit for `k` exactly
      when an exit was due after every accepted event from some event at least the confirmation window
      earlier up to this one. */
  lemma ExitConfirmed(cfg: Config, inputs: seq<Input>, n: nat, k: string)
    requires n < |inputs| && Timed(inputs) && k in At(cfg, inputs, n).clusters && !Restarts(inputs[n], k)
    requires At(cfg, inputs, n).clusters[k].exit.None?
    ensures k in At(cfg, inputs, n + 1).clusters
    ensures At(cfg, inputs, n + 1).clusters[k].exit.Some?
       <==> AcceptedAt(cfg, inputs, n, k) && exists i: nat ::
              Streak(cfg, inputs, i, n + 1, k) && inputs[n].event.ts - inputs[i].event.ts >= cfg.confirmWindow
  {
    Turn(cfg, inputs, n, k);
    Weakening(cfg, inputs, n, k);
    var w := At(cfg, inputs, n).clusters[k].weakenedSince;
    if At(cfg, inputs, n + 1).clusters[k].exit.Some? {
      var i: nat :| Streak(cfg, inputs, i, n, k) && inputs[i].event.ts == w;
      StreakLonger(cfg, inputs, i, n, k);
    } else if AcceptedAt(cfg, inputs, n, k) {
      forall i: nat | Streak(cfg, inputs, i, n + 1, k)
        ensures inputs[n].event.ts - inputs[i].event.ts < cfg.confirmWindow
      {
        if i < n {
          StreakShorter(cfg, inputs, i, n, k);
        }
      }
    }
  }

  /** Main result: a raised exit never changes while tracking lasts. */
  lemma {:induction false} ExitNeverChanges(cfg: Config, inputs: seq<Input>, n: nat, m: nat, k: string)
    requires n <= m <= |inputs| && k in At(cfg, inputs, n).clusters && At(cfg, inputs, n).clusters[k].exit.Some?
    requires forall l :: n <= l < m ==> !Restarts(inputs[l], k)
    ensures k in At(cfg, inputs, m).clusters
    ensures At(cfg, inputs, m).clusters[k].exit == At(cfg, inputs, n).clusters[k].exit
  {
    if n < m {
      ExitNeverChanges(cfg, inputs, n, m - 1, k);
      Turn(cfg, inputs, m - 1, k);
    }
  }

  // ----- what a raised signal says -----

  /** A raised signal is that of the cluster the update leaves. */
  lemma RaisedReads(cfg: Config, cl: Cluster, now: int)
    requires cl.exit.None? && Update(cfg, true, cl, now).exit.Some?
    ensures var r := Update(cfg, true, cl, now);
            && r.candidates == cl.candidates && r.position == cl.position
            && r.exit == Some(SignalOf(cfg, r, now)) && ExitConditions(cfg, r, now)
  {
    SinceSelf(cl.activity, now - cfg.recentWindow);
    var p, r := cl.(activity := Pruned(cfg, true, cl.activity, now)), Update(cfg, true, cl, now);
    SameConditions(cfg, p, r, now);
    SameSignal(cfg, p, r, now);
  }

  lemma SameSignal(cfg: Config, a: Cluster, b: Cluster, now: int)
    requires a.candidates == b.candidates && a.position == b.position
    requires Since(a.activity, ActivityTs, now - cfg.recentWindow)
         == Since(b.activity, ActivityTs, now - cfg.recentWindow)
    ensures SignalOf(cfg, a, now) == SignalOf(cfg, b, now)
  {
    assert MetricsOf(cfg, a, now) == MetricsOf(cfg, b, now);
  }

  ghost predicate Tells(cfg: Config, cl: Cluster, now: int, e: ExitSignal) {
    && e.position == cl.position && e.ts == now && e.score == Evidence(cfg, cl, now)
    && e.activeRatio == ShareActive(cl.candidates)
    && exists d: nat :: FirstAmong(cl.candidates, d) && e.dominant == Some(cl.candidates[d].status)
  }

  /** Main result: an exit raised by input `n` tells the evidence at that moment, the share of the initial
      contracts still active and the state of the dominant candidate. */
  lemma ExitTells(cfg: Config, inputs: seq<Input>, n: nat, k: string)
    requires n < |inputs| && k in At(cfg, inputs, n).clusters && !Restarts(inputs[n], k)
    requires At(cfg, inputs, n).clusters[k].exit.None?
    ensures k in At(cfg, inputs, n + 1).clusters
    ensures var c' := At(cfg, inputs, n + 1).clusters[k];
            c'.exit.Some? ==> inputs[n].Raw? && Tells(cfg, c', inputs[n].event.ts, c'.exit.value)
  {
    Turn(cfg, inputs, n, k);
    AtNext(cfg, inputs, n);
    var g, c' := At(cfg, inputs, n), At(cfg, inputs, n + 1).clusters[k];
    if c'.exit.Some? {
      var e := inputs[n].event;
      EachCluster(cfg, true, g, g.order, e);
      ApplyKeeps(cfg, true, g.adds, g.clusters[k], e);
      RaisedReads(cfg, ApplyEvent(cfg, true, g.adds, g.clusters[k], e), e.ts);
      RaisedTells(cfg, c', e.ts);
    }
  }

  lemma RaisedTells(cfg: Config, cl: Cluster, now: int)
    requires ExitConditions(cfg, cl, now)
    ensures Tells(cfg, cl, now, SignalOf(cfg, cl, now))
  {
    Totals(cl.candidates);
    SignalMeans(cfg, cl, now);
    SignalDominant(cfg, cl, now);
  }

  lemma {:induction false} SignalsList(g: Engine, after: Engine, positions: seq<string>, e: Event, x: ExitSignal)
    ensures x in SignalsOf(g, after, positions, e)
       <==> exists k :: k in positions && k in g.clusters && Accepts(g.clusters[k], e) && k in after.clusters
                        && after.clusters[k].exit == Some(x)
  {
    if positions != [] {
      var n := |positions| - 1;
      SignalsList(g, after, positions[..n], e, x);
      assert positions == positions[..n] + [positions[n]];
    }
  }

  /** Main result: an input answers exactly the signals raised, by then, of the clusters that accept it. */
  lemma AnswersRaised(cfg: Config, inputs: seq<Input>, n: nat, x: ExitSignal)
    requires n < |inputs|
    ensures x in Signals(cfg, true, At(cfg, inputs, n), inputs[n])
       <==> exists k :: AcceptedAt(cfg, inputs, n, k) && k in At(cfg, inputs, n + 1).clusters
                        && At(cfg, inputs, n + 1).clusters[k].exit == Some(x)
  {
    AtNext(cfg, inputs, n);
    var g, after := At(cfg, inputs, n), At(cfg, inputs, n + 1);
    if inputs[n].Raw? {
      var e := inputs[n].event;
      SignalsList(g, after, g.order, e, x);
      forall k ensures AcceptedAt(cfg, inputs, n, k) <==> k in g.order && k in g.clusters && Accepts(g.clusters[k], e) {
      }
    }
  }

  // ----- the score -----

  /** The five weights add up to one, so the outer clamp never acts. */
  lemma ScoreIsWeightedSum(cfg: Config, ratio: real, gone: nat, initial: nat, dominant: bool, dropped: bool,
                           recent: bool)
    requires ratio >= 0.0
    ensures var low := if ratio < cfg.exitThreshold then (cfg.exitThreshold - ratio) / cfg.exitThreshold else 0.0;
            var lost := if initial == 0 then 0.0 else if gone >= initial then 1.0 else gone as real / initial as real;
            && 0.0 <= low <= 1.0 && 0.0 <= lost <= 1.0
            && Score(cfg, ratio, gone, initial, dominant, dropped, recent)
               == 0.35 * low + 0.20 * lost + (if dropped then 0.20 else 0.0)
                  + (if dominant then 0.0 else 0.15) + (if recent then 0.0 else 0.10)
  {
    var t := cfg.exitThreshold;
    if ratio < t {
      Fraction(t - ratio, t);
    }
    if initial > 0 {
      Fraction(gone as real, initial as real);
    }
  }

  lemma Fraction(a: real, b: real)
    requires b > 0.0 && a >= 0.0
    ensures a / b >= 0.0 && (a <= b ==> a / b <= 1.0) && (a >= b ==> a / b >= 1.0)
  {
    assert a == a / b * b;
  }
}
