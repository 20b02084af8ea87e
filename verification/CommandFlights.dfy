/** What may wait beside a command in flight, over every run: only what a retryable rejection gave back. */
module CommandFlights {
  import opened Wrappers
  import opened CommandModel
  import opened CommandProtocol

  /** A pending command of an evaluation key with a command in flight is in flight itself, or was
      returned by a retryable rejection. */
  ghost predicate Orderly(r: Runtime) {
    forall a, b :: a in r.pending && b in r.pending && a in r.sent && b !in r.sent ==>
      EvalOf(r.pending[a]) != EvalOf(r.pending[b]) || r.log[Landed(b, Retry)] > 0
  }

  ghost predicate Steady(r: Runtime) { Sound(r) && Orderly(r) }

  // ----- the elementary changes -----

  lemma QueueOrderly(r: Runtime, key: EvalKey, ask: Oracle)
    requires Steady(r) && Honest(ask)
    ensures Steady(Refresh(r, key, ask))
  {
    RefreshAdvances(r, key, ask);
    if !InFlight(r, key) {
      EnqueueFacts(r.pending, r.completed, ask(key));
    }
  }

  lemma DispatchOrderly(r: Runtime, key: EvalKey)
    requires Steady(r)
    ensures var out := Undispatched(r, key); Steady(r.(sent := r.sent + out, log := r.log + DispatchNotes(out)))
  {
    var out := Undispatched(r, key);
    var r' := r.(sent := r.sent + out, log := r.log + DispatchNotes(out));
    MoveAdvances(r, Dispatch(out), r');
    NoteCounts(out, Retry);
  }

  lemma CompleteOrderly(r: Runtime, t: Target, kind: CommandType)
    requires Steady(r)
    ensures Steady(CompleteMatching(r, t, kind))
  {
    CompleteAdvances(r, t, kind);
    NoteCounts(Matching(r, t, kind), Completion);
    NoteCounts(Matching(r, t, kind) * r.sent, Completion);
  }

  lemma RetryOrderly(r: Runtime, t: Target)
    requires Steady(r)
    ensures Steady(RetryMatching(r, t))
  {
    RetryAdvances(r, t);
    NoteCounts(Matching(r, t, Open) * r.sent, Retry);
  }

  lemma RemoveOrderly(r: Runtime, symbol: string, timeframe: string, side: Option<TradeSide>, maxTime: Option<int>)
    requires Steady(r)
    ensures Steady(RemovePendingOpen(r, symbol, timeframe, side, maxTime))
  {
    RemoveAdvances(r, symbol, timeframe, side, maxTime);
    var gone := set k | k in r.pending && Removable(r.pending[k], symbol, timeframe, side, maxTime);
    NoteCounts(gone * r.sent, Removal);
  }

  lemma QuietOrderly(r: Runtime, r': Runtime)
    requires Steady(r) && Quiet(r, r')
    ensures Steady(r')
  {
    QuietAdvances(r, r');
  }

  // ----- the operations -----

  lemma {:induction false} RefreshEachOrderly(r: Runtime, keys: seq<EvalKey>, ask: Oracle)
    requires Steady(r) && Honest(ask)
    ensures Steady(RefreshEach(r, keys, ask))
  {
    if keys != [] {
      RefreshEachOrderly(r, keys[..|keys| - 1], ask);
      QueueOrderly(RefreshEach(r, keys[..|keys| - 1], ask), keys[|keys| - 1], ask);
    }
  }

  lemma RefreshAllOrderly(r: Runtime, symbol: string, ask: Oracle)
    requires Steady(r) && Honest(ask)
    ensures Steady(RefreshAll(r, symbol, ask))
  {
    RefreshEachOrderly(r, AllKeys(r.clients, symbol, TimeframesOf(r, symbol)), ask);
  }

  lemma PollSymbolOrderly(r: Runtime, client: string, symbol: string, requested: string, ask: Oracle)
    requires Steady(r) && Honest(ask)
    ensures Steady(PollSymbol(r, client, symbol, requested, ask))
  {
    var active := TimeframesOf(r, symbol);
    var primary := if requested != "" then requested else if active != [] then active[0] else "";
    if symbol != "" && primary != "" && primary in active {
      var key := EvalKey(client, symbol, primary);
      var marked := r.(initialized := r.initialized + {key});
      QuietOrderly(r, marked);
      QueueOrderly(marked, key, ask);
      DispatchOrderly(Initialize(r, key, ask), key);
    }
  }

  lemma {:induction false} PollEachOrderly(r: Runtime, client: string, symbols: seq<string>, requested: string,
                                           ask: Oracle)
    requires Steady(r) && Honest(ask)
    ensures Steady(PollEach(r, client, symbols, requested, ask))
  {
    if symbols != [] {
      PollEachOrderly(r, client, symbols[..|symbols| - 1], requested, ask);
      PollSymbolOrderly(PollEach(r, client, symbols[..|symbols| - 1], requested, ask), client, symbols[|symbols| - 1],
                        requested, ask);
    }
  }

  lemma OpenSettledOrderly(r: Runtime, s: Status)
    requires Steady(r) && s.side.Some?
    ensures Steady(OpenSettled(r, s))
  {
    var p := Reported(s, KnownPosition(r, s));
    var t := Target(s.client, s.symbol, s.timeframe, s.requestId, p.positionId, p.clientPositionId);
    var r0 := r.(positions := Refile(r.positions, OnFile(r, s), PositionKey(s.client, p.clientPositionId), p));
    QuietOrderly(r, r0);
    var r1 := CompleteMatching(r0, t, Open);
    CompleteOrderly(r0, t, Open);
    CompleteOrderly(r1, t, Close);
    var r2 := if s.lifecycle == StillOpen && s.rejectionReason != "" then CompleteMatching(r1, t, Close) else r1;
    RemoveOrderly(r2, s.symbol, s.timeframe, s.side, None);
  }

  lemma ReportOpenOrderly(r: Runtime, s: Status, ask: Oracle)
    requires Steady(r) && Honest(ask) && s.side.Some?
    ensures Steady(ReportOpen(r, s, ask))
  {
    OpenSettledOrderly(r, s);
    RefreshAllOrderly(OpenSettled(r, s), s.symbol, ask);
  }

  lemma SettleEndOrderly(r: Runtime, s: Status)
    requires Steady(r)
    ensures Steady(SettleEnd(r, s))
  {
    CompleteOrderly(r, EndTarget(s), Close);
    RetryOrderly(r, EndTarget(s));
    CompleteOrderly(r, EndTarget(s), Open);
    CompleteOrderly(CompleteMatching(r, EndTarget(s), Open), EndTarget(s), Close);
  }

  lemma ClosePositionOrderly(r: Runtime, s: Status, key: PositionKey, ask: Oracle)
    requires Steady(r) && Honest(ask)
    ensures Steady(ClosePosition(r, s, key, ask))
  {
    var cutoff := if s.signalTime > 0 then s.signalTime else s.now;
    var popped := r.(positions := Pop(r.positions, key));
    QuietOrderly(r, popped);
    RemoveOrderly(popped, s.symbol, s.timeframe, None, Some(cutoff));
    var cleaned := RemovePendingOpen(popped, s.symbol, s.timeframe, None, Some(cutoff));
    RefreshAllOrderly(if s.timeframe != "" && cutoff > 0 then cleaned else popped, s.symbol, ask);
  }

  lemma ReportEndOrderly(r: Runtime, s: Status, ask: Oracle)
    requires Steady(r) && Honest(ask)
    ensures Steady(ReportEnd(r, s, ask))
  {
    var settled := SettleEnd(r, s);
    SettleEndOrderly(r, s);
    RefreshAllOrderly(settled, s.symbol, ask);
    var existing := FindKey(settled.positions, s.client, s.clientPositionId, PositionIdOf(s), ClusterOf(s));
    if existing.Some? {
      ClosePositionOrderly(settled, s, existing.value, ask);
    }
  }

  lemma ConfigureOrderly(r: Runtime, active: set<string>, timeframes: map<string, seq<string>>)
    requires Steady(r)
    ensures Steady(ConfigureSessions(r, active, timeframes))
  {
    ConfigureSound(r, active, timeframes);
    NoteCounts(r.sent - KeepKeys(r.sent, active), Purge);
  }

  // ----- runs -----

  /** The oracle behind an operation answers every evaluation key with commands of that key. */
  ghost predicate HonestOp(op: Op) { !op.DoConfigure? ==> Honest(op.ask) }

  lemma StepOrderly(r: Runtime, op: Op)
    requires Steady(r) && HonestOp(op)
    ensures Steady(Step(r, op))
  {
    match op
    case DoPoll(client, symbols, requested, ask) =>
      QuietOrderly(r, Known(r, client));
      PollEachOrderly(Known(r, client), client, symbols, requested, ask);
    case DoUpdate(s, ask) =>
      QuietOrderly(r, Known(r, s.client));
      if !Invalid(s) {
        ReportOpenOrderly(Known(r, s.client), s, ask);
        ReportEndOrderly(Known(r, s.client), s, ask);
      }
    case DoTrigger(symbol, ask) => RefreshAllOrderly(r, symbol, ask);
    case DoConfigure(active, timeframes) => ConfigureOrderly(r, active, timeframes);
  }

  lemma {:induction false} RunOrderly(ops: seq<Op>)
    requires forall op :: op in ops ==> HonestOp(op)
    ensures Steady(Run(ops))
  {
    if ops != [] {
      RunOrderly(ops[..|ops| - 1]);
      StepOrderly(Run(ops[..|ops| - 1]), ops[|ops| - 1]);
    }
  }

  /** Main result: in every reachable state nothing new waits beside a command in flight. A pending
      command that shares its evaluation key with one in flight is in flight too, or it is an open
      command that a retryable rejection gave back. */
  lemma NothingQueuedInFlight(ops: seq<Op>, b: CommandKey)
    requires forall op :: op in ops ==> HonestOp(op)
    requires b in Run(ops).pending && InFlight(Run(ops), EvalOf(Run(ops).pending[b]))
    ensures b in Run(ops).sent || (b.kind == Open && Run(ops).log[Landed(b, Retry)] > 0)
  {
    RunOrderly(ops);
    assert Ledger(Run(ops), b);
  }

  // ----- one operation -----

  /** Whatever was queued since `r` is in flight itself, or its evaluation key has nothing in flight. */
  ghost predicate QueuedIdle(r: Runtime, r': Runtime) {
    forall k :: k in r'.pending && k !in r.pending ==> k in r'.sent || !InFlight(r', EvalOf(r'.pending[k]))
  }

  /** A refresh queues only for evaluation keys that have no command in flight. */
  lemma {:induction false} RefreshSparesFlights(r: Runtime, keys: seq<EvalKey>, ask: Oracle)
    requires Consistent(r) && Honest(ask)
    ensures var r' := RefreshEach(r, keys, ask);
            && r'.sent == r.sent && r.pending.Keys <= r'.pending.Keys
            && (forall k :: k in r.pending ==> r'.pending[k] == r.pending[k])
            && (forall k :: k in r'.pending && k !in r.pending ==>
                  EvalOf(r'.pending[k]) in keys && !InFlight(r, EvalOf(r'.pending[k])))
  {
    if keys != [] {
      var before := RefreshEach(r, keys[..|keys| - 1], ask);
      var key := keys[|keys| - 1];
      RefreshSparesFlights(r, keys[..|keys| - 1], ask);
      EnqueueFacts(before.pending, before.completed, ask(key));
    }
  }

  lemma RefreshAllIdle(r: Runtime, settled: Runtime, symbol: string, ask: Oracle)
    requires Sound(settled) && Honest(ask) && settled.pending.Keys <= r.pending.Keys
    ensures QueuedIdle(r, RefreshAll(settled, symbol, ask))
  {
    RefreshSparesFlights(settled, AllKeys(settled.clients, symbol, TimeframesOf(settled, symbol)), ask);
  }

  lemma PollSymbolIdle(r: Runtime, r1: Runtime, client: string, symbol: string, requested: string, ask: Oracle)
    requires Sound(r1) && Honest(ask) && QueuedIdle(r, r1)
    ensures QueuedIdle(r, PollSymbol(r1, client, symbol, requested, ask))
  {
    var active := TimeframesOf(r1, symbol);
    var primary := if requested != "" then requested else if active != [] then active[0] else "";
    if symbol != "" && primary != "" && primary in active {
      var key := EvalKey(client, symbol, primary);
      EnqueueFacts(r1.pending, r1.completed, ask(key));
      var ready, r2 := Initialize(r1, key, ask), PollSymbol(r1, client, symbol, requested, ask);
      forall k | k in r2.pending && k !in r.pending && k !in r2.sent ensures !InFlight(r2, EvalOf(r2.pending[k])) {
        assert EvalOf(r2.pending[k]) != key;
        assert k in r1.pending && !InFlight(r1, EvalOf(r1.pending[k]));
      }
    }
  }

  lemma {:induction false} PollEachIdle(r: Runtime, r1: Runtime, client: string, symbols: seq<string>,
                                        requested: string, ask: Oracle)
    requires Sound(r1) && Honest(ask) && r1.pending == r.pending
    ensures QueuedIdle(r, PollEach(r1, client, symbols, requested, ask))
  {
    if symbols != [] {
      var before := PollEach(r1, client, symbols[..|symbols| - 1], requested, ask);
      PollEachIdle(r, r1, client, symbols[..|symbols| - 1], requested, ask);
      PollEachAdvances(r1, client, symbols[..|symbols| - 1], requested, ask);
      PollSymbolIdle(r, before, client, symbols[|symbols| - 1], requested, ask);
    }
  }

  lemma ReportOpenIdle(r: Runtime, s: Status, ask: Oracle)
    requires Sound(r) && Honest(ask) && s.side.Some?
    ensures QueuedIdle(r, ReportOpen(r, s, ask))
  {
    var r3 := OpenSettled(r, s);
    OpenSettledAdvances(r, s);
    RefreshAllIdle(r, r3, s.symbol, ask);
  }

  lemma ReportEndIdle(r: Runtime, s: Status, ask: Oracle)
    requires Sound(r) && Honest(ask)
    ensures QueuedIdle(r, ReportEnd(r, s, ask))
  {
    var settled := SettleEnd(r, s);
    SettleEndAdvances(r, s);
    RefreshAllIdle(r, settled, s.symbol, ask);
    var existing := FindKey(settled.positions, s.client, s.clientPositionId, PositionIdOf(s), ClusterOf(s));
    if existing.Some? {
      var popped := settled.(positions := Pop(settled.positions, existing.value));
      var cutoff := if s.signalTime > 0 then s.signalTime else s.now;
      QuietAdvances(settled, popped);
      RefreshAllIdle(r, popped, s.symbol, ask);
      RemoveAdvances(popped, s.symbol, s.timeframe, None, Some(cutoff));
      RefreshAllIdle(r, RemovePendingOpen(popped, s.symbol, s.timeframe, None, Some(cutoff)), s.symbol, ask);
    }
  }

  lemma UpdateIdle(r: Runtime, s: Status, ask: Oracle)
    requires Sound(r) && Honest(ask)
    ensures QueuedIdle(r, Update(r, s, ask))
  {
    var r0 := Known(r, s.client);
    QuietAdvances(r, r0);
    if !Invalid(s) {
      ReportOpenIdle(r0, s, ask);
      ReportEndIdle(r0, s, ask);
    }
  }

  /** Main result: no operation of any run, be it a poll, a client report, a trigger or a session change,
      leaves a newly queued command waiting for an evaluation key that has one in flight. */
  lemma StepQueuesIdle(ops: seq<Op>, op: Op)
    requires HonestOp(op)
    ensures QueuedIdle(Run(ops), Step(Run(ops), op))
  {
    var r := Run(ops);
    RunSound(ops);
    match op
    case DoPoll(client, symbols, requested, ask) =>
      QuietAdvances(r, Known(r, client));
      PollEachIdle(r, Known(r, client), client, symbols, requested, ask);
    case DoUpdate(s, ask) => UpdateIdle(r, s, ask);
    case DoTrigger(symbol, ask) => RefreshAllIdle(r, r, symbol, ask);
    case DoConfigure(_, _) =>
  }
}
