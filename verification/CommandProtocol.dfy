/** Properties of the command protocol over every run. */
module CommandProtocol {
  import opened Wrappers
  import opened CommandModel

  /** What every reachable state satisfies: keys index their own commands, whatever is in flight is
      pending, and nothing pending is completed. */
  ghost predicate Consistent(r: Runtime) {
    && (forall k :: k in r.pending ==> KeyOf(r.pending[k]) == k)
    && r.sent <= r.pending.Keys
    && r.pending.Keys !! r.completed
  }

  // ----- the transitions that make up every operation -----

  /** One elementary change of the command sets. `hit` are the keys it concerns. */
  datatype Move =
    | Queue(commands: seq<Command>)
    | Dispatch(hit: set<CommandKey>)
    | Complete(hit: set<CommandKey>)
    | Return(hit: set<CommandKey>)
    | Remove(hit: set<CommandKey>)

  ghost predicate Quiet(r: Runtime, r': Runtime) {
    r'.pending == r.pending && r'.sent == r.sent && r'.completed == r.completed && r'.log == r.log
  }

  ghost predicate Kinds(hit: set<CommandKey>, kind: CommandType) {
    forall k :: k in hit ==> k.kind == kind
  }

  ghost predicate Moves(r: Runtime, m: Move, r': Runtime) {
    match m
    case Queue(commands) =>
      && r'.pending == Enqueue(r.pending, r.completed, commands)
      && r'.sent == r.sent && r'.completed == r.completed && r'.log == r.log
    case Dispatch(hit) =>
      && hit <= r.pending.Keys && hit !! r.sent
      && r'.pending == r.pending && r'.sent == r.sent + hit && r'.completed == r.completed
      && r'.log == r.log + DispatchNotes(hit)
    case Complete(hit) =>
      && hit <= r.pending.Keys
      && r'.pending == r.pending - hit && r'.sent == r.sent - hit && r'.completed == r.completed + hit
      && r'.log == r.log + LandNotes(hit * r.sent, Completion) + FinishNotes(hit)
    case Return(hit) =>
      && hit <= r.pending.Keys && Kinds(hit, Open)
      && r'.pending == r.pending && r'.sent == r.sent - hit && r'.completed == r.completed
      && r'.log == r.log + LandNotes(hit * r.sent, Retry)
    case Remove(hit) =>
      && hit <= r.pending.Keys && Kinds(hit, Open)
      && r'.pending == r.pending - hit && r'.sent == r.sent - hit && r'.completed == r.completed
      && r'.log == r.log + LandNotes(hit * r.sent, Removal)
  }

  /** What is kept of one key's history. */
  ghost predicate Ledger(r: Runtime, k: CommandKey) {
    && r.log[Dispatched(k)] == (if k in r.sent then 1 else 0)
         + r.log[Landed(k, Completion)] + r.log[Landed(k, Retry)] + r.log[Landed(k, Removal)] + r.log[Landed(k, Purge)]
    && r.log[Landed(k, Completion)] <= r.log[Finished(k)]
    && (k.kind == Close ==> r.log[Landed(k, Retry)] == r.log[Landed(k, Removal)] == 0)
  }

  ghost predicate Sound(r: Runtime) {
    Consistent(r) && forall k :: Ledger(r, k)
  }

  /** How the completions of a key relate across a change that does not purge it. */
  ghost predicate Lasting(r: Runtime, r': Runtime, k: CommandKey) {
    && (k in r.completed ==> k in r'.completed && r'.log[Dispatched(k)] == r.log[Dispatched(k)])
    && r'.log[Finished(k)] + Once(k in r.completed) == r.log[Finished(k)] + Once(k in r'.completed)
    && r'.log[Landed(k, Completion)] + r.log[Finished(k)] <= r.log[Landed(k, Completion)] + r'.log[Finished(k)]
    && r'.log[Landed(k, Purge)] == r.log[Landed(k, Purge)]
    && r.log[Landed(k, Retry)] <= r'.log[Landed(k, Retry)] && r.log[Landed(k, Removal)] <= r'.log[Landed(k, Removal)]
  }

  lemma {:induction false} EnqueueFacts(pending: map<CommandKey, Command>, completed: set<CommandKey>,
                                        commands: seq<Command>)
    ensures var after := Enqueue(pending, completed, commands);
            && pending.Keys <= after.Keys
            && (forall k :: k in pending ==> after[k] == pending[k])
            && (forall k :: k in after && k !in pending ==>
                  k !in completed && after[k] in commands && KeyOf(after[k]) == k)
  {
    if commands != [] {
      EnqueueFacts(pending, completed, commands[..|commands| - 1]);
      assert commands == commands[..|commands| - 1] + [commands[|commands| - 1]];
    }
  }

  lemma NoteCounts(hit: set<CommandKey>, how: How)
    ensures forall n :: LandNotes(hit, how)[n] == if n.Landed? && n.how == how && n.key in hit then 1 else 0
    ensures forall n :: DispatchNotes(hit)[n] == if n.Dispatched? && n.key in hit then 1 else 0
    ensures forall n :: FinishNotes(hit)[n] == if n.Finished? && n.key in hit then 1 else 0
  {
    var d := set x | x in hit :: Dispatched(x);
    var l := set x | x in hit :: Landed(x, how);
    var f := set x | x in hit :: Finished(x);
    assert forall n :: n in d <==> n.Dispatched? && n.key in hit;
    assert forall n :: n in l <==> n.Landed? && n.how == how && n.key in hit;
    assert forall n :: n in f <==> n.Finished? && n.key in hit;
  }

  ghost predicate Advances(r: Runtime, r': Runtime) {
    Sound(r') && forall k :: Lasting(r, r', k)
  }

  lemma QuietAdvances(r: Runtime, r': Runtime)
    requires Sound(r) && Quiet(r, r')
    ensures Advances(r, r')
  {
    forall k ensures Ledger(r', k) && Lasting(r, r', k) { assert Ledger(r, k); }
  }

  lemma AdvancesTransitive(a: Runtime, b: Runtime, c: Runtime)
    requires Advances(a, b) && Advances(b, c)
    ensures Advances(a, c)
  {
    forall k ensures Lasting(a, c, k) {
      assert Lasting(a, b, k) && Lasting(b, c, k);
    }
  }

  lemma QueueAdvances(r: Runtime, commands: seq<Command>, r': Runtime)
    requires Sound(r) && Moves(r, Queue(commands), r')
    ensures Advances(r, r')
  {
    EnqueueFacts(r.pending, r.completed, commands);
    forall k ensures Ledger(r', k) && Lasting(r, r', k) { assert Ledger(r, k); }
  }

  lemma DispatchAdvances(r: Runtime, hit: set<CommandKey>, r': Runtime)
    requires Sound(r) && Moves(r, Dispatch(hit), r')
    ensures Advances(r, r')
  {
    NoteCounts(hit, Retry);
    forall k ensures Ledger(r', k) && Lasting(r, r', k) { assert Ledger(r, k); }
  }

  lemma CompleteCounts(r: Runtime, hit: set<CommandKey>, r': Runtime, k: CommandKey)
    requires Moves(r, Complete(hit), r')
    ensures forall n: Note :: n.key == k ==>
              r'.log[n] == r.log[n]
                + if k in hit && (n.Finished? || (n.Landed? && n.how == Completion && k in r.sent)) then 1 else 0
  {
    NoteCounts(hit * r.sent, Completion);
    NoteCounts(hit, Completion);
  }

  lemma CompleteKeyAdvances(r: Runtime, hit: set<CommandKey>, r': Runtime, k: CommandKey)
    requires Sound(r) && Moves(r, Complete(hit), r')
    ensures Ledger(r', k) && Lasting(r, r', k)
  {
    CompleteCounts(r, hit, r', k);
    assert Ledger(r, k);
  }

  lemma LandKeyAdvances(r: Runtime, m: Move, r': Runtime, k: CommandKey)
    requires (m.Return? || m.Remove?) && Sound(r) && Moves(r, m, r')
    ensures Ledger(r', k) && Lasting(r, r', k)
  {
    NoteCounts(m.hit * r.sent, Retry);
    NoteCounts(m.hit * r.sent, Removal);
    assert Ledger(r, k);
  }

  lemma MoveAdvances(r: Runtime, m: Move, r': Runtime)
    requires Sound(r) && Moves(r, m, r')
    ensures Advances(r, r')
  {
    match m
    case Queue(commands) => QueueAdvances(r, commands, r');
    case Dispatch(hit) => DispatchAdvances(r, hit, r');
    case Complete(hit) => forall k ensures Ledger(r', k) && Lasting(r, r', k) { CompleteKeyAdvances(r, hit, r', k); }
    case _ => forall k ensures Ledger(r', k) && Lasting(r, r', k) { LandKeyAdvances(r, m, r', k); }
  }

  // ----- the operations -----

  lemma RefreshAdvances(r: Runtime, key: EvalKey, ask: Oracle)
    requires Sound(r)
    ensures Advances(r, Refresh(r, key, ask))
  {
    if InFlight(r, key) {
      QuietAdvances(r, r);
    } else {
      MoveAdvances(r, Queue(ask(key)), Refresh(r, key, ask));
    }
  }

  lemma {:induction false} RefreshEachAdvances(r: Runtime, keys: seq<EvalKey>, ask: Oracle)
    requires Sound(r)
    ensures Advances(r, RefreshEach(r, keys, ask))
  {
    if keys == [] {
      QuietAdvances(r, r);
    } else {
      var before := RefreshEach(r, keys[..|keys| - 1], ask);
      RefreshEachAdvances(r, keys[..|keys| - 1], ask);
      RefreshAdvances(before, keys[|keys| - 1], ask);
      AdvancesTransitive(r, before, RefreshEach(r, keys, ask));
    }
  }

  lemma PollSymbolAdvances(r: Runtime, client: string, symbol: string, requested: string, ask: Oracle)
    requires Sound(r)
    ensures Advances(r, PollSymbol(r, client, symbol, requested, ask))
  {
    var active := TimeframesOf(r, symbol);
    var primary := if requested != "" then requested else if active != [] then active[0] else "";
    if symbol == "" || primary == "" || primary !in active {
      QuietAdvances(r, r);
    } else {
      var key := EvalKey(client, symbol, primary);
      var marked := if key in r.initialized then r else r.(initialized := r.initialized + {key});
      var ready := Initialize(r, key, ask);
      QuietAdvances(r, marked);
      if key in r.initialized {
      } else {
        RefreshAdvances(marked, key, ask);
        AdvancesTransitive(r, marked, ready);
      }
      MoveAdvances(ready, Dispatch(Undispatched(ready, key)), PollSymbol(r, client, symbol, requested, ask));
      AdvancesTransitive(r, ready, PollSymbol(r, client, symbol, requested, ask));
    }
  }

  lemma {:induction false} PollEachAdvances(r: Runtime, client: string, symbols: seq<string>, requested: string,
                                            ask: Oracle)
    requires Sound(r)
    ensures Advances(r, PollEach(r, client, symbols, requested, ask))
  {
    if symbols == [] {
      QuietAdvances(r, r);
    } else {
      var before := PollEach(r, client, symbols[..|symbols| - 1], requested, ask);
      PollEachAdvances(r, client, symbols[..|symbols| - 1], requested, ask);
      PollSymbolAdvances(before, client, symbols[|symbols| - 1], requested, ask);
      AdvancesTransitive(r, before, PollEach(r, client, symbols, requested, ask));
    }
  }

  lemma CompleteAdvances(r: Runtime, t: Target, kind: CommandType)
    requires Sound(r)
    ensures Advances(r, CompleteMatching(r, t, kind))
  {
    MoveAdvances(r, Complete(Matching(r, t, kind)), CompleteMatching(r, t, kind));
  }

  lemma RetryAdvances(r: Runtime, t: Target)
    requires Sound(r)
    ensures Advances(r, RetryMatching(r, t))
  {
    MoveAdvances(r, Return(Matching(r, t, Open)), RetryMatching(r, t));
  }

  lemma RemoveAdvances(r: Runtime, symbol: string, timeframe: string, side: Option<TradeSide>, maxTime: Option<int>)
    requires Sound(r)
    ensures Advances(r, RemovePendingOpen(r, symbol, timeframe, side, maxTime))
  {
    var gone := set k | k in r.pending && Removable(r.pending[k], symbol, timeframe, side, maxTime);
    MoveAdvances(r, Remove(gone), RemovePendingOpen(r, symbol, timeframe, side, maxTime));
  }

  lemma OpenSettledAdvances(r: Runtime, s: Status)
    requires Sound(r) && s.side.Some?
    ensures Advances(r, OpenSettled(r, s)) && OpenSettled(r, s).pending.Keys <= r.pending.Keys
  {
    var p := Reported(s, KnownPosition(r, s));
    var t := Target(s.client, s.symbol, s.timeframe, s.requestId, p.positionId, p.clientPositionId);
    var r0 := r.(positions := Refile(r.positions, OnFile(r, s), PositionKey(s.client, p.clientPositionId), p));
    QuietAdvances(r, r0);
    var r1 := CompleteMatching(r0, t, Open);
    CompleteAdvances(r0, t, Open);
    AdvancesTransitive(r, r0, r1);
    var r2 := if s.lifecycle == StillOpen && s.rejectionReason != "" then CompleteMatching(r1, t, Close) else r1;
    CompleteAdvances(r1, t, Close);
    QuietAdvances(r1, r1);
    AdvancesTransitive(r, r1, r2);
    RemoveAdvances(r2, s.symbol, s.timeframe, s.side, None);
    QuietAdvances(r2, r2);
    AdvancesTransitive(r, r2, OpenSettled(r, s));
  }

  lemma ReportOpenAdvances(r: Runtime, s: Status, ask: Oracle)
    requires Sound(r) && s.side.Some?
    ensures Advances(r, ReportOpen(r, s, ask))
  {
    var settled := OpenSettled(r, s);
    OpenSettledAdvances(r, s);
    RefreshAllAdvances(settled, s.symbol, ask);
    AdvancesTransitive(r, settled, RefreshAll(settled, s.symbol, ask));
  }

  lemma RefreshAllAdvances(r: Runtime, symbol: string, ask: Oracle)
    requires Sound(r)
    ensures Advances(r, RefreshAll(r, symbol, ask))
  {
    RefreshEachAdvances(r, AllKeys(r.clients, symbol, TimeframesOf(r, symbol)), ask);
  }

  lemma ClosePositionAdvances(r: Runtime, s: Status, key: PositionKey, ask: Oracle)
    requires Sound(r)
    ensures Advances(r, ClosePosition(r, s, key, ask))
  {
    var cutoff := if s.signalTime > 0 then s.signalTime else s.now;
    var popped := r.(positions := Pop(r.positions, key));
    QuietAdvances(r, popped);
    if s.timeframe != "" && cutoff > 0 {
      var cleaned := RemovePendingOpen(popped, s.symbol, s.timeframe, None, Some(cutoff));
      RemoveAdvances(popped, s.symbol, s.timeframe, None, Some(cutoff));
      AdvancesTransitive(r, popped, cleaned);
      RefreshAllAdvances(cleaned, s.symbol, ask);
      AdvancesTransitive(r, cleaned, RefreshAll(cleaned, s.symbol, ask));
    } else {
      RefreshAllAdvances(popped, s.symbol, ask);
      AdvancesTransitive(r, popped, RefreshAll(popped, s.symbol, ask));
    }
  }

  lemma {:induction false} SettleEndAdvances(r: Runtime, s: Status)
    requires Sound(r)
    ensures Advances(r, SettleEnd(r, s))
  {
    if s.lifecycle == ClosedBySignal {
      CompleteAdvances(r, EndTarget(s), Close);
    } else if Retryable(s) {
      RetryAdvances(r, EndTarget(s));
    } else {
      var started := CompleteMatching(r, EndTarget(s), Open);
      CompleteAdvances(r, EndTarget(s), Open);
      if s.lifecycle == ClosedByStopLoss {
        CompleteAdvances(started, EndTarget(s), Close);
        AdvancesTransitive(r, started, SettleEnd(r, s));
      }
    }
  }

  lemma ReportEndAdvances(r: Runtime, s: Status, ask: Oracle)
    requires Sound(r)
    ensures Advances(r, ReportEnd(r, s, ask))
  {
    QuietAdvances(r, r);
    var settled := SettleEnd(r, s);
    SettleEndAdvances(r, s);
    if s.lifecycle == Rejected {
      RefreshAllAdvances(settled, s.symbol, ask);
      AdvancesTransitive(r, settled, RefreshAll(settled, s.symbol, ask));
    } else {
      var existing := FindKey(settled.positions, s.client, s.clientPositionId, PositionIdOf(s), ClusterOf(s));
      if existing.Some? {
        ClosePositionAdvances(settled, s, existing.value, ask);
        AdvancesTransitive(r, settled, ClosePosition(settled, s, existing.value, ask));
      }
    }
  }

  lemma UpdateAdvances(r: Runtime, s: Status, ask: Oracle)
    requires Sound(r)
    ensures Advances(r, Update(r, s, ask))
  {
    var r0 := Known(r, s.client);
    QuietAdvances(r, r0);
    if !Invalid(s) {
      ReportOpenAdvances(r0, s, ask);
      ReportEndAdvances(r0, s, ask);
      AdvancesTransitive(r, r0, ReportOpen(r0, s, ask));
      AdvancesTransitive(r, r0, ReportEnd(r0, s, ask));
    }
  }

  lemma ConfigureKey(r: Runtime, active: set<string>, timeframes: map<string, seq<string>>, k: CommandKey)
    requires Sound(r)
    ensures Ledger(ConfigureSessions(r, active, timeframes), k)
    ensures k.symbol in active ==> Lasting(r, ConfigureSessions(r, active, timeframes), k)
  {
    NoteCounts((set k | k in r.sent && k.symbol !in active), Purge);
    assert Ledger(r, k);
  }

  lemma ConfigureSound(r: Runtime, active: set<string>, timeframes: map<string, seq<string>>)
    requires Sound(r)
    ensures Sound(ConfigureSessions(r, active, timeframes))
    ensures forall k: CommandKey :: k.symbol in active ==> Lasting(r, ConfigureSessions(r, active, timeframes), k)
  {
    forall k: CommandKey
      ensures Ledger(ConfigureSessions(r, active, timeframes), k)
      ensures k.symbol in active ==> Lasting(r, ConfigureSessions(r, active, timeframes), k)
    {
      ConfigureKey(r, active, timeframes, k);
    }
  }

  /** The operation keeps the symbol in the session. */
  predicate KeepsSymbol(op: Op, symbol: string) {
    op.DoConfigure? ==> symbol in op.active
  }

  lemma StepSound(r: Runtime, op: Op)
    requires Sound(r)
    ensures Sound(Step(r, op))
    ensures forall k: CommandKey :: KeepsSymbol(op, k.symbol) ==> Lasting(r, Step(r, op), k)
  {
    match op
    case DoPoll(client, symbols, requested, ask) =>
      QuietAdvances(r, Known(r, client));
      PollEachAdvances(Known(r, client), client, symbols, requested, ask);
      AdvancesTransitive(r, Known(r, client), Poll(r, client, symbols, requested, ask));
    case DoUpdate(status, ask) => UpdateAdvances(r, status, ask);
    case DoTrigger(symbol, ask) => RefreshEachAdvances(r, AllKeys(r.clients, symbol, TimeframesOf(r, symbol)), ask);
    case DoConfigure(active, timeframes) => ConfigureSound(r, active, timeframes);
  }

  /** Main result: in every reachable state sent keys are pending, pending and completed keys never
      meet, and every dispatch of a key is accounted for: it is in flight, or it was completed,
      returned by a retryable rejection, removed, or purged with its symbol. */
  lemma {:induction false} RunSound(ops: seq<Op>)
    ensures Sound(Run(ops))
  {
    if ops != [] {
      RunSound(ops[..|ops| - 1]);
      StepSound(Run(ops[..|ops| - 1]), ops[|ops| - 1]);
    }
  }

  lemma {:induction false} RunLasting(ops: seq<Op>, from: nat, k: CommandKey)
    requires from <= |ops| && forall i :: from <= i < |ops| ==> KeepsSymbol(ops[i], k.symbol)
    ensures Lasting(Run(ops[..from]), Run(ops), k)
  {
    if from == |ops| {
      assert ops[..from] == ops;
    } else {
      var before := ops[..|ops| - 1];
      assert before[..from] == ops[..from];
      RunLasting(before, from, k);
      RunSound(before);
      StepSound(Run(before), ops[|ops| - 1]);
      assert Lasting(Run(before), Run(ops), k);
    }
  }

  /** Main result: while its symbol stays active, a completed key is never dispatched again. */
  lemma {:induction false} CompletedStaysDone(ops: seq<Op>, from: nat, k: CommandKey)
    requires from <= |ops| && forall i :: from <= i < |ops| ==> KeepsSymbol(ops[i], k.symbol)
    requires k in Run(ops[..from]).completed
    ensures k in Run(ops).completed
    ensures Run(ops).log[Dispatched(k)] == Run(ops[..from]).log[Dispatched(k)]
  {
    RunLasting(ops, from, k);
  }

  function Once(b: bool): int { if b then 1 else 0 }

  /** How often a note was written between two states. */
  function Gained(r: Runtime, r': Runtime, n: Note): int { r'.log[n] as int - r.log[n] as int }

  /** Main result: from any point on, while its symbol stays active, a key is dispatched at most once,
      not at all if it was in flight or completed at that point, plus the retryable rejections and
      removals that take it out of flight in between; a close key has neither. */
  lemma {:induction false} DispatchedAtMostOnce(ops: seq<Op>, from: nat, k: CommandKey)
    requires from <= |ops| && forall i :: from <= i < |ops| ==> KeepsSymbol(ops[i], k.symbol)
    ensures var r, r' := Run(ops[..from]), Run(ops);
            var retried, removed := Gained(r, r', Landed(k, Retry)), Gained(r, r', Landed(k, Removal));
            && 0 <= retried && 0 <= removed && (k.kind == Close ==> retried == removed == 0)
            && Gained(r, r', Dispatched(k)) + Once(k in r.sent || k in r.completed) <= 1 + retried + removed
  {
    RunLasting(ops, from, k);
    RunSound(ops[..from]);
    RunSound(ops);
    assert Ledger(Run(ops[..from]), k) && Ledger(Run(ops), k);
  }
}
