/** The runtime's command bookkeeping as it runs: dictionaries and sets updated in place, each
    method proved against the functions of CommandModel. */
module ExecutionRuntime {
  import opened Wrappers
  import opened CommandModel

  lemma {:induction false} KeysStep(clients: seq<string>, i: nat, symbol: string, timeframes: seq<string>)
    requires i < |clients|
    ensures AllKeys(clients[..i + 1], symbol, timeframes)
         == AllKeys(clients[..i], symbol, timeframes) + ClientKeys(clients[i], symbol, timeframes)
  {
    assert clients[..i + 1][..i] == clients[..i];
  }

  lemma RefreshEachStep(r: Runtime, keys: seq<EvalKey>, key: EvalKey, ask: Oracle)
    ensures RefreshEach(r, keys + [key], ask) == Refresh(RefreshEach(r, keys, ask), key, ask)
  {
    assert (keys + [key])[..|keys|] == keys;
  }

  lemma {:induction false} RefreshEachAppend(r: Runtime, a: seq<EvalKey>, b: seq<EvalKey>, ask: Oracle)
    ensures RefreshEach(r, a + b, ask) == RefreshEach(RefreshEach(r, a, ask), b, ask)
  {
    if b == [] {
      assert a + b == a;
    } else {
      RefreshEachAppend(r, a, b[..|b| - 1], ask);
      assert (a + b)[..|a + b| - 1] == a + b[..|b| - 1];
    }
  }

  lemma RefreshClientStep(r: Runtime, clients: seq<string>, i: nat, symbol: string, active: seq<string>, ask: Oracle)
    requires i < |clients|
    ensures RefreshEach(r, AllKeys(clients[..i + 1], symbol, active), ask)
         == RefreshEach(RefreshEach(r, AllKeys(clients[..i], symbol, active), ask),
                        ClientKeys(clients[i], symbol, active), ask)
  {
    KeysStep(clients, i, symbol, active);
    RefreshEachAppend(r, AllKeys(clients[..i], symbol, active), ClientKeys(clients[i], symbol, active), ask);
  }

  class Commands {
    var pending: map<CommandKey, Command>
    var sent: set<CommandKey>
    var completed: set<CommandKey>
    var initialized: set<EvalKey>
    var clients: seq<string>
    var activeSymbols: set<string>
    var timeframes: map<string, seq<string>>
    var positions: seq<(PositionKey, Position)>
    ghost var log: multiset<Note>

    ghost function Value(): Runtime
      reads this
    {
      Runtime(pending, sent, completed, initialized, clients, activeSymbols, timeframes, positions, log)
    }

    constructor ()
      ensures Value() == Fresh
    {
      pending, sent, completed, initialized := map[], {}, {}, {};
      clients, activeSymbols, timeframes, positions, log := [], {}, map[], [], multiset{};
    }

    method RefreshCommands(key: EvalKey, ask: Oracle)
      modifies this`pending
      ensures Value() == Refresh(old(Value()), key, ask)
    {
      if exists k :: k in pending && k in sent && EvalOf(pending[k]) == key {
        return;
      }
      var commands := ask(key);
      ghost var before := pending;
      for i := 0 to |commands|
        invariant pending == Enqueue(before, completed, commands[..i])
      {
        assert commands[..i + 1][..i] == commands[..i];
        var k := KeyOf(commands[i]);
        if k !in completed && k !in pending {
          pending := pending[k := commands[i]];
        }
      }
      assert commands[..|commands|] == commands;
    }

    method RefreshClient(client: string, symbol: string, active: seq<string>, ask: Oracle)
      modifies this`pending
      ensures Value() == RefreshEach(old(Value()), ClientKeys(client, symbol, active), ask)
    {
      ghost var r, keys := Value(), ClientKeys(client, symbol, active);
      for j := 0 to |active|
        invariant Value() == RefreshEach(r, keys[..j], ask)
      {
        assert keys[..j + 1] == keys[..j] + [keys[j]];
        RefreshEachStep(r, keys[..j], keys[j], ask);
        RefreshCommands(EvalKey(client, symbol, active[j]), ask);
      }
      assert keys[..|active|] == keys;
    }

    method RefreshAllForSymbol(symbol: string, ask: Oracle)
      modifies this`pending
      ensures Value() == RefreshAll(old(Value()), symbol, ask)
    {
      var active := if symbol in timeframes then timeframes[symbol] else [];
      ghost var r := Value();
      for i := 0 to |clients|
        invariant Value() == RefreshEach(r, AllKeys(clients[..i], symbol, active), ask)
      {
        RefreshClientStep(r, clients, i, symbol, active, ask);
        RefreshClient(clients[i], symbol, active, ask);
      }
      assert clients[..|clients|] == clients;
    }

    method AddClient(client: string)
      modifies this`clients
      ensures Value() == Known(old(Value()), client)
    {
      if client !in clients {
        clients := clients + [client];
      }
    }

    /** Marks every undispatched command of the evaluation as sent and returns the commands. */
    method Dispatch(key: EvalKey) returns (out: set<CommandKey>)
      modifies this`sent, this`log
      ensures out == Undispatched(old(Value()), key)
      ensures Value() == old(Value()).(sent := old(sent) + out, log := old(log) + DispatchNotes(out))
    {
      out := set k | k in pending && k !in sent && EvalOf(pending[k]) == key;
      var rest := out;
      while rest != {}
        invariant rest <= out && sent == old(sent) + (out - rest) && log == old(log)
      {
        var k :| k in rest;
        sent := sent + {k};
        rest := rest - {k};
      }
      log := log + DispatchNotes(out);
    }

    method PollOne(client: string, symbol: string, requested: string, ask: Oracle) returns (out: set<CommandKey>)
      modifies this
      ensures Value() == PollSymbol(old(Value()), client, symbol, requested, ask)
      ensures out == Value().sent - old(sent)
    {
      out := {};
      var active := if symbol in timeframes then timeframes[symbol] else [];
      var primary := if requested != "" then requested else if active != [] then active[0] else "";
      if symbol == "" || primary == "" || primary !in active {
        return;
      }
      var key := EvalKey(client, symbol, primary);
      if key !in initialized {
        initialized := initialized + {key};
        RefreshCommands(key, ask);
      }
      out := Dispatch(key);
    }

    /** The execution command poll of a client over the given symbols. */
    method CommandPayloads(client: string, symbols: seq<string>, requested: string,
                           ask: Oracle) returns (out: set<CommandKey>)
      modifies this
      ensures Value() == Poll(old(Value()), client, symbols, requested, ask)
      ensures out == Value().sent - old(sent)
    {
      AddClient(client);
      out := {};
      ghost var r := Value();
      for i := 0 to |symbols|
        invariant Value() == PollEach(r, client, symbols[..i], requested, ask)
        invariant old(sent) <= sent && out == sent - old(sent)
      {
        assert symbols[..i + 1][..i] == symbols[..i];
        ghost var before := sent;
        var more := PollOne(client, symbols[i], requested, ask);
        SentGrows(PollEach(r, client, symbols[..i], requested, ask), client, symbols[i], requested, ask);
        out := out + more;
      }
      assert symbols[..|symbols|] == symbols;
    }

    lemma SentGrows(r: Runtime, client: string, symbol: string, requested: string, ask: Oracle)
      ensures r.sent <= PollSymbol(r, client, symbol, requested, ask).sent
    {
    }

    /** Walks over the pending commands and settles each match. */
    method SettleMatches(t: Target, kind: CommandType, complete: bool) returns (matched: bool)
      modifies this`pending, this`sent, this`completed
      ensures var hit := Matching(old(Value()), t, kind);
              && matched == (hit != {})
              && sent == old(sent) - hit
              && pending == (if complete then old(pending) - hit else old(pending))
              && completed == (if complete then old(completed) + hit else old(completed))
    {
      matched := false;
      ghost var hit := Matching(Value(), t, kind);
      ghost var done: set<CommandKey> := {};
      var items := pending;
      var rest := items.Keys;
      while rest != {}
        invariant rest <= items.Keys && done == hit - rest
        invariant matched == (done != {})
        invariant sent == old(sent) - done
        invariant pending == if complete then items - done else items
        invariant completed == if complete then old(completed) + done else old(completed)
      {
        var k :| k in rest;
        assert k in hit <==> Matches(k, items[k], t, kind);
        if Matches(k, items[k], t, kind) {
          matched := true;
          sent := sent - {k};
          if complete {
            pending := pending - {k};
            completed := completed + {k};
          }
          done := done + {k};
        }
        rest := rest - {k};
      }
      assert done == hit;
    }

    method CompleteMatchingCommands(t: Target, kind: CommandType, complete: bool) returns (matched: bool)
      requires complete || kind == Open
      modifies this`pending, this`sent, this`completed, this`log
      ensures matched == (Matching(old(Value()), t, kind) != {})
      ensures Value() == if complete then CompleteMatching(old(Value()), t, kind) else RetryMatching(old(Value()), t)
    {
      ghost var was, hit := Value(), Matching(Value(), t, kind);
      ghost var inFlight := hit * sent;
      matched := SettleMatches(t, kind, complete);
      if complete {
        log := log + LandNotes(inFlight, Completion) + FinishNotes(hit);
        assert log == was.log + LandNotes(inFlight, Completion) + FinishNotes(hit);
      } else {
        log := log + LandNotes(inFlight, Retry);
      }
    }

    method RemovePendingOpenCommands(symbol: string, timeframe: string, side: Option<TradeSide>, maxTime: Option<int>)
      modifies this`pending, this`sent, this`log
      ensures Value() == RemovePendingOpen(old(Value()), symbol, timeframe, side, maxTime)
    {
      var items := pending;
      ghost var gone := set k | k in items && Removable(items[k], symbol, timeframe, side, maxTime);
      var rest := items.Keys;
      while rest != {}
        invariant rest <= items.Keys && log == old(log)
        invariant sent == old(sent) - (gone - rest) && pending == items - (gone - rest)
      {
        var k :| k in rest;
        var c := items[k];
        var time := if c.dominanceTime != 0 then c.dominanceTime
                    else if c.signalTime != 0 then c.signalTime else c.sourceCloseTime;
        if c.kind == Open && c.symbol == symbol && c.timeframe == timeframe
           && (side.None? || c.side == side.value) && (maxTime.None? || time <= maxTime.value) {
          pending := pending - {k};
          sent := sent - {k};
          assert gone - (rest - {k}) == (gone - rest) + {k};
        } else {
          assert gone - (rest - {k}) == gone - rest;
        }
        rest := rest - {k};
      }
      assert gone - rest == gone;
      log := log + LandNotes(gone * old(sent), Removal);
    }

    method FilePosition(s: Status) returns (known: Option<Position>, p: Position)
      requires s.side.Some?
      modifies this`positions
      ensures known == KnownPosition(old(Value()), s) && p == Reported(s, known)
      ensures positions == Refile(old(positions), OnFile(old(Value()), s), PositionKey(s.client, p.clientPositionId), p)
    {
      var existing := FindKey(positions, s.client, s.clientPositionId, PositionIdOf(s), ClusterOf(s));
      known := if existing.Some? then Get(positions, existing.value) else None;
      p := Reported(s, known);
      var key := PositionKey(s.client, p.clientPositionId);
      if existing.Some? && existing.value != key {
        positions := Pop(positions, existing.value);
      }
      positions := Put(positions, key, p);
    }

    method ReportOpened(s: Status, ask: Oracle)
      requires s.side.Some?
      modifies this
      ensures Value() == ReportOpen(old(Value()), s, ask)
    {
      var known, p := FilePosition(s);
      var t := Target(s.client, s.symbol, s.timeframe, s.requestId, p.positionId, p.clientPositionId);
      var _ := CompleteMatchingCommands(t, Open, true);
      if s.lifecycle == StillOpen && s.rejectionReason != "" {
        var _ := CompleteMatchingCommands(t, Close, true);
      }
      if s.timeframe != "" {
        RemovePendingOpenCommands(s.symbol, s.timeframe, s.side, None);
      }
      if known.None? || SignatureOf(known.value) != SignatureOf(p) {
        RefreshAllForSymbol(s.symbol, ask);
      }
    }

    method ReportEnded(s: Status, ask: Oracle)
      modifies this
      ensures Value() == ReportEnd(old(Value()), s, ask)
    {
      var t := Target(s.client, s.symbol, s.timeframe, s.requestId, PositionIdOf(s), s.clientPositionId);
      if s.lifecycle == ClosedBySignal {
        var matched := CompleteMatchingCommands(t, Close, true);
        if !matched {
          assert CompletingNothing(old(Value()), t);
          return;
        }
      } else {
        var _ := CompleteMatchingCommands(t, Open, !Retryable(s));
      }
      if s.lifecycle == ClosedByStopLoss {
        var _ := CompleteMatchingCommands(t, Close, true);
      }
      assert Value() == SettleEnd(old(Value()), s);
      var existing := FindKey(positions, s.client, s.clientPositionId, PositionIdOf(s), ClusterOf(s));
      if existing.None? {
        if s.lifecycle == Rejected {
          RefreshAllForSymbol(s.symbol, ask);
        }
      } else if s.lifecycle != Rejected {
        CloseFiled(s, existing.value, ask);
      }
    }

    method CloseFiled(s: Status, key: PositionKey, ask: Oracle)
      modifies this
      ensures Value() == ClosePosition(old(Value()), s, key, ask)
    {
      var cutoff := if s.signalTime > 0 then s.signalTime else s.now;
      positions := Pop(positions, key);
      if s.timeframe != "" && cutoff > 0 {
        RemovePendingOpenCommands(s.symbol, s.timeframe, None, Some(cutoff));
      }
      RefreshAllForSymbol(s.symbol, ask);
    }

    /** Completing without a match changes nothing. */
    ghost predicate CompletingNothing(r: Runtime, t: Target) {
      Matching(r, t, Close) == {} ==> CompleteMatching(r, t, Close) == r
    }

    method UpdatePositionStatus(s: Status, ask: Oracle)
      modifies this
      ensures Value() == Update(old(Value()), s, ask)
    {
      AddClient(s.client);
      if Invalid(s) {
        return;
      }
      if s.lifecycle == Opened || s.lifecycle == StillOpen {
        ReportOpened(s, ask);
      } else if s.lifecycle == ClosedByStopLoss || s.lifecycle == ClosedBySignal || s.lifecycle == Rejected {
        ReportEnded(s, ask);
      }
    }

    /** Drops every command of an inactive symbol, from each store in turn. */
    method DropCommands(active: set<string>)
      modifies this`pending, this`sent, this`completed, this`log
      ensures log == old(log) + LandNotes(old(sent) - KeepKeys(old(sent), active), Purge)
      ensures pending == KeepPending(old(pending), active)
      ensures sent == KeepKeys(old(sent), active) && completed == KeepKeys(old(completed), active)
    {
      log := log + LandNotes(sent - KeepKeys(sent, active), Purge);
      ghost var was, notes := pending.Keys, log;
      var rest := pending.Keys;
      while rest != {}
        invariant log == notes && rest <= was
        invariant pending == map k | k in old(pending) && (k in rest || k.symbol in active) :: old(pending)[k]
        invariant sent <= old(sent) && KeepKeys(sent, active) == KeepKeys(old(sent), active)
        invariant completed <= old(completed) && KeepKeys(completed, active) == KeepKeys(old(completed), active)
      {
        var k :| k in rest;
        if k.symbol !in active {
          pending, sent, completed := pending - {k}, sent - {k}, completed - {k};
        }
        rest := rest - {k};
      }
      sent := DropKeys(sent, active);
      completed := DropKeys(completed, active);
    }

    method Reconfigure(active: set<string>, activeTimeframes: map<string, seq<string>>)
      modifies this
      ensures Value() == ConfigureSessions(old(Value()), active, activeTimeframes)
    {
      DropInactive(active);
      activeSymbols, timeframes := active, activeTimeframes;
    }

    method DropInactive(active: set<string>)
      modifies this`positions, this`initialized, this`pending, this`sent, this`completed, this`log
      ensures Value() == ConfigureSessions(old(Value()), active, timeframes).(activeSymbols := activeSymbols)
    {
      positions := KeepPositions(positions, active);
      initialized := DropEvaluations(initialized, active);
      DropCommands(active);
    }
  }

  method DropKeys(keys: set<CommandKey>, active: set<string>) returns (kept: set<CommandKey>)
    ensures kept == KeepKeys(keys, active)
  {
    kept := keys;
    var rest := keys;
    while rest != {}
      invariant rest <= kept <= keys && KeepKeys(kept, active) == KeepKeys(keys, active)
      invariant forall k :: k in kept ==> k in rest || k.symbol in active
    {
      var k :| k in rest;
      if k.symbol !in active {
        kept := kept - {k};
      }
      rest := rest - {k};
    }
  }

  method DropEvaluations(keys: set<EvalKey>, active: set<string>) returns (kept: set<EvalKey>)
    ensures kept == KeepEvaluations(keys, active)
  {
    kept := keys;
    var rest := keys;
    while rest != {}
      invariant rest <= kept <= keys && KeepEvaluations(kept, active) == KeepEvaluations(keys, active)
      invariant forall k :: k in kept ==> k in rest || k.symbol in active
    {
      var k :| k in rest;
      if k.symbol !in active {
        kept := kept - {k};
      }
      rest := rest - {k};
    }
  }
}
