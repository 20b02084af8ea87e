/** What a poll and a trigger do to the commands, told from the poll, the timeframes and the keys alone; and
    which position on file a report is about. */
module CommandPolls {
  import opened Wrappers
  import opened CommandModel
  import opened CommandProtocol
  import opened CommandFlights

  // ----- polls -----

  /** The timeframe a poll asks for on a symbol: the requested one, else the first active one. */
  predicate AsksFor(r: Runtime, requested: string, symbol: string, timeframe: string) {
    && symbol != "" && timeframe != "" && symbol in r.timeframes && timeframe in r.timeframes[symbol]
    && timeframe == if requested != "" then requested else r.timeframes[symbol][0]
  }

  predicate Asked(r: Runtime, client: string, symbols: seq<string>, requested: string, k: CommandKey) {
    k.client == client && k.symbol in symbols && AsksFor(r, requested, k.symbol, k.timeframe)
  }

  /** One symbol whose timeframe is asked for: the oracle may be asked, then everything pending is sent. */
  lemma PollKeySends(r: Runtime, key: EvalKey, ask: Oracle, k: CommandKey)
    requires Sound(r) && Honest(ask)
    ensures var ready := Initialize(r, key, ask);
            var sent := ready.sent + Undispatched(ready, key);
            && (k in r.pending ==> k in ready.pending)
            && (k in ready.pending && k !in r.pending ==> EvalKey(k.client, k.symbol, k.timeframe) == key)
            && (k in sent <==> k in r.sent || (k in ready.pending && EvalKey(k.client, k.symbol, k.timeframe) == key))
  {
    var marked := r.(initialized := r.initialized + {key});
    var ready := Initialize(r, key, ask);
    QuietAdvances(r, marked);
    RefreshAdvances(marked, key, ask);
    EnqueueFacts(r.pending, r.completed, ask(key));
    if k in ready.pending {
      EvalOfKey(ready, k);
      assert k !in r.pending ==> ready.pending[k] in ask(key) && EvalOf(ready.pending[k]) == key;
    }
  }

  lemma EvalOfKey(r: Runtime, k: CommandKey)
    requires Consistent(r) && k in r.pending
    ensures EvalOf(r.pending[k]) == EvalKey(k.client, k.symbol, k.timeframe)
  {
    assert KeyOf(r.pending[k]) == k;
  }

  lemma PollSymbolKeeps(r: Runtime, client: string, symbol: string, requested: string, ask: Oracle, k: CommandKey)
    requires Sound(r) && Honest(ask)
    ensures var r' := PollSymbol(r, client, symbol, requested, ask);
            var asked := k.client == client && k.symbol == symbol && AsksFor(r, requested, symbol, k.timeframe);
            && r'.timeframes == r.timeframes
            && (k in r.pending ==> k in r'.pending) && (k in r'.pending && k !in r.pending ==> asked)
            && (k in r'.sent <==> k in r.sent || (k in r'.pending && asked))
  {
    var primary := Primary(r, requested, symbol);
    AskedIsPrimary(r, requested, symbol, k.timeframe);
    if symbol != "" && primary != "" && primary in TimeframesOf(r, symbol) {
      var key := EvalKey(client, symbol, primary);
      var ready, r' := Initialize(r, key, ask), PollSymbol(r, client, symbol, requested, ask);
      PollKeySends(r, key, ask, k);
      assert r'.pending == ready.pending && r'.sent == ready.sent + Undispatched(ready, key);
      assert r'.timeframes == r.timeframes;
    }
  }

  function Primary(r: Runtime, requested: string, symbol: string): string {
    var active := TimeframesOf(r, symbol);
    if requested != "" then requested else if active != [] then active[0] else ""
  }

  lemma AskedIsPrimary(r: Runtime, requested: string, symbol: string, timeframe: string)
    ensures AsksFor(r, requested, symbol, timeframe)
       <==> symbol != "" && Primary(r, requested, symbol) != "" && timeframe == Primary(r, requested, symbol)
            && timeframe in TimeframesOf(r, symbol)
  {
  }

  /** Main result: a poll leaves in flight exactly what was in flight before and every pending command of the
      polling client on a polled symbol and the timeframe asked for. */
  lemma {:induction false} PollSends(r: Runtime, client: string, symbols: seq<string>, requested: string,
                                     ask: Oracle, k: CommandKey)
    requires Sound(r) && Honest(ask)
    ensures var r' := Poll(r, client, symbols, requested, ask);
            k in r'.sent <==> k in r.sent || (k in r'.pending && Asked(r, client, symbols, requested, k))
  {
    QuietAdvances(r, Known(r, client));
    PollEachSends(Known(r, client), client, symbols, requested, ask, k);
  }

  lemma {:induction false} PollEachSends(r: Runtime, client: string, symbols: seq<string>, requested: string,
                                         ask: Oracle, k: CommandKey)
    requires Sound(r) && Honest(ask)
    ensures var r' := PollEach(r, client, symbols, requested, ask);
            && r'.timeframes == r.timeframes
            && (k in r'.sent <==> k in r.sent || (k in r'.pending && Asked(r, client, symbols, requested, k)))
  {
    if symbols != [] {
      var front, symbol := symbols[..|symbols| - 1], symbols[|symbols| - 1];
      PollEachSends(r, client, front, requested, ask, k);
      PollEachAdvances(r, client, front, requested, ask);
      PollSymbolKeeps(PollEach(r, client, front, requested, ask), client, symbol, requested, ask, k);
      assert symbols == front + [symbol];
    }
  }

  /** The first poll of an evaluation key without a command in flight asks the oracle and sends its answer. */
  lemma FirstPollAsks(r: Runtime, client: string, symbol: string, requested: string, timeframe: string,
                      ask: Oracle, c: Command)
    requires Sound(r) && Honest(ask) && AsksFor(r, requested, symbol, timeframe)
    requires var key := EvalKey(client, symbol, timeframe);
             key !in r.initialized && !InFlight(r, key) && c in ask(key) && KeyOf(c) !in r.completed
    ensures KeyOf(c) in PollSymbol(r, client, symbol, requested, ask).sent
  {
    var key := EvalKey(client, symbol, timeframe);
    EnqueueAll(r.pending, r.completed, ask(key), c);
    PollKeySends(r, key, ask, KeyOf(c));
    assert EvalOf(c) == key;
    assert Initialize(r, key, ask).pending == Enqueue(r.pending, r.completed, ask(key)) by {
      assert InFlight(r.(initialized := r.initialized + {key}), key) <==> InFlight(r, key);
    }
    assert PollSymbol(r, client, symbol, requested, ask).sent
        == Initialize(r, key, ask).sent + Undispatched(Initialize(r, key, ask), key);
  }

  lemma {:induction false} EnqueueAll(pending: map<CommandKey, Command>, completed: set<CommandKey>,
                                      commands: seq<Command>, c: Command)
    requires c in commands && KeyOf(c) !in completed
    ensures KeyOf(c) in Enqueue(pending, completed, commands)
  {
    var front, last := commands[..|commands| - 1], commands[|commands| - 1];
    assert commands == front + [last];
    if c in front {
      EnqueueAll(pending, completed, front, c);
    }
  }

  // ----- triggers -----

  lemma {:induction false} AllKeysAre(clients: seq<string>, symbol: string, timeframes: seq<string>)
    ensures forall key :: key in AllKeys(clients, symbol, timeframes)
                     <==> key.client in clients && key.symbol == symbol && key.timeframe in timeframes
  {
    if clients != [] {
      var front, last := clients[..|clients| - 1], clients[|clients| - 1];
      AllKeysAre(front, symbol, timeframes);
      assert clients == front + [last];
      forall key
        ensures key in ClientKeys(last, symbol, timeframes)
           <==> key.client == last && key.symbol == symbol && key.timeframe in timeframes
      {
        if key.client == last && key.symbol == symbol && key.timeframe in timeframes {
          var i :| 0 <= i < |timeframes| && timeframes[i] == key.timeframe;
          assert ClientKeys(last, symbol, timeframes)[i] == key;
        }
      }
    }
  }

  lemma {:induction false} RefreshEachQueuesAll(r: Runtime, keys: seq<EvalKey>, ask: Oracle, key: EvalKey, c: Command)
    requires Sound(r) && Honest(ask) && key in keys && !InFlight(r, key)
    requires c in ask(key) && KeyOf(c) !in r.completed
    ensures KeyOf(c) in RefreshEach(r, keys, ask).pending
  {
    var front, last := keys[..|keys| - 1], keys[|keys| - 1];
    var before := RefreshEach(r, front, ask);
    assert keys == front + [last];
    RefreshSparesFlights(r, front, ask);
    RefreshEachAdvances(r, front, ask);
    RefreshEachCompleted(r, front, ask);
    EnqueueFacts(before.pending, before.completed, ask(last));
    if key in front {
      RefreshEachQueuesAll(r, front, ask, key, c);
    } else {
      EnqueueAll(before.pending, before.completed, ask(last), c);
    }
  }

  lemma {:induction false} RefreshEachCompleted(r: Runtime, keys: seq<EvalKey>, ask: Oracle)
    ensures RefreshEach(r, keys, ask).completed == r.completed
  {
    if keys != [] {
      RefreshEachCompleted(r, keys[..|keys| - 1], ask);
    }
  }

  /** Main result: a trigger on a symbol queues every command the oracle has for any known client on any of
      its active timeframes, unless the command is completed or its evaluation key has one in flight. */
  lemma TriggerQueuesAll(r: Runtime, symbol: string, ask: Oracle, client: string, timeframe: string, c: Command)
    requires Sound(r) && Honest(ask) && client in r.clients
    requires symbol in r.timeframes && timeframe in r.timeframes[symbol]
    requires var key := EvalKey(client, symbol, timeframe);
             !InFlight(r, key) && c in ask(key) && KeyOf(c) !in r.completed
    ensures KeyOf(c) in RefreshAll(r, symbol, ask).pending
  {
    AllKeysAre(r.clients, symbol, r.timeframes[symbol]);
    RefreshEachQueuesAll(r, AllKeys(r.clients, symbol, r.timeframes[symbol]), ask, EvalKey(client, symbol, timeframe),
                         c);
  }

  // ----- the position a report is about -----

  predicate Identifies(p: Position, ids: set<string>) { p.positionId in ids || p.requestId in ids }

  /** `n` is the first position of the client that one of the ids identifies, or the length of the list. */
  predicate FirstIdentified(ps: seq<(PositionKey, Position)>, client: string, ids: set<string>, n: nat) {
    && n <= |ps| && (forall i :: 0 <= i < n ==> !(ps[i].0.client == client && Identifies(ps[i].1, ids)))
    && (n < |ps| ==> ps[n].0.client == client && Identifies(ps[n].1, ids))
  }

  lemma {:induction false} FindFirstIsFirst(ps: seq<(PositionKey, Position)>, client: string, a: string, b: string)
    returns (n: nat)
    ensures FirstIdentified(ps, client, {a, b}, n)
    ensures FindFirst(ps, client, a, b) == if n < |ps| then Some(ps[n].0) else None
  {
    if ps == [] || (ps[0].0.client == client && Identifies(ps[0].1, {a, b})) {
      n := 0;
    } else {
      var m := FindFirstIsFirst(ps[1..], client, a, b);
      n := m + 1;
    }
  }

  /** A report is about the position filed under the client's own id, if there is one; else about the first of
      its client that the position id or the cluster id identifies, by position id or request id. */
  lemma OnFileMeans(r: Runtime, s: Status)
    ensures var own := PositionKey(s.client, s.clientPositionId);
            var id := if s.positionId == "" && s.clientPositionId != "" then s.ownId else s.positionId;
            var cluster := if s.clusterId != "" then s.clusterId
                           else if s.requestId != "" then s.requestId else s.positionId;
            if s.clientPositionId != "" && Get(r.positions, own).Some? then OnFile(r, s) == Some(own)
            else exists n: nat :: FirstIdentified(r.positions, s.client, {id, cluster}, n)
                             && OnFile(r, s) == if n < |r.positions| then Some(r.positions[n].0) else None
  {
    var n := FindFirstIsFirst(r.positions, s.client, PositionIdOf(s), ClusterOf(s));
  }

  /** What a report says wins over what is on file, and what it leaves open is taken from there. */
  lemma ReportedFields(s: Status, known: Option<Position>)
    requires s.side.Some?
    ensures var p := Reported(s, known);
            && p.client == s.client && p.symbol == s.symbol && p.timeframe == s.timeframe && Some(p.side) == s.side
            && p.positionId == (if s.positionId == "" && s.clientPositionId != "" then s.ownId else s.positionId)
            && (s.clientPositionId != "" ==> p.clientPositionId == s.clientPositionId)
            && (s.identifier != "" ==> p.identifier == s.identifier)
            && (s.profit.Some? ==> p.profit == s.profit) && (s.entryPrice.Some? ==> p.entryPrice == s.entryPrice)
            && (s.openedAt > 0 ==> p.openedAt == s.openedAt)
    ensures known.None? ==>
              var p := Reported(s, known);
              && p.identifier == s.identifier && p.requestId == s.requestId && p.profit == s.profit
              && p.entryPrice == s.entryPrice && (s.openedAt <= 0 ==> p.openedAt == s.signalTime)
              && (s.clientPositionId == "" ==> p.clientPositionId == p.positionId)
    ensures known.Some? ==>
              var p, k := Reported(s, known), known.value;
              && (s.clientPositionId == "" && k.clientPositionId != "" ==> p.clientPositionId == k.clientPositionId)
              && (s.clientPositionId == k.clientPositionId == "" ==> p.clientPositionId == p.positionId)
              && (s.identifier == "" ==> p.identifier == k.identifier)
              && (s.profit.None? ==> p.profit == k.profit) && (s.entryPrice.None? ==> p.entryPrice == k.entryPrice)
              && (s.openedAt <= 0 ==> p.openedAt == if s.signalTime > 0 then s.signalTime else k.openedAt)
              && (p.requestId == if s.requestId == "" || (s.lifecycle == StillOpen && s.rejectionReason != ""
                                                          && k.requestId != "")
                                 then k.requestId else s.requestId)
  {
  }
}
