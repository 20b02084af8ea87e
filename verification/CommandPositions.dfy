/** The open positions in the order the dictionary iterates them: over every run their keys stay distinct,
    each the key of its own position, so access to the list is access to a dictionary. */
module CommandPositions {
  import opened Wrappers
  import opened CommandModel

  type Positions = seq<(PositionKey, Position)>

  /** The dictionary that a list stands for. */
  function AsMap(ps: Positions): map<PositionKey, Position> {
    if ps == [] then map[] else AsMap(ps[1..])[ps[0].0 := ps[0].1]
  }

  ghost predicate Distinct(ps: Positions) {
    ps != [] ==> ps[0].0 !in AsMap(ps[1..]) && Distinct(ps[1..])
  }

  /** Every position is filed under its own client and client position id. */
  ghost predicate Filed(ps: Positions) {
    forall k :: k in AsMap(ps) ==> k == PositionKey(AsMap(ps)[k].client, AsMap(ps)[k].clientPositionId)
  }

  ghost predicate Dictionary(ps: Positions) { Distinct(ps) && Filed(ps) }

  // ----- access -----

  lemma {:induction false} GetIsLookup(ps: Positions, key: PositionKey)
    ensures Get(ps, key) == if key in AsMap(ps) then Some(AsMap(ps)[key]) else None
  {
    if ps != [] {
      GetIsLookup(ps[1..], key);
    }
  }

  lemma {:induction false} PutIsUpdate(ps: Positions, key: PositionKey, p: Position)
    requires Distinct(ps)
    ensures Distinct(Put(ps, key, p)) && AsMap(Put(ps, key, p)) == AsMap(ps)[key := p]
  {
    if ps != [] {
      PutIsUpdate(ps[1..], key, p);
      assert Put(ps, key, p)[1..] == if ps[0].0 == key then ps[1..] else Put(ps[1..], key, p);
    }
  }

  lemma {:induction false} PopIsRemoval(ps: Positions, key: PositionKey)
    requires Distinct(ps)
    ensures Distinct(Pop(ps, key)) && AsMap(Pop(ps, key)) == AsMap(ps) - {key}
  {
    if ps != [] {
      PopIsRemoval(ps[1..], key);
      assert Pop(ps, key) == ps[1..] || Pop(ps, key)[1..] == Pop(ps[1..], key);
    }
  }

  lemma {:induction false} KeepIsFilter(ps: Positions, active: set<string>)
    requires Distinct(ps)
    ensures var kept := KeepPositions(ps, active);
            Distinct(kept) && AsMap(kept) == map k | k in AsMap(ps) && AsMap(ps)[k].symbol in active :: AsMap(ps)[k]
  {
    if ps != [] {
      KeepIsFilter(ps[1..], active);
      var kept := KeepPositions(ps, active);
      assert kept == KeepPositions(ps[1..], active) || kept[1..] == KeepPositions(ps[1..], active);
    }
  }

  /** The first match by id is a key on file. */
  lemma {:induction false} FindFirstOnFile(ps: Positions, client: string, positionId: string, clusterId: string)
    ensures FindFirst(ps, client, positionId, clusterId).Some? ==>
        FindFirst(ps, client, positionId, clusterId).value in AsMap(ps)
  {
    if ps != [] {
      FindFirstOnFile(ps[1..], client, positionId, clusterId);
    }
  }

  // ----- the operations -----

  lemma {:induction false} RefreshEachKeeps(r: Runtime, keys: seq<EvalKey>, ask: Oracle)
    ensures RefreshEach(r, keys, ask).positions == r.positions
  {
    if keys != [] {
      RefreshEachKeeps(r, keys[..|keys| - 1], ask);
    }
  }

  lemma RefreshAllKeeps(r: Runtime, symbol: string, ask: Oracle)
    ensures RefreshAll(r, symbol, ask).positions == r.positions
  {
    RefreshEachKeeps(r, AllKeys(r.clients, symbol, TimeframesOf(r, symbol)), ask);
  }

  lemma {:induction false} PollEachKeeps(r: Runtime, client: string, symbols: seq<string>, requested: string,
                                         ask: Oracle)
    ensures PollEach(r, client, symbols, requested, ask).positions == r.positions
  {
    if symbols != [] {
      PollEachKeeps(r, client, symbols[..|symbols| - 1], requested, ask);
    }
  }

  lemma RefileIsUpdate(ps: Positions, existing: Option<PositionKey>, key: PositionKey, p: Position)
    requires Dictionary(ps) && key == PositionKey(p.client, p.clientPositionId)
    ensures Dictionary(Refile(ps, existing, key, p))
    ensures AsMap(Refile(ps, existing, key, p))
         == (AsMap(ps) - if existing.Some? then {existing.value} else {})[key := p]
  {
    if existing.Some? && existing.value != key {
      PopIsRemoval(ps, existing.value);
      PutIsUpdate(Pop(ps, existing.value), key, p);
    } else {
      PutIsUpdate(ps, key, p);
    }
  }

  lemma ReportPositions(r: Runtime, s: Status, ask: Oracle)
    requires s.side.Some?
    ensures var p := Reported(s, KnownPosition(r, s));
            ReportOpen(r, s, ask).positions
            == Refile(r.positions, OnFile(r, s), PositionKey(p.client, p.clientPositionId), p)
  {
    RefreshAllKeeps(OpenSettled(r, s), s.symbol, ask);
  }

  /** A report files its position under the key the client knows it by, in place of the one on file. */
  lemma ReportFiles(r: Runtime, s: Status, ask: Oracle)
    requires Dictionary(r.positions) && s.side.Some?
    ensures var p, after := Reported(s, KnownPosition(r, s)), ReportOpen(r, s, ask).positions;
            && Dictionary(after)
            && AsMap(after) == (AsMap(r.positions) - if OnFile(r, s).Some? then {OnFile(r, s).value} else {})
                 [PositionKey(p.client, p.clientPositionId) := p]
  {
    var p := Reported(s, KnownPosition(r, s));
    ReportPositions(r, s, ask);
    RefileIsUpdate(r.positions, OnFile(r, s), PositionKey(p.client, p.clientPositionId), p);
  }

  /** The message ends the position on file: not a rejection, nor a closing signal without its command. */
  predicate Ends(r: Runtime, s: Status) {
    && s.lifecycle != Rejected && OnFile(r, s).Some?
    && (s.lifecycle == ClosedBySignal ==> Matching(r, EndTarget(s), Close) != {})
  }

  lemma ClosePositions(r: Runtime, s: Status, key: PositionKey, ask: Oracle)
    ensures ClosePosition(r, s, key, ask).positions == Pop(r.positions, key)
  {
    var popped := r.(positions := Pop(r.positions, key));
    var cutoff := if s.signalTime > 0 then s.signalTime else s.now;
    RefreshAllKeeps(popped, s.symbol, ask);
    RefreshAllKeeps(RemovePendingOpen(popped, s.symbol, s.timeframe, None, Some(cutoff)), s.symbol, ask);
  }

  lemma EndPositions(r: Runtime, s: Status, ask: Oracle)
    ensures ReportEnd(r, s, ask).positions == if Ends(r, s) then Pop(r.positions, OnFile(r, s).value) else r.positions
  {
    var settled := SettleEnd(r, s);
    RefreshAllKeeps(settled, s.symbol, ask);
    if OnFile(r, s).Some? {
      ClosePositions(settled, s, OnFile(r, s).value, ask);
    }
  }

  /** A message that ends a position takes exactly that position off the books; any other leaves all. */
  lemma EndRemoves(r: Runtime, s: Status, ask: Oracle)
    requires Dictionary(r.positions)
    ensures var after := ReportEnd(r, s, ask).positions;
            Dictionary(after) && AsMap(after) == AsMap(r.positions) - if Ends(r, s) then {OnFile(r, s).value} else {}
  {
    EndPositions(r, s, ask);
    if OnFile(r, s).Some? {
      PopIsRemoval(r.positions, OnFile(r, s).value);
    }
  }

  lemma StepDictionary(r: Runtime, op: Op)
    requires Dictionary(r.positions)
    ensures Dictionary(Step(r, op).positions)
  {
    match op
    case DoPoll(client, symbols, requested, ask) => PollEachKeeps(Known(r, client), client, symbols, requested, ask);
    case DoUpdate(s, ask) =>
      if !Invalid(s) {
        ReportFiles(Known(r, s.client), s, ask);
        EndRemoves(Known(r, s.client), s, ask);
      }
    case DoTrigger(symbol, ask) => RefreshAllKeeps(r, symbol, ask);
    case DoConfigure(active, _) => KeepIsFilter(r.positions, active);
  }

  /** Main result: in every reachable state the open positions are a dictionary: no key twice, and every
      position under the key the client knows it by. */
  lemma {:induction false} RunDictionary(ops: seq<Op>)
    ensures Dictionary(Run(ops).positions)
  {
    if ops != [] {
      RunDictionary(ops[..|ops| - 1]);
      StepDictionary(Run(ops[..|ops| - 1]), ops[|ops| - 1]);
    }
  }
}
