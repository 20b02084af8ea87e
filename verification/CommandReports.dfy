/** What a client's report and poll do to the commands, told from the report, the poll and the keys alone. */
module CommandReports {
  import opened Wrappers
  import opened CommandModel
  import opened CommandProtocol
  import opened CommandPositions
  import opened CommandFlights
  import opened CommandPolls

  // ----- what a report names -----

  predicate Conflict(a: string, b: string) { a != "" && b != "" && a != b }

  /** A client that sends only its ticket gets a position id of its own. */
  function GivenId(s: Status): string {
    if s.positionId != "" || s.clientPositionId == "" then s.positionId else s.ownId
  }

  predicate Opens(s: Status) { s.lifecycle == Opened || s.lifecycle == StillOpen }

  predicate Closes(s: Status) { s.lifecycle == ClosedByStopLoss || s.lifecycle == ClosedBySignal }

  /** The report carries a symbol, a side and some id. */
  predicate Usable(s: Status) {
    s.symbol != "" && s.side.Some? && (GivenId(s) != "" || s.clientPositionId != "" || s.requestId != "")
  }

  /** The client's id for the position: the reported one, else the one on file, else the position id. */
  function ClientId(r: Runtime, s: Status): string {
    if !Opens(s) || s.clientPositionId != "" then s.clientPositionId
    else
      var known := KnownPosition(r, s);
      if known.Some? && known.value.clientPositionId != "" then known.value.clientPositionId else GivenId(s)
  }

  /** Same client, symbol and timeframe, and no id that speaks against it; a matching request id outweighs
      the position id. */
  predicate Names(r: Runtime, s: Status, k: CommandKey) {
    && k.client == s.client && k.symbol == s.symbol && k.timeframe == s.timeframe
    && !Conflict(k.requestId, s.requestId) && !Conflict(k.clientPositionId, ClientId(r, s))
    && (Conflict(k.positionId, GivenId(s)) ==> s.requestId != "" && k.requestId == s.requestId)
  }

  const RETRYABLE := {
    "ENTRY_PRICE_UNAVAILABLE", "MARGIN_SAFETY_FAILED", "ORDER_CHECK_FAILED", "ORDER_SEND_FAILED",
    "VOLUME_REDUCED_BELOW_MINIMUM", "MINIMUM_VOLUME_MARGIN_OR_ORDER_CHECK_FAILED" }

  /** The kinds of command that a report of this lifecycle completes. */
  predicate Settles(s: Status, kind: CommandType) {
    match s.lifecycle
    case Opened => kind == Open
    case StillOpen => kind == Open || s.rejectionReason != ""
    case ClosedByStopLoss => true
    case ClosedBySignal => kind == Close
    case Rejected => kind == Open && s.rejectionReason !in RETRYABLE
    case OtherStatus => false
  }

  predicate Completes(r: Runtime, s: Status, k: CommandKey) {
    Usable(s) && k in r.pending && Settles(s, k.kind) && Names(r, s, k)
  }

  /** A rejection that may be tried again. */
  predicate GivesBack(r: Runtime, s: Status, k: CommandKey) {
    && Usable(s) && k in r.pending && k.kind == Open && Names(r, s, k)
    && s.lifecycle == Rejected && s.rejectionReason in RETRYABLE
  }

  /** The report closes a position on file; a closing signal only with a close command of its own. */
  predicate EndsOnFile(r: Runtime, s: Status) {
    && Closes(s) && OnFile(r, s).Some?
    && (s.lifecycle == ClosedBySignal ==> exists k :: k in r.pending && k.kind == Close && Names(r, s, k))
  }

  /** An opened position withdraws the opens of its side, a closed one those signalled until then. */
  predicate Withdraws(r: Runtime, s: Status, c: Command) {
    && Usable(s) && s.timeframe != "" && c.kind == Open && c.symbol == s.symbol && c.timeframe == s.timeframe
    && var until := if s.signalTime > 0 then s.signalTime else s.now;
       var time := if c.dominanceTime != 0 then c.dominanceTime
                   else if c.signalTime != 0 then c.signalTime else c.sourceCloseTime;
       (Opens(s) && s.side == Some(c.side)) || (EndsOnFile(r, s) && until > 0 && time <= until)
  }

  // ----- the stages of a report -----

  /** What has become of one key before any refresh. */
  ghost predicate SettledAt(r: Runtime, s: Status, r': Runtime, k: CommandKey) {
    var done := Completes(r, s, k);
    var gone := done || (k in r.pending && Withdraws(r, s, r.pending[k]));
    && (k in r'.completed <==> k in r.completed || done)
    && (k in r'.sent <==> k in r.sent && !gone && !GivesBack(r, s, k))
    && (k in r'.pending <==> k in r.pending && !gone)
    && (k in r'.pending ==> r'.pending[k] == r.pending[k])
  }

  lemma CompleteAt(r: Runtime, t: Target, kind: CommandType, k: CommandKey)
    ensures var r', hit := CompleteMatching(r, t, kind), k in r.pending && Matches(k, r.pending[k], t, kind);
            && (k in r'.completed <==> k in r.completed || hit)
            && (k in r'.sent <==> k in r.sent && !hit)
            && (k in r'.pending <==> k in r.pending && !hit) && (k in r'.pending ==> r'.pending[k] == r.pending[k])
  {
  }

  lemma RemoveAt(r: Runtime, symbol: string, timeframe: string, side: Option<TradeSide>, until: Option<int>,
                 k: CommandKey)
    ensures var r' := RemovePendingOpen(r, symbol, timeframe, side, until);
            var hit := k in r.pending && Removable(r.pending[k], symbol, timeframe, side, until);
            && r'.completed == r.completed && (k in r'.sent <==> k in r.sent && !hit)
            && (k in r'.pending <==> k in r.pending && !hit) && (k in r'.pending ==> r'.pending[k] == r.pending[k])
  {
  }

  lemma OpenMatches(r: Runtime, s: Status, kind: CommandType, k: CommandKey, t: Target)
    requires Sound(r) && k in r.pending && Opens(s) && s.side.Some?
    requires var p := Reported(s, KnownPosition(r, s));
             t == Target(s.client, s.symbol, s.timeframe, s.requestId, p.positionId, p.clientPositionId)
    ensures Matches(k, r.pending[k], t, kind) <==> k.kind == kind && Names(r, s, k)
  {
    assert KeyOf(r.pending[k]) == k;
    var p := Reported(s, KnownPosition(r, s));
    assert p.clientPositionId == ClientId(r, s) && p.positionId == GivenId(s);
  }

  /** The commands alone, before any is withdrawn. */
  ghost predicate EndedAt(r: Runtime, s: Status, r': Runtime, k: CommandKey) {
    var done := Completes(r, s, k);
    && (k in r'.completed <==> k in r.completed || done)
    && (k in r'.sent <==> k in r.sent && !done && !GivesBack(r, s, k))
    && (k in r'.pending <==> k in r.pending && !done) && (k in r'.pending ==> r'.pending[k] == r.pending[k])
  }

  /** The commands that an opened or still-open report completes. */
  function OpenCompleted(r: Runtime, s: Status): Runtime
    requires s.side.Some?
  {
    var p := Reported(s, KnownPosition(r, s));
    var t := Target(s.client, s.symbol, s.timeframe, s.requestId, p.positionId, p.clientPositionId);
    var filed := r.(positions := Refile(r.positions, OnFile(r, s), PositionKey(s.client, p.clientPositionId), p));
    var r1 := CompleteMatching(filed, t, Open);
    if s.lifecycle == StillOpen && s.rejectionReason != "" then CompleteMatching(r1, t, Close) else r1
  }

  lemma OpenCompletes(r: Runtime, s: Status, k: CommandKey)
    requires Sound(r) && Usable(s) && Opens(s)
    ensures EndedAt(r, s, OpenCompleted(r, s), k)
  {
    var p := Reported(s, KnownPosition(r, s));
    var t := Target(s.client, s.symbol, s.timeframe, s.requestId, p.positionId, p.clientPositionId);
    var filed := r.(positions := Refile(r.positions, OnFile(r, s), PositionKey(s.client, p.clientPositionId), p));
    if k in r.pending {
      OpenMatches(r, s, Open, k, t);
      OpenMatches(r, s, Close, k, t);
    }
    CompleteAt(filed, t, Open, k);
    CompleteAt(CompleteMatching(filed, t, Open), t, Close, k);
  }

  lemma OpenWithdraws(r: Runtime, s: Status, c: Command)
    requires Usable(s) && Opens(s)
    ensures s.timeframe != "" && Removable(c, s.symbol, s.timeframe, s.side, None) <==> Withdraws(r, s, c)
  {
  }

  lemma OpenSettles(r: Runtime, s: Status, k: CommandKey)
    requires Sound(r) && Usable(s) && Opens(s)
    ensures SettledAt(r, s, OpenSettled(r, s), k)
  {
    var r2 := OpenCompleted(r, s);
    OpenCompletes(r, s, k);
    assert OpenSettled(r, s)
        == if s.timeframe != "" then RemovePendingOpen(r2, s.symbol, s.timeframe, s.side, None) else r2;
    RemoveAt(r2, s.symbol, s.timeframe, s.side, None, k);
    if k in r.pending {
      OpenWithdraws(r, s, r.pending[k]);
    }
  }

  // ----- ends -----

  lemma EndMatches(r: Runtime, s: Status, kind: CommandType, k: CommandKey)
    requires Sound(r) && k in r.pending && !Opens(s)
    ensures Matches(k, r.pending[k], EndTarget(s), kind) <==> k.kind == kind && Names(r, s, k)
  {
    assert KeyOf(r.pending[k]) == k;
  }

  lemma EndSettles(r: Runtime, s: Status, k: CommandKey)
    requires Sound(r) && Usable(s) && (Closes(s) || s.lifecycle == Rejected)
    ensures EndedAt(r, s, SettleEnd(r, s), k)
  {
    var t := EndTarget(s);
    if k in r.pending {
      EndMatches(r, s, Open, k);
      EndMatches(r, s, Close, k);
    }
    if s.lifecycle == ClosedBySignal {
      CompleteAt(r, t, Close, k);
    } else if s.lifecycle == ClosedByStopLoss || s.rejectionReason !in RETRYABLE {
      CompleteAt(r, t, Open, k);
      CompleteAt(CompleteMatching(r, t, Open), t, Close, k);
    } else {
      RetryAt(r, t, k);
    }
  }

  lemma RetryAt(r: Runtime, t: Target, k: CommandKey)
    ensures var r', hit := RetryMatching(r, t), k in r.pending && Matches(k, r.pending[k], t, Open);
            r'.completed == r.completed && r'.pending == r.pending && (k in r'.sent <==> k in r.sent && !hit)
  {
  }

  lemma EndsIsEndsOnFile(r: Runtime, s: Status)
    requires Sound(r) && Usable(s) && (Closes(s) || s.lifecycle == Rejected)
    ensures Ends(r, s) <==> EndsOnFile(r, s)
    ensures s.lifecycle == ClosedBySignal ==>
              (Matching(r, EndTarget(s), Close) != {}
               <==> exists k :: k in r.pending && k.kind == Close && Names(r, s, k))
  {
    if s.lifecycle == ClosedBySignal {
      forall k | k in r.pending
        ensures Matches(k, r.pending[k], EndTarget(s), Close) <==> k.kind == Close && Names(r, s, k)
      {
        EndMatches(r, s, Close, k);
      }
      if k :| k in r.pending && k.kind == Close && Names(r, s, k) {
        assert k in Matching(r, EndTarget(s), Close);
      } else {
        assert Matching(r, EndTarget(s), Close) == {};
      }
    }
  }

  // ----- refreshing -----

  /** A refresh only adds what the oracle answers, and nothing completed. */
  ghost predicate Refreshed(r: Runtime, r': Runtime, ask: Oracle) {
    && r'.sent == r.sent && r'.completed == r.completed && r.pending.Keys <= r'.pending.Keys
    && (forall k :: k in r.pending ==> r'.pending[k] == r.pending[k])
    && (forall k :: k in r'.pending && k !in r.pending ==> k !in r.completed && Offered(ask, k))
  }

  ghost predicate Offered(ask: Oracle, k: CommandKey) { exists key, c :: c in ask(key) && KeyOf(c) == k }

  lemma {:induction false} RefreshEachAdds(r: Runtime, keys: seq<EvalKey>, ask: Oracle)
    ensures Refreshed(r, RefreshEach(r, keys, ask), ask)
  {
    if keys != [] {
      var before, key := RefreshEach(r, keys[..|keys| - 1], ask), keys[|keys| - 1];
      RefreshEachAdds(r, keys[..|keys| - 1], ask);
      EnqueueFacts(before.pending, before.completed, ask(key));
    }
  }

  lemma RefreshAllAdds(r: Runtime, symbol: string, ask: Oracle)
    ensures Refreshed(r, RefreshAll(r, symbol, ask), ask)
  {
    RefreshEachAdds(r, AllKeys(r.clients, symbol, TimeframesOf(r, symbol)), ask);
  }

  // ----- reports -----

  /** What a report leaves of one key: settled, and perhaps queued afresh by the refresh that follows. */
  ghost predicate ReportedAt(r: Runtime, s: Status, r': Runtime, k: CommandKey, ask: Oracle) {
    var done := Completes(r, s, k);
    var gone := done || (k in r.pending && Withdraws(r, s, r.pending[k]));
    && (k in r'.completed <==> k in r.completed || done)
    && (k in r'.sent <==> k in r.sent && !gone && !GivesBack(r, s, k))
    && (k in r.pending && !gone ==> k in r'.pending && r'.pending[k] == r.pending[k])
    && (k in r'.pending && (k !in r.pending || gone) ==> !done && Offered(ask, k))
  }

  lemma SettledThenRefreshed(r: Runtime, s: Status, m: Runtime, r': Runtime, k: CommandKey, ask: Oracle)
    requires SettledAt(r, s, m, k) && (r' == m || Refreshed(m, r', ask))
    ensures ReportedAt(r, s, r', k, ask)
  {
  }

  lemma OpenReported(r: Runtime, s: Status, ask: Oracle, k: CommandKey)
    requires Sound(r) && Usable(s) && Opens(s)
    ensures ReportedAt(r, s, ReportOpen(r, s, ask), k, ask)
  {
    OpenSettles(r, s, k);
    RefreshAllAdds(OpenSettled(r, s), s.symbol, ask);
    SettledThenRefreshed(r, s, OpenSettled(r, s), ReportOpen(r, s, ask), k, ask);
  }

  /** The state before the refresh that may follow an end. */
  function EndStage(r: Runtime, s: Status): Runtime {
    var settled := SettleEnd(r, s);
    var until := if s.signalTime > 0 then s.signalTime else s.now;
    if !Ends(r, s) then settled
    else
      var popped := settled.(positions := Pop(settled.positions, OnFile(r, s).value));
      if s.timeframe != "" && until > 0 then RemovePendingOpen(popped, s.symbol, s.timeframe, None, Some(until))
      else popped
  }

  lemma EndWithdraws(r: Runtime, s: Status, c: Command)
    requires Usable(s) && !Opens(s) && (Ends(r, s) <==> EndsOnFile(r, s))
    ensures var until := if s.signalTime > 0 then s.signalTime else s.now;
            Ends(r, s) && s.timeframe != "" && until > 0 && Removable(c, s.symbol, s.timeframe, None, Some(until))
            <==> Withdraws(r, s, c)
  {
  }

  lemma EndStageSettles(r: Runtime, s: Status, k: CommandKey)
    requires Sound(r) && Usable(s) && (Closes(s) || s.lifecycle == Rejected)
    ensures SettledAt(r, s, EndStage(r, s), k)
  {
    var settled := SettleEnd(r, s);
    var until := if s.signalTime > 0 then s.signalTime else s.now;
    EndSettles(r, s, k);
    EndsIsEndsOnFile(r, s);
    if k in r.pending {
      EndWithdraws(r, s, r.pending[k]);
    }
    if Ends(r, s) {
      var popped := settled.(positions := Pop(settled.positions, OnFile(r, s).value));
      RemoveAt(popped, s.symbol, s.timeframe, None, Some(until), k);
    }
  }

  /** A closing signal without a close command of its own changes nothing. */
  predicate Unmatched(r: Runtime, s: Status) {
    s.lifecycle == ClosedBySignal && Matching(r, EndTarget(s), Close) == {}
  }

  lemma ClosedIsStage(r: Runtime, s: Status, ask: Oracle)
    requires Ends(r, s)
    ensures ReportEnd(r, s, ask) == RefreshAll(EndStage(r, s), s.symbol, ask)
  {
    assert SettleEnd(r, s).positions == r.positions;
  }

  lemma OtherwiseStage(r: Runtime, s: Status, ask: Oracle)
    requires !Ends(r, s) && !Unmatched(r, s)
    ensures EndStage(r, s) == SettleEnd(r, s)
    ensures ReportEnd(r, s, ask)
         == if s.lifecycle == Rejected && OnFile(r, s).None? then RefreshAll(SettleEnd(r, s), s.symbol, ask)
            else SettleEnd(r, s)
  {
    assert SettleEnd(r, s).positions == r.positions;
  }

  lemma EndIsStage(r: Runtime, s: Status, ask: Oracle)
    requires !Unmatched(r, s)
    ensures ReportEnd(r, s, ask) == EndStage(r, s) || Refreshed(EndStage(r, s), ReportEnd(r, s, ask), ask)
  {
    RefreshAllAdds(EndStage(r, s), s.symbol, ask);
    if Ends(r, s) {
      ClosedIsStage(r, s, ask);
    } else {
      OtherwiseStage(r, s, ask);
    }
  }

  lemma EndReported(r: Runtime, s: Status, ask: Oracle, k: CommandKey)
    requires Sound(r) && Usable(s) && (Closes(s) || s.lifecycle == Rejected)
    ensures ReportedAt(r, s, ReportEnd(r, s, ask), k, ask)
  {
    EndStageSettles(r, s, k);
    EndsIsEndsOnFile(r, s);
    if Unmatched(r, s) {
      assert ReportEnd(r, s, ask) == r && !Completes(r, s, k) && !GivesBack(r, s, k);
    } else {
      EndIsStage(r, s, ask);
      SettledThenRefreshed(r, s, EndStage(r, s), ReportEnd(r, s, ask), k, ask);
    }
  }

  /** Main result: a report completes exactly the pending commands that it names and whose kind it settles,
      takes out of flight exactly those, the opens it gives back and the opens it withdraws, and leaves every
      other pending command as it was; only the oracle can queue one again, and never a completed one. */
  lemma ReportSettles(ops: seq<Op>, s: Status, ask: Oracle, k: CommandKey)
    ensures ReportedAt(Run(ops), s, Update(Run(ops), s, ask), k, ask)
  {
    var r := Run(ops);
    var r0 := Known(r, s.client);
    RunSound(ops);
    QuietAdvances(r, r0);
    if Usable(s) {
      if Opens(s) {
        OpenReported(r0, s, ask, k);
      } else if Closes(s) || s.lifecycle == Rejected {
        EndReported(r0, s, ask, k);
      }
      SameReport(r, s, Update(r, s, ask), k, ask);
    }
  }

  /** Knowing the client is no part of it. */
  lemma SameReport(r: Runtime, s: Status, r': Runtime, k: CommandKey, ask: Oracle)
    ensures ReportedAt(Known(r, s.client), s, r', k, ask) <==> ReportedAt(r, s, r', k, ask)
  {
    var r0 := Known(r, s.client);
    assert r0.positions == r.positions && r0.pending == r.pending;
    assert OnFile(r0, s) == OnFile(r, s) && KnownPosition(r0, s) == KnownPosition(r, s);
    assert ClientId(r0, s) == ClientId(r, s);
    assert forall x :: Names(r0, s, x) <==> Names(r, s, x);
    assert EndsOnFile(r0, s) <==> EndsOnFile(r, s);
  }

  /** What the report newly completes carries its client, symbol and timeframe and none of its ids speaks
      against it; and an opened report completes every pending open of its own with its request id. */
  lemma CompletionsBelong(ops: seq<Op>, s: Status, ask: Oracle, k: CommandKey)
    ensures k in Update(Run(ops), s, ask).completed && k !in Run(ops).completed ==>
              && k in Run(ops).pending && k.client == s.client && k.symbol == s.symbol && k.timeframe == s.timeframe
              && (k.requestId != "" && s.requestId != "" ==> k.requestId == s.requestId)
              && (k.clientPositionId != "" && s.clientPositionId != "" ==> k.clientPositionId == s.clientPositionId)
    ensures s.lifecycle == Opened && s.side.Some? && s.symbol != "" && s.requestId != "" && s.clientPositionId != ""
            && k in Run(ops).pending && k.kind == Open && k.client == s.client && k.symbol == s.symbol
            && k.timeframe == s.timeframe && k.requestId == s.requestId
            && k.clientPositionId in {"", s.clientPositionId}
            ==> k in Update(Run(ops), s, ask).completed
  {
    ReportSettles(ops, s, ask, k);
  }

  // ----- what is asked again -----

  /** Something of the position changed that the trading decisions may depend on. */
  predicate Changed(p: Position, q: Position) {
    || p.client != q.client || p.requestId != q.requestId || p.positionId != q.positionId
    || p.clientPositionId != q.clientPositionId || p.identifier != q.identifier || p.symbol != q.symbol
    || p.timeframe != q.timeframe || p.side != q.side
    || (p.profit.Some? && p.profit.value > 0.0) != (q.profit.Some? && q.profit.value > 0.0)
  }

  /** A new or changed position, the end of one, or a rejection without one. */
  predicate AsksAgain(r: Runtime, s: Status) {
    && Usable(s)
    && ((Opens(s) && (OnFile(r, s).None? || KnownPosition(r, s).None?
                      || Changed(KnownPosition(r, s).value, Reported(s, KnownPosition(r, s)))))
        || EndsOnFile(r, s) || (s.lifecycle == Rejected && OnFile(r, s).None?))
  }

  lemma SignatureTells(p: Position, q: Position)
    ensures SignatureOf(p) != SignatureOf(q) <==> Changed(p, q)
  {
  }

  lemma OpenAsksAgain(r: Runtime, s: Status, ask: Oracle)
    requires Usable(s) && Opens(s) && AsksAgain(r, s)
    ensures ReportOpen(r, s, ask) == RefreshAll(OpenSettled(r, s), s.symbol, ask)
  {
    var known := KnownPosition(r, s);
    if known.Some? {
      SignatureTells(known.value, Reported(s, known));
    }
  }

  lemma OpenKeeps(r: Runtime, s: Status)
    requires s.side.Some?
    ensures OpenSettled(r, s).clients == r.clients && OpenSettled(r, s).timeframes == r.timeframes
  {
  }

  lemma EndAsksAgain(r: Runtime, s: Status, ask: Oracle)
    requires Sound(r) && Usable(s) && !Opens(s) && AsksAgain(r, s)
    ensures ReportEnd(r, s, ask) == RefreshAll(EndStage(r, s), s.symbol, ask)
  {
    EndsIsEndsOnFile(r, s);
    if Ends(r, s) {
      ClosedIsStage(r, s, ask);
    } else {
      OtherwiseStage(r, s, ask);
    }
  }

  lemma EndKeeps(r: Runtime, s: Status)
    requires Sound(r)
    ensures Sound(EndStage(r, s)) && EndStage(r, s).clients == r.clients && EndStage(r, s).timeframes == r.timeframes
  {
    SettleEndAdvances(r, s);
    SettleKeeps(r, s);
    if Ends(r, s) {
      ClosingKeeps(SettleEnd(r, s), s, OnFile(r, s).value);
    }
  }

  lemma SettleKeeps(r: Runtime, s: Status)
    ensures SettleEnd(r, s).clients == r.clients && SettleEnd(r, s).timeframes == r.timeframes
  {
  }

  lemma ClosingKeeps(m: Runtime, s: Status, key: PositionKey)
    requires Sound(m)
    ensures var until := if s.signalTime > 0 then s.signalTime else s.now;
            var popped := m.(positions := Pop(m.positions, key));
            var removed := RemovePendingOpen(popped, s.symbol, s.timeframe, None, Some(until));
            && Sound(popped) && popped.clients == m.clients && popped.timeframes == m.timeframes
            && Sound(removed) && removed.clients == m.clients && removed.timeframes == m.timeframes
  {
    var popped := m.(positions := Pop(m.positions, key));
    QuietAdvances(m, popped);
    RemoveAdvances(popped, s.symbol, s.timeframe, None, Some(if s.signalTime > 0 then s.signalTime else s.now));
  }

  lemma StageQueuesAll(m: Runtime, symbol: string, ask: Oracle, client: string, timeframe: string, c: Command)
    requires Sound(m) && Honest(ask) && client in m.clients && symbol in m.timeframes
    requires timeframe in m.timeframes[symbol]
    requires var r', key := RefreshAll(m, symbol, ask), EvalKey(client, symbol, timeframe);
             !InFlight(r', key) && c in ask(key) && KeyOf(c) !in r'.completed
    ensures KeyOf(c) in RefreshAll(m, symbol, ask).pending
  {
    RefreshAllAdds(m, symbol, ask);
    TriggerQueuesAll(m, symbol, ask, client, timeframe, c);
  }

  /** Main result: after a report of a new, changed or ended position, or of a rejection without one, every
      command the oracle has for any known client on any active timeframe of the symbol is queued, unless it
      is completed or its evaluation key has a command in flight. */
  lemma ReportQueuesAll(ops: seq<Op>, s: Status, ask: Oracle, client: string, timeframe: string, c: Command)
    requires var r, r', key := Run(ops), Update(Run(ops), s, ask), EvalKey(client, s.symbol, timeframe);
             && AsksAgain(r, s) && Honest(ask) && (client == s.client || client in r.clients)
             && s.symbol in r.timeframes && timeframe in r.timeframes[s.symbol]
             && !InFlight(r', key) && c in ask(key) && KeyOf(c) !in r'.completed
    ensures KeyOf(c) in Update(Run(ops), s, ask).pending
  {
    var r, r0 := Run(ops), Known(Run(ops), s.client);
    RunSound(ops);
    QuietAdvances(r, r0);
    SameAsking(r, s);
    if Opens(s) {
      OpenAsksAgain(r0, s, ask);
      OpenSettledAdvances(r0, s);
      OpenKeeps(r0, s);
      StageQueuesAll(OpenSettled(r0, s), s.symbol, ask, client, timeframe, c);
    } else {
      EndAsksAgain(r0, s, ask);
      EndKeeps(r0, s);
      StageQueuesAll(EndStage(r0, s), s.symbol, ask, client, timeframe, c);
    }
  }

  lemma SameAsking(r: Runtime, s: Status)
    ensures AsksAgain(Known(r, s.client), s) <==> AsksAgain(r, s)
  {
    var r0 := Known(r, s.client);
    assert OnFile(r0, s) == OnFile(r, s) && KnownPosition(r0, s) == KnownPosition(r, s);
    assert ClientId(r0, s) == ClientId(r, s);
    assert forall x :: Names(r0, s, x) <==> Names(r, s, x);
  }

  /** Main result: a session change keeps exactly what belongs to an active symbol, in every store. */
  lemma SessionKeeps(r: Runtime, active: set<string>, timeframes: map<string, seq<string>>, k: CommandKey, key: EvalKey)
    ensures var r' := ConfigureSessions(r, active, timeframes);
            && (k in r'.pending <==> k in r.pending && k.symbol in active)
            && (k in r'.pending ==> r'.pending[k] == r.pending[k])
            && (k in r'.sent <==> k in r.sent && k.symbol in active)
            && (k in r'.completed <==> k in r.completed && k.symbol in active)
            && (key in r'.initialized <==> key in r.initialized && key.symbol in active)
            && r'.activeSymbols == active && r'.timeframes == timeframes && r'.clients == r.clients
  {
  }
}
