/** The life of an execution command (absorption/absorption_runtime.py): queued by an evaluation,
    dispatched by a client's poll, completed, retried or removed by status messages, and forgotten
    when its symbol leaves the session. The trading decision engine is an arbitrary oracle. */
module CommandModel {
  import opened Wrappers

  datatype CommandType = Open | Close

  datatype TradeSide = Buy | Sell

  /** Text fields are trimmed and in the case the keys use. */
  datatype Command = Command(
    client: string, symbol: string, timeframe: string, kind: CommandType,
    requestId: string, positionId: string, clientPositionId: string, side: TradeSide,
    dominanceTime: int, signalTime: int, sourceCloseTime: int)

  datatype CommandKey = CommandKey(
    client: string, symbol: string, timeframe: string, kind: CommandType,
    requestId: string, positionId: string, clientPositionId: string)

  datatype EvalKey = EvalKey(client: string, symbol: string, timeframe: string)

  function KeyOf(c: Command): CommandKey {
    CommandKey(c.client, c.symbol, c.timeframe, c.kind, c.requestId, c.positionId, c.clientPositionId)
  }

  function EvalOf(c: Command): EvalKey { EvalKey(c.client, c.symbol, c.timeframe) }

  datatype PositionKey = PositionKey(client: string, clientPositionId: string)

  datatype Position = Position(
    client: string, positionId: string, clientPositionId: string, symbol: string, timeframe: string,
    side: TradeSide, requestId: string, identifier: string, profit: Option<real>, entryPrice: Option<real>,
    openedAt: int)

  /** How a command in flight stops being in flight. */
  datatype How = Completion | Retry | Removal | Purge

  datatype Note = Dispatched(key: CommandKey) | Landed(key: CommandKey, how: How) | Finished(key: CommandKey)

  /** `positions` lists the open positions in the order the dictionary iterates them; `log` is the
      bag of lifecycle notes so far. */
  datatype Runtime = Runtime(
    pending: map<CommandKey, Command>, sent: set<CommandKey>, completed: set<CommandKey>,
    initialized: set<EvalKey>, clients: seq<string>, activeSymbols: set<string>,
    timeframes: map<string, seq<string>>, positions: seq<(PositionKey, Position)>, log: multiset<Note>)

  type Oracle = EvalKey -> seq<Command>

  // ----- evaluation -----

  function Enqueue(pending: map<CommandKey, Command>, completed: set<CommandKey>,
                   commands: seq<Command>): map<CommandKey, Command> {
    if commands == [] then pending
    else
      var before := Enqueue(pending, completed, commands[..|commands| - 1]);
      var c := commands[|commands| - 1];
      if KeyOf(c) in completed || KeyOf(c) in before then before else before[KeyOf(c) := c]
  }

  predicate InFlight(r: Runtime, key: EvalKey) {
    exists k :: k in r.pending && k in r.sent && EvalOf(r.pending[k]) == key
  }

  function Refresh(r: Runtime, key: EvalKey, ask: Oracle): Runtime {
    if InFlight(r, key) then r else r.(pending := Enqueue(r.pending, r.completed, ask(key)))
  }

  function RefreshEach(r: Runtime, keys: seq<EvalKey>, ask: Oracle): Runtime {
    if keys == [] then r else Refresh(RefreshEach(r, keys[..|keys| - 1], ask), keys[|keys| - 1], ask)
  }

  function TimeframesOf(r: Runtime, symbol: string): seq<string> {
    if symbol in r.timeframes then r.timeframes[symbol] else []
  }

  function ClientKeys(client: string, symbol: string, timeframes: seq<string>): seq<EvalKey> {
    seq(|timeframes|, i requires 0 <= i < |timeframes| => EvalKey(client, symbol, timeframes[i]))
  }

  function AllKeys(clients: seq<string>, symbol: string, timeframes: seq<string>): seq<EvalKey> {
    if clients == [] then []
    else AllKeys(clients[..|clients| - 1], symbol, timeframes) + ClientKeys(clients[|clients| - 1], symbol, timeframes)
  }

  /** Re-evaluates every known client on every active timeframe of the symbol. */
  function RefreshAll(r: Runtime, symbol: string, ask: Oracle): Runtime {
    RefreshEach(r, AllKeys(r.clients, symbol, TimeframesOf(r, symbol)), ask)
  }

  // ----- dispatch -----

  function Undispatched(r: Runtime, key: EvalKey): set<CommandKey> {
    set k | k in r.pending && k !in r.sent && EvalOf(r.pending[k]) == key
  }

  function Known(r: Runtime, client: string): Runtime {
    if client in r.clients then r else r.(clients := r.clients + [client])
  }

  function Initialize(r: Runtime, key: EvalKey, ask: Oracle): Runtime {
    if key in r.initialized then r else Refresh(r.(initialized := r.initialized + {key}), key, ask)
  }

  function DispatchNotes(keys: set<CommandKey>): multiset<Note> {
    multiset(set k | k in keys :: Dispatched(k))
  }

  /** One symbol of a poll. */
  function PollSymbol(r: Runtime, client: string, symbol: string, requested: string, ask: Oracle): Runtime {
    var active := TimeframesOf(r, symbol);
    var primary := if requested != "" then requested else if active != [] then active[0] else "";
    if symbol == "" || primary == "" || primary !in active then r
    else
      var key := EvalKey(client, symbol, primary);
      var ready := Initialize(r, key, ask);
      var out := Undispatched(ready, key);
      ready.(sent := ready.sent + out, log := ready.log + DispatchNotes(out))
  }

  function PollEach(r: Runtime, client: string, symbols: seq<string>, requested: string, ask: Oracle): Runtime {
    if symbols == [] then r
    else
      var n := |symbols| - 1;
      PollSymbol(PollEach(r, client, symbols[..n], requested, ask), client, symbols[n], requested, ask)
  }

  function Poll(r: Runtime, client: string, symbols: seq<string>, requested: string, ask: Oracle): Runtime {
    PollEach(Known(r, client), client, symbols, requested, ask)
  }

  // ----- completion and removal -----

  datatype Target = Target(
    client: string, symbol: string, timeframe: string, requestId: string, positionId: string, clientPositionId: string)

  predicate Matches(k: CommandKey, c: Command, t: Target, kind: CommandType) {
    && k.client == t.client && k.symbol == t.symbol && k.timeframe == t.timeframe && k.kind == kind
    && !(t.requestId != "" && c.requestId != "" && c.requestId != t.requestId)
    && !(t.requestId == "" && t.positionId != "" && c.positionId != "" && c.positionId != t.positionId)
    && ((t.requestId != "" && c.requestId == t.requestId)
        || !(t.positionId != "" && c.positionId != "" && c.positionId != t.positionId))
    && !(t.clientPositionId != "" && c.clientPositionId != "" && c.clientPositionId != t.clientPositionId)
  }

  function Matching(r: Runtime, t: Target, kind: CommandType): set<CommandKey> {
    set k | k in r.pending && Matches(k, r.pending[k], t, kind)
  }

  function LandNotes(keys: set<CommandKey>, how: How): multiset<Note> {
    multiset(set k | k in keys :: Landed(k, how))
  }

  function FinishNotes(keys: set<CommandKey>): multiset<Note> {
    multiset(set k | k in keys :: Finished(k))
  }

  function CompleteMatching(r: Runtime, t: Target, kind: CommandType): Runtime {
    var hit := Matching(r, t, kind);
    r.(sent := r.sent - hit, pending := r.pending - hit, completed := r.completed + hit,
       log := r.log + LandNotes(hit * r.sent, Completion) + FinishNotes(hit))
  }

  /** A retryable rejection: the command stays pending and may be dispatched again. */
  function RetryMatching(r: Runtime, t: Target): Runtime {
    var hit := Matching(r, t, Open);
    r.(sent := r.sent - hit, log := r.log + LandNotes(hit * r.sent, Retry))
  }

  function CommandTime(c: Command): int {
    if c.dominanceTime != 0 then c.dominanceTime
    else if c.signalTime != 0 then c.signalTime else c.sourceCloseTime
  }

  predicate Removable(c: Command, symbol: string, timeframe: string, side: Option<TradeSide>, maxTime: Option<int>) {
    && c.kind == Open && c.symbol == symbol && c.timeframe == timeframe
    && (side.Some? ==> c.side == side.value)
    && (maxTime.Some? ==> CommandTime(c) <= maxTime.value)
  }

  function RemovePendingOpen(r: Runtime, symbol: string, timeframe: string, side: Option<TradeSide>,
                             maxTime: Option<int>): Runtime {
    var gone := set k | k in r.pending && Removable(r.pending[k], symbol, timeframe, side, maxTime);
    r.(sent := r.sent - gone, pending := r.pending - gone, log := r.log + LandNotes(gone * r.sent, Removal))
  }

  // ----- positions -----

  function FindFirst(positions: seq<(PositionKey, Position)>, client: string, positionId: string,
                     clusterId: string): Option<PositionKey> {
    if positions == [] then None
    else
      var (k, p) := positions[0];
      var ids := {positionId, clusterId};
      if k.client == client && (p.positionId in ids || p.requestId in ids) then Some(k)
      else FindFirst(positions[1..], client, positionId, clusterId)
  }

  function Get(positions: seq<(PositionKey, Position)>, key: PositionKey): Option<Position> {
    if positions == [] then None
    else if positions[0].0 == key then Some(positions[0].1) else Get(positions[1..], key)
  }

  function Put(positions: seq<(PositionKey, Position)>, key: PositionKey, p: Position): seq<(PositionKey, Position)> {
    if positions == [] then [(key, p)]
    else if positions[0].0 == key then [(key, p)] + positions[1..]
    else [positions[0]] + Put(positions[1..], key, p)
  }

  function Pop(positions: seq<(PositionKey, Position)>, key: PositionKey): seq<(PositionKey, Position)> {
    if positions == [] then []
    else if positions[0].0 == key then positions[1..] else [positions[0]] + Pop(positions[1..], key)
  }

  /** Files a position in place of the one it was known as. */
  function Refile(positions: seq<(PositionKey, Position)>, existing: Option<PositionKey>, key: PositionKey,
                  p: Position):
    seq<(PositionKey, Position)>
  {
    Put(if existing.Some? && existing.value != key then Pop(positions, existing.value) else positions, key, p)
  }

  function FindKey(positions: seq<(PositionKey, Position)>, client: string, clientPositionId: string,
                   positionId: string, clusterId: string): Option<PositionKey> {
    if clientPositionId != "" && Get(positions, PositionKey(client, clientPositionId)).Some?
    then Some(PositionKey(client, clientPositionId))
    else FindFirst(positions, client, positionId, clusterId)
  }

  datatype Signature = Signature(
    client: string, requestId: string, positionId: string, clientPositionId: string, identifier: string,
    symbol: string, timeframe: string, side: TradeSide, profitable: bool)

  function SignatureOf(p: Position): Signature {
    Signature(p.client, p.requestId, p.positionId, p.clientPositionId, p.identifier, p.symbol, p.timeframe,
              p.side, p.profit.Some? && p.profit.value > 0.0)
  }

  // ----- status messages -----

  datatype Lifecycle = Opened | StillOpen | ClosedByStopLoss | ClosedBySignal | Rejected | OtherStatus

  /** `ownId` is the position id a client gets when it sends only its ticket; `now` is the clock. */
  datatype Status = Status(
    client: string, symbol: string, side: Option<TradeSide>, lifecycle: Lifecycle, requestId: string,
    positionId: string, clusterId: string, timeframe: string, signalTime: int, clientPositionId: string,
    identifier: string, ownId: string, profit: Option<real>, entryPrice: Option<real>, openedAt: int,
    rejectionReason: string, now: int)

  const RETRYABLE_REASONS := {
    "ENTRY_PRICE_UNAVAILABLE", "MARGIN_SAFETY_FAILED", "ORDER_CHECK_FAILED", "ORDER_SEND_FAILED",
    "VOLUME_REDUCED_BELOW_MINIMUM", "MINIMUM_VOLUME_MARGIN_OR_ORDER_CHECK_FAILED" }

  predicate Retryable(s: Status) { s.lifecycle == Rejected && s.rejectionReason in RETRYABLE_REASONS }

  function PositionIdOf(s: Status): string {
    if s.positionId == "" && s.clientPositionId != "" then s.ownId else s.positionId
  }

  function ClusterOf(s: Status): string {
    if s.clusterId != "" then s.clusterId else if s.requestId != "" then s.requestId else s.positionId
  }

  predicate Invalid(s: Status) {
    s.symbol == "" || s.side.None? || (PositionIdOf(s) == "" && s.clientPositionId == "" && s.requestId == "")
  }

  function OrElse<T>(a: Option<T>, b: Option<T>): Option<T> { if a.Some? then a else b }

  /** The position an OPENED or STILL_OPEN message describes, completed from the one on file. */
  function Reported(s: Status, known: Option<Position>): Position
    requires s.side.Some?
  {
    var base := Position(s.client, PositionIdOf(s), s.clientPositionId, s.symbol, s.timeframe, s.side.value,
                         s.requestId, s.identifier, s.profit, s.entryPrice,
                         if s.openedAt > 0 then s.openedAt else s.signalTime);
    var filled :=
      if known.None? then base
      else
        var k := known.value;
        var signalTime := if s.signalTime <= 0 then k.openedAt else s.signalTime;
        base.(clientPositionId := if base.clientPositionId == "" then k.clientPositionId else base.clientPositionId,
              identifier := if base.identifier == "" then k.identifier else base.identifier,
              requestId :=
                if s.lifecycle == StillOpen && s.rejectionReason != "" && k.requestId != "" then k.requestId
                else if s.requestId == "" then k.requestId else s.requestId,
              profit := OrElse(s.profit, k.profit), entryPrice := OrElse(s.entryPrice, k.entryPrice),
              openedAt := if s.openedAt > 0 then s.openedAt else signalTime);
    if filled.clientPositionId == "" then filled.(clientPositionId := filled.positionId) else filled
  }

  /** The position an OPENED or STILL_OPEN message is about, as on file. */
  function OnFile(r: Runtime, s: Status): Option<PositionKey> {
    FindKey(r.positions, s.client, s.clientPositionId, PositionIdOf(s), ClusterOf(s))
  }

  function KnownPosition(r: Runtime, s: Status): Option<Position> {
    if OnFile(r, s).Some? then Get(r.positions, OnFile(r, s).value) else None
  }

  /** The report without the refresh: the position is filed and its commands are settled. */
  function OpenSettled(r: Runtime, s: Status): Runtime
    requires s.side.Some?
  {
    var p := Reported(s, KnownPosition(r, s));
    var t := Target(s.client, s.symbol, s.timeframe, s.requestId, p.positionId, p.clientPositionId);
    var filed := r.(positions := Refile(r.positions, OnFile(r, s), PositionKey(s.client, p.clientPositionId), p));
    var r1 := CompleteMatching(filed, t, Open);
    var r2 := if s.lifecycle == StillOpen && s.rejectionReason != "" then CompleteMatching(r1, t, Close) else r1;
    if s.timeframe != "" then RemovePendingOpen(r2, s.symbol, s.timeframe, s.side, None) else r2
  }

  function ReportOpen(r: Runtime, s: Status, ask: Oracle): Runtime
    requires s.side.Some?
  {
    var known, settled := KnownPosition(r, s), OpenSettled(r, s);
    if known.None? || SignatureOf(known.value) != SignatureOf(Reported(s, known))
    then RefreshAll(settled, s.symbol, ask) else settled
  }

  function EndTarget(s: Status): Target {
    Target(s.client, s.symbol, s.timeframe, s.requestId, PositionIdOf(s), s.clientPositionId)
  }

  /** The commands that an end of a position, or a rejection, settles. */
  function SettleEnd(r: Runtime, s: Status): Runtime {
    if s.lifecycle == ClosedBySignal then CompleteMatching(r, EndTarget(s), Close)
    else if Retryable(s) then RetryMatching(r, EndTarget(s))
    else
      var started := CompleteMatching(r, EndTarget(s), Open);
      if s.lifecycle == ClosedByStopLoss then CompleteMatching(started, EndTarget(s), Close) else started
  }

  function ClosePosition(r: Runtime, s: Status, key: PositionKey, ask: Oracle): Runtime {
    var cutoff := if s.signalTime > 0 then s.signalTime else s.now;
    var popped := r.(positions := Pop(r.positions, key));
    var cleaned :=
      if s.timeframe != "" && cutoff > 0 then RemovePendingOpen(popped, s.symbol, s.timeframe, None, Some(cutoff))
      else popped;
    RefreshAll(cleaned, s.symbol, ask)
  }

  function ReportEnd(r: Runtime, s: Status, ask: Oracle): Runtime {
    if s.lifecycle == ClosedBySignal && Matching(r, EndTarget(s), Close) == {} then r
    else
      var settled := SettleEnd(r, s);
      var existing := FindKey(settled.positions, s.client, s.clientPositionId, PositionIdOf(s), ClusterOf(s));
      if s.lifecycle == Rejected then
        if existing.None? then RefreshAll(settled, s.symbol, ask) else settled
      else if existing.None? then settled
      else ClosePosition(settled, s, existing.value, ask)
  }

  function Update(r: Runtime, s: Status, ask: Oracle): Runtime {
    var r0 := Known(r, s.client);
    if Invalid(s) then r0
    else if s.lifecycle in {Opened, StillOpen} then ReportOpen(r0, s, ask)
    else if s.lifecycle in {ClosedByStopLoss, ClosedBySignal, Rejected} then ReportEnd(r0, s, ask)
    else r0
  }

  // ----- sessions -----

  function KeepPositions(positions: seq<(PositionKey, Position)>, active: set<string>): seq<(PositionKey, Position)> {
    if positions == [] then []
    else (if positions[0].1.symbol in active then [positions[0]] else []) + KeepPositions(positions[1..], active)
  }

  function KeepPending(pending: map<CommandKey, Command>, active: set<string>): map<CommandKey, Command> {
    map k | k in pending && k.symbol in active :: pending[k]
  }

  function KeepKeys(keys: set<CommandKey>, active: set<string>): set<CommandKey> {
    set k | k in keys && k.symbol in active
  }

  function KeepEvaluations(keys: set<EvalKey>, active: set<string>): set<EvalKey> {
    set k | k in keys && k.symbol in active
  }

  function ConfigureSessions(r: Runtime, active: set<string>, timeframes: map<string, seq<string>>): Runtime {
    var gone := r.sent - KeepKeys(r.sent, active);
    r.(activeSymbols := active, timeframes := timeframes,
       positions := KeepPositions(r.positions, active),
       pending := KeepPending(r.pending, active),
       sent := KeepKeys(r.sent, active),
       completed := KeepKeys(r.completed, active),
       initialized := KeepEvaluations(r.initialized, active),
       log := r.log + LandNotes(gone, Purge))
  }

  // ----- runs -----

  datatype Op =
    | DoPoll(client: string, symbols: seq<string>, requested: string, ask: Oracle)
    | DoUpdate(status: Status, ask: Oracle)
    | DoTrigger(symbol: string, ask: Oracle)
    | DoConfigure(active: set<string>, timeframes: map<string, seq<string>>)

  function Step(r: Runtime, op: Op): Runtime {
    match op
    case DoPoll(client, symbols, requested, ask) => Poll(r, client, symbols, requested, ask)
    case DoUpdate(status, ask) => Update(r, status, ask)
    case DoTrigger(symbol, ask) => RefreshAll(r, symbol, ask)
    case DoConfigure(active, timeframes) => ConfigureSessions(r, active, timeframes)
  }

  const Fresh := Runtime(map[], {}, {}, {}, [], {}, map[], [], multiset{})

  function Run(ops: seq<Op>): Runtime {
    if ops == [] then Fresh else Step(Run(ops[..|ops| - 1]), ops[|ops| - 1])
  }

  /** The oracle answers an evaluation key with commands of that key. */
  ghost predicate Honest(ask: Oracle) {
    forall key, c :: c in ask(key) ==> EvalOf(c) == key
  }
}
