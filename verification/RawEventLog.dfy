/** The flat log that the minute-bucketed event buffer stands for: per symbol and timeframe, the
    trade events kept, in order of arrival; and which appended events those are after any run. */
module RawEventLog {
  import opened Wrappers

  const BASE_BUCKET_MS := 60_000

  datatype TradeEvent = TradeEvent(symbol: string, time: int, tradeId: int, tag: int)

  datatype Op =
    | Configure(symbol: string, timeframes: set<string>)
    | Append(event: TradeEvent)
    | MarkProcessed(symbol: string, timeframe: string, open: int, close: int)
    | RemoveInactive(active: set<string>)

  type Logs = map<string, map<string, seq<TradeEvent>>>

  function BucketOpen(time: int): int { time / BASE_BUCKET_MS * BASE_BUCKET_MS }

  function FirstBucket(open: int, close: int): int { BucketOpen(open) }

  function LastBucket(open: int, close: int): int { BucketOpen(Max(open, close - 1)) }

  /** The minute of `time` belongs to the bucket range of [open, close). */
  predicate InRange(time: int, open: int, close: int) {
    FirstBucket(open, close) <= BucketOpen(time) <= LastBucket(open, close)
  }

  predicate SameMinute(a: int, b: int) { a / 60_000 == b / 60_000 }

  /** Some instant of [open, close) lies in the minute of `time`; an empty window stands for its open. */
  ghost predicate Marks(time: int, open: int, close: int) {
    if open < close then exists instant :: open <= instant < close && SameMinute(instant, time)
    else SameMinute(open, time)
  }

  /** The bucket range is exactly the minutes that the window touches. */
  lemma RangeIsMarked(time: int, open: int, close: int)
    ensures InRange(time, open, close) <==> Marks(time, open, close)
  {
    if InRange(time, open, close) && open < close {
      var start := BucketOpen(time);
      assert SameMinute(Max(open, start), time);
    }
  }

  /** Main result: for bounds on the minute the events of [open, close) are marked and no others, not even
      those of the minute that starts at `close`. */
  lemma AlignedWindowMarks(time: int, open: int, close: int)
    requires open < close && open % 60_000 == 0 && close % 60_000 == 0
    ensures Marks(time, open, close) <==> open <= time < close
  {
    if open <= time < close {
      assert SameMinute(time, time);
    }
  }

  /** The events whose minute was not marked. */
  ghost function Unprocessed(log: seq<TradeEvent>, open: int, close: int): seq<TradeEvent> {
    if log == [] then []
    else
      var e := log[|log| - 1];
      Unprocessed(log[..|log| - 1], open, close) + (if Marks(e.time, open, close) then [] else [e])
  }

  function SymbolLogs(logs: Logs, symbol: string): map<string, seq<TradeEvent>> {
    if symbol in logs then logs[symbol] else map[]
  }

  ghost function Step(logs: Logs, op: Op): Logs {
    match op
    case Configure(symbol, timeframes) =>
      var prior := SymbolLogs(logs, symbol);
      logs[symbol := map t | t in timeframes :: if t in prior then prior[t] else []]
    case Append(e) =>
      var prior := SymbolLogs(logs, e.symbol);
      logs[e.symbol := map t | t in prior :: prior[t] + [e]]
    case MarkProcessed(symbol, timeframe, open, close) =>
      if symbol in logs && timeframe in logs[symbol] then
        logs[symbol := logs[symbol][timeframe := Unprocessed(logs[symbol][timeframe], open, close)]]
      else logs
    case RemoveInactive(active) =>
      map s | s in logs && s in active :: logs[s]
  }

  ghost function Run(ops: seq<Op>): Logs {
    if ops == [] then map[] else Step(Run(ops[..|ops| - 1]), ops[|ops| - 1])
  }

  // ----- which events are kept -----

  /** The operation leaves the timeframe of the symbol enabled, or enables it. */
  predicate Enables(op: Op, symbol: string, timeframe: string, before: bool) {
    match op
    case Configure(s, timeframes) => if s == symbol then timeframe in timeframes else before
    case RemoveInactive(active) => before && symbol in active
    case _ => before
  }

  function EnabledAfter(ops: seq<Op>, symbol: string, timeframe: string): bool {
    ops != [] && Enables(ops[|ops| - 1], symbol, timeframe, EnabledAfter(ops[..|ops| - 1], symbol, timeframe))
  }

  /** The operation `op` discards an event of this time kept so far. */
  ghost predicate Discards(op: Op, symbol: string, timeframe: string, time: int) {
    match op
    case Configure(s, timeframes) => s == symbol && timeframe !in timeframes
    case MarkProcessed(s, t, open, close) => s == symbol && t == timeframe && Marks(time, open, close)
    case RemoveInactive(active) => symbol !in active
    case Append(_) => false
  }

  /** Operation `i` appended an event of the symbol while the timeframe was enabled, and nothing
      since has disabled the timeframe or marked the event's minute as processed. */
  ghost predicate Survives(ops: seq<Op>, i: nat, symbol: string, timeframe: string)
    requires i < |ops|
  {
    && ops[i].Append? && ops[i].event.symbol == symbol
    && EnabledAfter(ops[..i], symbol, timeframe)
    && forall j :: i < j < |ops| ==> !Discards(ops[j], symbol, timeframe, ops[i].event.time)
  }

  /** The surviving events among the first `n` operations, in order of arrival. */
  ghost function Survivors(ops: seq<Op>, n: nat, symbol: string, timeframe: string): seq<TradeEvent>
    requires n <= |ops|
  {
    if n == 0 then []
    else Survivors(ops, n - 1, symbol, timeframe)
         + (if Survives(ops, n - 1, symbol, timeframe) then [ops[n - 1].event] else [])
  }

  /** The events of a list that the operation does not discard. */
  ghost function Spared(log: seq<TradeEvent>, op: Op, symbol: string, timeframe: string): seq<TradeEvent> {
    if log == [] then []
    else
      var e := log[|log| - 1];
      Spared(log[..|log| - 1], op, symbol, timeframe) + (if Discards(op, symbol, timeframe, e.time) then [] else [e])
  }

  lemma SparedAppend(log: seq<TradeEvent>, e: TradeEvent, op: Op, symbol: string, timeframe: string)
    ensures Spared(log + [e], op, symbol, timeframe)
         == Spared(log, op, symbol, timeframe) + (if Discards(op, symbol, timeframe, e.time) then [] else [e])
  {
    assert (log + [e])[..|log|] == log;
  }

  lemma SurvivesStep(ops: seq<Op>, op: Op, i: nat, symbol: string, timeframe: string)
    requires i < |ops|
    ensures Survives(ops + [op], i, symbol, timeframe)
       <==> Survives(ops, i, symbol, timeframe) && !Discards(op, symbol, timeframe, ops[i].event.time)
  {
    var longer := ops + [op];
    assert longer[..i] == ops[..i];
    assert forall j :: i < j < |ops| ==> longer[j] == ops[j];
    assert longer[|ops|] == op;
  }

  lemma {:induction false} SurvivorsStep(ops: seq<Op>, op: Op, n: nat, symbol: string, timeframe: string)
    requires n <= |ops|
    ensures Survivors(ops + [op], n, symbol, timeframe)
         == Spared(Survivors(ops, n, symbol, timeframe), op, symbol, timeframe)
  {
    if n > 0 {
      SurvivorsStep(ops, op, n - 1, symbol, timeframe);
      SurvivesStep(ops, op, n - 1, symbol, timeframe);
      var prior := Survivors(ops, n - 1, symbol, timeframe);
      if Survives(ops, n - 1, symbol, timeframe) {
        SparedAppend(prior, ops[n - 1].event, op, symbol, timeframe);
      } else {
        assert prior + [] == prior;
      }
    }
  }

  lemma {:induction false} SparedAll(log: seq<TradeEvent>, op: Op, symbol: string, timeframe: string)
    requires forall e :: e in log ==> !Discards(op, symbol, timeframe, e.time)
    ensures Spared(log, op, symbol, timeframe) == log
  {
    if log != [] {
      SparedAll(log[..|log| - 1], op, symbol, timeframe);
      assert log == log[..|log| - 1] + [log[|log| - 1]];
    }
  }

  lemma {:induction false} SparedNone(log: seq<TradeEvent>, op: Op, symbol: string, timeframe: string)
    requires forall t :: Discards(op, symbol, timeframe, t)
    ensures Spared(log, op, symbol, timeframe) == []
  {
    if log != [] {
      SparedNone(log[..|log| - 1], op, symbol, timeframe);
    }
  }

  lemma {:induction false} SparedMarks(log: seq<TradeEvent>, op: Op)
    requires op.MarkProcessed?
    ensures Spared(log, op, op.symbol, op.timeframe) == Unprocessed(log, op.open, op.close)
  {
    if log != [] {
      SparedMarks(log[..|log| - 1], op);
    }
  }

  lemma SurvivorsNext(ops: seq<Op>, op: Op, symbol: string, timeframe: string)
    ensures Survivors(ops + [op], |ops| + 1, symbol, timeframe)
         == Spared(Survivors(ops, |ops|, symbol, timeframe), op, symbol, timeframe)
            + (if op.Append? && op.event.symbol == symbol && EnabledAfter(ops, symbol, timeframe) then [op.event]
               else [])
  {
    assert (ops + [op])[..|ops|] == ops && (ops + [op])[|ops|] == op;
    SurvivorsStep(ops, op, |ops|, symbol, timeframe);
  }

  lemma SparedCases(log: seq<TradeEvent>, op: Op, symbol: string, timeframe: string)
    ensures Spared(log, op, symbol, timeframe) ==
      if op.MarkProcessed? && op.symbol == symbol && op.timeframe == timeframe then Unprocessed(log, op.open, op.close)
      else if Discards(op, symbol, timeframe, 0) then []
      else log
  {
    if op.MarkProcessed? && op.symbol == symbol && op.timeframe == timeframe {
      SparedMarks(log, op);
    } else if Discards(op, symbol, timeframe, 0) {
      SparedNone(log, op, symbol, timeframe);
    } else {
      SparedAll(log, op, symbol, timeframe);
    }
  }

  predicate Holds(logs: Logs, symbol: string, timeframe: string) {
    symbol in logs && timeframe in logs[symbol]
  }

  function LogOf(logs: Logs, symbol: string, timeframe: string): seq<TradeEvent> {
    if Holds(logs, symbol, timeframe) then logs[symbol][timeframe] else []
  }

  lemma StepOne(logs: Logs, op: Op, symbol: string, timeframe: string)
    ensures Holds(Step(logs, op), symbol, timeframe) <==> Enables(op, symbol, timeframe, Holds(logs, symbol, timeframe))
    ensures LogOf(Step(logs, op), symbol, timeframe) ==
      if op.MarkProcessed? && op.symbol == symbol && op.timeframe == timeframe then
        Unprocessed(LogOf(logs, symbol, timeframe), op.open, op.close)
      else if Discards(op, symbol, timeframe, 0) then []
      else LogOf(logs, symbol, timeframe)
           + (if op.Append? && op.event.symbol == symbol && Holds(logs, symbol, timeframe) then [op.event] else [])
  {
  }

  ghost predicate LogIs(ops: seq<Op>, symbol: string, timeframe: string) {
    && (Holds(Run(ops), symbol, timeframe) <==> EnabledAfter(ops, symbol, timeframe))
    && LogOf(Run(ops), symbol, timeframe) == Survivors(ops, |ops|, symbol, timeframe)
  }

  lemma LogStep(ops: seq<Op>, op: Op, symbol: string, timeframe: string)
    requires LogIs(ops, symbol, timeframe)
    ensures LogIs(ops + [op], symbol, timeframe)
  {
    assert (ops + [op])[..|ops|] == ops;
    StepOne(Run(ops), op, symbol, timeframe);
    SurvivorsNext(ops, op, symbol, timeframe);
    SparedCases(Survivors(ops, |ops|, symbol, timeframe), op, symbol, timeframe);
  }

  /** Main result: after any run a timeframe's log is exactly the events appended since it was last
      enabled whose minute was not marked processed since, in order of arrival. */
  lemma {:induction false} LogIsSurvivors(ops: seq<Op>, symbol: string, timeframe: string)
    ensures LogIs(ops, symbol, timeframe)
  {
    if ops != [] {
      LogIsSurvivors(ops[..|ops| - 1], symbol, timeframe);
      LogStep(ops[..|ops| - 1], ops[|ops| - 1], symbol, timeframe);
      assert ops == ops[..|ops| - 1] + [ops[|ops| - 1]];
    }
  }

  /** Marking one timeframe leaves every other log as it is. */
  lemma MarkingIsLocal(logs: Logs, op: Op, symbol: string, timeframe: string)
    requires op.MarkProcessed? && (op.symbol != symbol || op.timeframe != timeframe)
    ensures symbol in Step(logs, op) <==> symbol in logs
    ensures symbol in logs ==> (timeframe in Step(logs, op)[symbol] <==> timeframe in logs[symbol])
    ensures symbol in logs && timeframe in logs[symbol] ==> Step(logs, op)[symbol][timeframe] == logs[symbol][timeframe]
  {
  }
}
