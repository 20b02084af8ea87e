/** The minute-bucketed buffer itself, each method proved against the flat log. */
module RawEventBuffer {
  import opened Wrappers
  import Sorting
  import opened Sums
  import opened RawEventLog

  function InBucket(log: seq<TradeEvent>, bucket: int): seq<TradeEvent> {
    if log == [] then []
    else
      var e := log[|log| - 1];
      InBucket(log[..|log| - 1], bucket) + (if BucketOpen(e.time) == bucket then [e] else [])
  }

  /** The bucket table represents the log: one bucket per minute that has events. */
  ghost predicate Represents(buckets: map<int, seq<TradeEvent>>, log: seq<TradeEvent>) {
    && (forall b :: b in buckets ==> buckets[b] == InBucket(log, b) && buckets[b] != [])
    && (forall b :: b !in buckets ==> InBucket(log, b) == [])
  }

  lemma InBucketAppend(log: seq<TradeEvent>, e: TradeEvent, b: int)
    ensures InBucket(log + [e], b) == InBucket(log, b) + (if BucketOpen(e.time) == b then [e] else [])
  {
    assert (log + [e])[..|log|] == log;
  }

  /** The events whose minute lies between two bucket times. */
  function Between(log: seq<TradeEvent>, lo: int, hi: int, wanted: bool): seq<TradeEvent> {
    if log == [] then []
    else
      var e := log[|log| - 1];
      Between(log[..|log| - 1], lo, hi, wanted) + (if (lo <= BucketOpen(e.time) <= hi) == wanted then [e] else [])
  }

  lemma {:induction false} InBucketOfOutside(log: seq<TradeEvent>, lo: int, hi: int, b: int)
    ensures InBucket(Between(log, lo, hi, false), b) == if lo <= b <= hi then [] else InBucket(log, b)
  {
    if log != [] {
      var before, e := log[..|log| - 1], log[|log| - 1];
      var kept := Between(before, lo, hi, false);
      InBucketOfOutside(before, lo, hi, b);
      InBucketAppend(kept, e, b);
      assert kept + [] == kept;
    }
  }

  lemma {:induction false} OutsideIsUnprocessed(log: seq<TradeEvent>, open: int, close: int)
    ensures Between(log, FirstBucket(open, close), LastBucket(open, close), false) == Unprocessed(log, open, close)
  {
    if log != [] {
      OutsideIsUnprocessed(log[..|log| - 1], open, close);
      RangeIsMarked(log[|log| - 1].time, open, close);
    }
  }

  lemma {:induction false} BetweenGrows(log: seq<TradeEvent>, lo: int, hi: int)
    requires lo <= hi && BucketOpen(lo) == lo && BucketOpen(hi) == hi
    ensures multiset(Between(log, lo, hi, true))
         == multiset(Between(log, lo, hi - BASE_BUCKET_MS, true)) + multiset(InBucket(log, hi))
    ensures |Between(log, lo, hi, false)| == |Between(log, lo, hi - BASE_BUCKET_MS, false)| - |InBucket(log, hi)|
  {
    if log != [] {
      var e := log[|log| - 1];
      BetweenGrows(log[..|log| - 1], lo, hi);
      BucketsApart(e.time, hi);
    }
  }

  lemma BucketsApart(time: int, hi: int)
    requires BucketOpen(hi) == hi
    ensures BucketOpen(time) <= hi <==> BucketOpen(time) <= hi - BASE_BUCKET_MS || BucketOpen(time) == hi
  {
  }

  lemma {:induction false} BetweenNothing(log: seq<TradeEvent>, lo: int, hi: int)
    requires hi < lo
    ensures Between(log, lo, hi, true) == [] && Between(log, lo, hi, false) == log
  {
    if log != [] {
      BetweenNothing(log[..|log| - 1], lo, hi);
      assert log == log[..|log| - 1] + [log[|log| - 1]];
    }
  }

  /** `bucket` is a minute boundary reached while walking the range [first, last]. */
  predicate Walking(bucket: int, first: int, last: int) {
    && first <= bucket <= last + BASE_BUCKET_MS
    && BucketOpen(bucket) == bucket && BucketOpen(first) == first && BucketOpen(last) == last
  }

  lemma WalkStarts(open: int, close: int)
    ensures Walking(FirstBucket(open, close), FirstBucket(open, close), LastBucket(open, close))
  {
  }

  lemma WalkOn(bucket: int, first: int, last: int)
    requires Walking(bucket, first, last) && bucket <= last
    ensures Walking(bucket + BASE_BUCKET_MS, first, last)
  {
  }

  lemma WalkEnds(bucket: int, first: int, last: int)
    requires Walking(bucket, first, last) && bucket > last
    ensures bucket - BASE_BUCKET_MS == last
  {
  }

  lemma MarkStep(start: seq<TradeEvent>, first: int, bucket: int)
    requires first <= bucket && BucketOpen(bucket) == bucket
    ensures var before := Between(start, first, bucket - BASE_BUCKET_MS, false);
            var after := Between(start, first, bucket, false);
            forall b :: BucketOpen(b) == b ==> InBucket(after, b) == if b == bucket then [] else InBucket(before, b)
  {
    forall b | BucketOpen(b) == b
      ensures InBucket(Between(start, first, bucket, false), b)
           == if b == bucket then [] else InBucket(Between(start, first, bucket - BASE_BUCKET_MS, false), b)
    {
      InBucketOfOutside(start, first, bucket, b);
      InBucketOfOutside(start, first, bucket - BASE_BUCKET_MS, b);
      BucketsApart(b, bucket);
    }
  }

  lemma {:induction false} OffMinute(log: seq<TradeEvent>, b: int)
    requires BucketOpen(b) != b
    ensures InBucket(log, b) == []
  {
    if log != [] {
      OffMinute(log[..|log| - 1], b);
    }
  }

  lemma MarkRepresents(start: seq<TradeEvent>, first: int, bucket: int, buckets: map<int, seq<TradeEvent>>)
    requires first <= bucket && BucketOpen(bucket) == bucket && BucketOpen(first) == first
    requires Represents(buckets, Between(start, first, bucket - BASE_BUCKET_MS, false))
    ensures Represents(buckets - {bucket}, Between(start, first, bucket, false))
  {
    MarkStep(start, first, bucket);
    var before, after := Between(start, first, bucket - BASE_BUCKET_MS, false), Between(start, first, bucket, false);
    forall b ensures InBucket(after, b) == if b == bucket then [] else InBucket(before, b) {
      if BucketOpen(b) != b {
        OffMinute(after, b);
        OffMinute(before, b);
      }
    }
  }

  lemma MarkSize(start: seq<TradeEvent>, first: int, bucket: int, buckets: map<int, seq<TradeEvent>>)
    requires first <= bucket && BucketOpen(bucket) == bucket && BucketOpen(first) == first
    requires Represents(buckets, Between(start, first, bucket - BASE_BUCKET_MS, false))
    ensures |Between(start, first, bucket, false)| == |Between(start, first, bucket - BASE_BUCKET_MS, false)|
              - (if bucket in buckets then |buckets[bucket]| else 0)
  {
    BetweenGrows(start, first, bucket);
    InBucketOfOutside(start, first, bucket - BASE_BUCKET_MS, bucket);
  }

  // ----- snapshots -----

  function Within(log: seq<TradeEvent>, open: int, close: int): seq<TradeEvent> {
    if log == [] then []
    else
      var e := log[|log| - 1];
      Within(log[..|log| - 1], open, close) + (if open <= e.time < close then [e] else [])
  }

  function ByTime(): (TradeEvent, TradeEvent) -> bool {
    (a: TradeEvent, b: TradeEvent) => a.time < b.time || (a.time == b.time && a.tradeId <= b.tradeId)
  }

  lemma {:induction false} WithinCount(log: seq<TradeEvent>, open: int, close: int, x: TradeEvent)
    ensures multiset(Within(log, open, close))[x] == if open <= x.time < close then multiset(log)[x] else 0
  {
    if log != [] {
      WithinCount(log[..|log| - 1], open, close, x);
      assert log == log[..|log| - 1] + [log[|log| - 1]];
    }
  }

  lemma {:induction false} BetweenCount(log: seq<TradeEvent>, lo: int, hi: int, x: TradeEvent)
    ensures multiset(Between(log, lo, hi, true))[x] == if lo <= BucketOpen(x.time) <= hi then multiset(log)[x] else 0
  {
    if log != [] {
      BetweenCount(log[..|log| - 1], lo, hi, x);
      assert log == log[..|log| - 1] + [log[|log| - 1]];
    }
  }

  lemma WindowInRange(time: int, open: int, close: int)
    requires open <= time < close
    ensures InRange(time, open, close)
  {
  }

  /** Gathering whole minutes and filtering is filtering the log. */
  lemma {:induction false} WithinOfBetween(log: seq<TradeEvent>, gathered: seq<TradeEvent>, open: int, close: int)
    requires multiset(gathered) == multiset(Between(log, FirstBucket(open, close), LastBucket(open, close), true))
    ensures multiset(Within(gathered, open, close)) == multiset(Within(log, open, close))
  {
    forall x ensures multiset(Within(gathered, open, close))[x] == multiset(Within(log, open, close))[x] {
      WithinCount(gathered, open, close, x);
      WithinCount(log, open, close, x);
      BetweenCount(log, FirstBucket(open, close), LastBucket(open, close), x);
      if open <= x.time < close {
        WindowInRange(x.time, open, close);
      }
    }
  }

  class TimeframeStore {
    ghost const symbol: string
    ghost const timeframe: string
    /** The flat log this store stands for. */
    ghost var log: seq<TradeEvent>
    var buckets: map<int, seq<TradeEvent>>
    var count: int

    ghost predicate Valid()
      reads this
    {
      Represents(buckets, log) && count == |log|
    }

    constructor (ghost symbol: string, ghost timeframe: string)
      ensures Valid() && log == [] && this.symbol == symbol && this.timeframe == timeframe
    {
      this.symbol, this.timeframe, log := symbol, timeframe, [];
      buckets, count := map[], 0;
    }

    method Append(e: TradeEvent)
      requires Valid()
      modifies this
      ensures Valid() && log == old(log) + [e]
    {
      var b := BucketOpen(e.time);
      buckets := buckets[b := (if b in buckets then buckets[b] else []) + [e]];
      count := count + 1;
      forall k ensures InBucket(log + [e], k) == InBucket(log, k) + (if BucketOpen(e.time) == k then [e] else []) {
        InBucketAppend(log, e, k);
      }
      log := log + [e];
    }

    method Gather(open: int, close: int) returns (events: seq<TradeEvent>)
      requires Valid()
      ensures multiset(events) == multiset(Between(log, FirstBucket(open, close), LastBucket(open, close), true))
    {
      var first, last := BucketOpen(open), BucketOpen(Max(open, close - 1));
      events := [];
      var bucket := first;
      BetweenNothing(log, first, first - BASE_BUCKET_MS);
      WalkStarts(open, close);
      while bucket <= last
        invariant Walking(bucket, first, last)
        invariant multiset(events) == multiset(Between(log, first, bucket - BASE_BUCKET_MS, true))
      {
        BetweenGrows(log, first, bucket);
        WalkOn(bucket, first, last);
        if bucket in buckets {
          events := events + buckets[bucket];
        }
        bucket := bucket + BASE_BUCKET_MS;
      }
      WalkEnds(bucket, first, last);
    }

    /** Sorted, and exactly the log's events with open <= time < close. */
    method Snapshot(open: int, close: int) returns (events: seq<TradeEvent>)
      requires Valid()
      ensures Sorting.SortedBy(events, ByTime())
      ensures multiset(events) == multiset(Within(log, open, close))
    {
      var gathered := Gather(open, close);
      WithinOfBetween(log, gathered, open, close);
      events := Sorting.Sort(Within(gathered, open, close), ByTime());
      Sorting.SortSorted(Within(gathered, open, close), ByTime());
      Sorting.SortMembers(Within(gathered, open, close), ByTime());
    }

    /** Drops every event whose minute is in the range; the clamp at zero never fires. */
    method MarkProcessed(open: int, close: int)
      requires Valid()
      modifies this
      ensures Valid() && log == Unprocessed(old(log), open, close)
    {
      var first, last := BucketOpen(open), BucketOpen(Max(open, close - 1));
      ghost var start := log;
      var bucket := first;
      BetweenNothing(start, first, first - BASE_BUCKET_MS);
      WalkStarts(open, close);
      while bucket <= last
        invariant Walking(bucket, first, last)
        invariant log == Between(start, first, bucket - BASE_BUCKET_MS, false) && Valid()
      {
        MarkRepresents(start, first, bucket, buckets);
        MarkSize(start, first, bucket, buckets);
        WalkOn(bucket, first, last);
        if bucket in buckets {
          count := count - |buckets[bucket]|;
        }
        buckets := buckets - {bucket};
        log := Between(start, first, bucket, false);
        bucket := bucket + BASE_BUCKET_MS;
      }
      WalkEnds(bucket, first, last);
      OutsideIsUnprocessed(start, open, close);
      count := Max(0, count);
    }
  }

  lemma ConfiguredLogs(logs: Logs, symbol: string, timeframes: set<string>)
    ensures var prior, after := SymbolLogs(logs, symbol), Step(logs, RawEventLog.Configure(symbol, timeframes));
            && after.Keys == logs.Keys + {symbol} && after[symbol].Keys == timeframes
            && (forall s :: s in logs && s != symbol ==> after[s] == logs[s])
            && forall t :: t in timeframes ==> after[symbol][t] == if t in prior then prior[t] else []
  {
  }

  lemma AppendedLogs(logs: Logs, e: TradeEvent)
    requires e.symbol in logs
    ensures var after := Step(logs, RawEventLog.Append(e));
            && after.Keys == logs.Keys
            && (forall s :: s in logs ==> after[s].Keys == logs[s].Keys)
            && forall s, t :: s in logs && t in logs[s] ==>
                 after[s][t] == if s == e.symbol then logs[s][t] + [e] else logs[s][t]
  {
  }

  lemma MarkedLogs(logs: Logs, symbol: string, timeframe: string, open: int, close: int)
    requires symbol in logs && timeframe in logs[symbol]
    ensures var after := Step(logs, RawEventLog.MarkProcessed(symbol, timeframe, open, close));
            && after.Keys == logs.Keys
            && (forall s :: s in logs ==> after[s].Keys == logs[s].Keys)
            && forall s, t :: s in logs && t in logs[s] ==>
                 after[s][t] == if s == symbol && t == timeframe then Unprocessed(logs[s][t], open, close)
                                else logs[s][t]
  {
  }

  // ----- counts over several logs -----

  ghost function Itself(): int -> int { (n: int) => n }

  ghost function Length(): seq<TradeEvent> -> int { (log: seq<TradeEvent>) => |log| }

  ghost function LengthOf(timeframe: string): map<string, seq<TradeEvent>> -> int {
    (logs: map<string, seq<TradeEvent>>) => if timeframe in logs then |logs[timeframe]| else 0
  }

  ghost function TotalLength(): map<string, seq<TradeEvent>> -> int {
    (logs: map<string, seq<TradeEvent>>) => MapSum(logs, Length())
  }

  method SumOf(counts: map<string, int>) returns (sum: int)
    ensures sum == MapSum(counts, Itself())
  {
    sum := 0;
    var rest := counts;
    while rest != map[]
      invariant sum + MapSum(rest, Itself()) == MapSum(counts, Itself())
      decreases |rest|
    {
      var k :| k in rest;
      MapSumRemove(rest, k, Itself());
      assert rest.Keys == (rest - {k}).Keys + {k};
      sum := sum + rest[k];
      rest := rest - {k};
    }
  }

  datatype SymbolStore = SymbolStore(timeframes: map<string, TimeframeStore>, active: set<string>)

  class RawMarketEventBuffer {
    /** The flat logs this buffer stands for. */
    ghost var logs: Logs
    var stores: map<string, SymbolStore>

    ghost function Cells(): set<TimeframeStore>
      reads this`stores
    {
      set s, t | s in stores && t in stores[s].timeframes :: stores[s].timeframes[t]
    }

    /** The cell knows its symbol and timeframe, so no two entries share one. */
    ghost predicate CellOk(s: string, t: string, cell: TimeframeStore, log: seq<TradeEvent>)
      reads cell
    {
      cell.symbol == s && cell.timeframe == t && cell.Valid() && cell.log == log
    }

    ghost predicate Valid()
      reads this, Cells()
    {
      && stores.Keys == logs.Keys
      && forall s :: s in stores ==>
           && stores[s].active == stores[s].timeframes.Keys == logs[s].Keys
           && forall t :: t in logs[s] ==> CellOk(s, t, stores[s].timeframes[t], logs[s][t])
    }

    constructor ()
      ensures Valid() && logs == Run([])
    {
      stores, logs := map[], map[];
    }

    /** Keeps the cells of `timeframes` and opens the missing ones. */
    method CellsFor(ghost symbol: string, prior: map<string, TimeframeStore>, timeframes: set<string>)
      returns (cells: map<string, TimeframeStore>)
      requires forall t :: t in prior ==> prior[t].symbol == symbol && prior[t].timeframe == t && prior[t].Valid()
      ensures cells.Keys == timeframes
      ensures forall t :: t in cells ==> CellOk(symbol, t, cells[t], if t in prior then prior[t].log else [])
      ensures forall t :: t in cells ==> if t in prior then cells[t] == prior[t] else fresh(cells[t])
    {
      cells := map t | t in prior && t in timeframes :: prior[t];
      var rest := timeframes - cells.Keys;
      while rest != {}
        invariant cells.Keys == timeframes - rest && rest <= timeframes && rest !! prior.Keys
        invariant forall t :: t in cells ==> CellOk(symbol, t, cells[t], if t in prior then prior[t].log else [])
        invariant forall t :: t in cells ==> if t in prior then cells[t] == prior[t] else fresh(cells[t])
      {
        var t :| t in rest;
        var cell := new TimeframeStore(symbol, t);
        cells := cells[t := cell];
        rest := rest - {t};
      }
    }

    method Configure(symbol: string, timeframes: set<string>)
      requires Valid()
      modifies this
      ensures Valid() && fresh(Cells() - old(Cells()))
      ensures logs == Step(old(logs), RawEventLog.Configure(symbol, timeframes))
    {
      var prior := if symbol in stores then stores[symbol].timeframes else map[];
      var cells := CellsFor(symbol, prior, timeframes);
      ConfiguredLogs(logs, symbol, timeframes);
      logs := Step(logs, RawEventLog.Configure(symbol, timeframes));
      stores := stores[symbol := SymbolStore(cells, timeframes)];
    }

    method AppendToAll(ghost symbol: string, cells: map<string, TimeframeStore>, e: TradeEvent)
      requires forall t :: t in cells ==> cells[t].symbol == symbol && cells[t].timeframe == t && cells[t].Valid()
      modifies cells.Values
      ensures forall t :: t in cells ==> CellOk(symbol, t, cells[t], old(cells[t].log) + [e])
    {
      var rest := cells.Keys;
      while rest != {}
        invariant rest <= cells.Keys
        invariant forall t :: t in cells ==>
                    CellOk(symbol, t, cells[t], if t in rest then old(cells[t].log) else old(cells[t].log) + [e])
      {
        var t :| t in rest;
        cells[t].Append(e);
        rest := rest - {t};
      }
    }

    method AddSymbol(symbol: string)
      requires Valid() && symbol !in stores
      modifies this
      ensures Valid() && Cells() <= old(Cells()) && logs == old(logs)[symbol := map[]]
    {
      stores := stores[symbol := SymbolStore(map[], {})];
      logs := logs[symbol := map[]];
    }

    method AppendTradeEvent(e: TradeEvent)
      requires Valid()
      modifies this, Cells()
      ensures Valid() && Cells() <= old(Cells())
      ensures logs == Step(old(logs), RawEventLog.Append(e))
    {
      if e.symbol !in stores {
        AddSymbol(e.symbol);
        assert logs[e.symbol] == map t | t in logs[e.symbol] :: [e];
      } else {
        AppendKnown(e);
      }
    }

    method AppendKnown(e: TradeEvent)
      requires Valid() && e.symbol in stores
      modifies this`logs, Cells()
      ensures Valid() && Cells() == old(Cells())
      ensures logs == Step(old(logs), RawEventLog.Append(e))
    {
      AppendCells(e);
      AppendedLogs(logs, e);
      logs := Step(logs, RawEventLog.Append(e));
    }

    method AppendCells(e: TradeEvent)
      requires Valid() && e.symbol in stores
      modifies Cells()
      ensures logs == old(logs) && stores == old(stores)
      ensures forall s, t :: s in logs && t in logs[s] ==>
                CellOk(s, t, stores[s].timeframes[t], if s == e.symbol then logs[s][t] + [e] else logs[s][t])
    {
      Apart(e.symbol);
      AppendToAll(e.symbol, stores[e.symbol].timeframes, e);
    }

    /** No cell of another symbol is a cell of this one. */
    lemma Apart(symbol: string)
      requires Valid() && symbol in stores
      ensures forall s, t :: s in logs && s != symbol && t in logs[s] ==>
                stores[s].timeframes[t] !in stores[symbol].timeframes.Values
    {
      forall s, t | s in logs && s != symbol && t in logs[s]
        ensures stores[s].timeframes[t] !in stores[symbol].timeframes.Values
      {
        assert CellOk(s, t, stores[s].timeframes[t], logs[s][t]);
      }
    }

    method MarkTimeframeProcessed(symbol: string, timeframe: string, open: int, close: int)
      requires Valid()
      modifies this`logs, Cells()
      ensures Valid() && Cells() == old(Cells())
      ensures logs == Step(old(logs), RawEventLog.MarkProcessed(symbol, timeframe, open, close))
    {
      if symbol in stores && timeframe in stores[symbol].timeframes {
        MarkKnown(symbol, timeframe, open, close);
      }
    }

    method MarkKnown(symbol: string, timeframe: string, open: int, close: int)
      requires Valid() && symbol in stores && timeframe in stores[symbol].timeframes
      modifies this`logs, Cells()
      ensures Valid() && Cells() == old(Cells())
      ensures logs == Step(old(logs), RawEventLog.MarkProcessed(symbol, timeframe, open, close))
    {
      MarkCell(symbol, timeframe, open, close);
      MarkedLogs(logs, symbol, timeframe, open, close);
      logs := Step(logs, RawEventLog.MarkProcessed(symbol, timeframe, open, close));
    }

    method MarkCell(symbol: string, timeframe: string, open: int, close: int)
      requires Valid() && symbol in stores && timeframe in stores[symbol].timeframes
      modifies Cells()
      ensures logs == old(logs) && stores == old(stores)
      ensures forall s, t :: s in logs && t in logs[s] ==>
                CellOk(s, t, stores[s].timeframes[t],
                       if s == symbol && t == timeframe then Unprocessed(logs[s][t], open, close) else logs[s][t])
    {
      var cell := stores[symbol].timeframes[timeframe];
      assert CellOk(symbol, timeframe, cell, logs[symbol][timeframe]);
      forall s, t | s in logs && t in logs[s] && (s != symbol || t != timeframe)
        ensures stores[s].timeframes[t] != cell
      {
        assert CellOk(s, t, stores[s].timeframes[t], logs[s][t]);
      }
      cell.MarkProcessed(open, close);
    }

    method RemoveInactiveSymbols(active: set<string>)
      requires Valid()
      modifies this
      ensures Valid() && Cells() <= old(Cells())
      ensures logs == Step(old(logs), RawEventLog.RemoveInactive(active))
    {
      stores := map s | s in stores && s in active :: stores[s];
      logs := Step(logs, RawEventLog.RemoveInactive(active));
    }

    method SnapshotTradeEvents(symbol: string, timeframe: string, open: int,
                               close: int) returns (events: seq<TradeEvent>)
      requires Valid()
      ensures Sorting.SortedBy(events, ByTime())
      ensures multiset(events) == multiset(Within(LogOf(logs, symbol, timeframe), open, close))
    {
      if symbol !in stores || timeframe !in stores[symbol].timeframes {
        return [];
      }
      events := stores[symbol].timeframes[timeframe].Snapshot(open, close);
    }

    method PendingCount(symbol: string, timeframe: string) returns (count: int)
      requires Valid()
      ensures count == |LogOf(logs, symbol, timeframe)|
    {
      if symbol !in stores || timeframe !in stores[symbol].timeframes {
        return 0;
      }
      count := stores[symbol].timeframes[timeframe].count;
    }

    /** The count over all timeframes of a symbol. */
    method PendingOfSymbol(symbol: string) returns (count: int)
      requires Valid()
      ensures count == if symbol in logs then MapSum(logs[symbol], Length()) else 0
    {
      if symbol !in stores {
        return 0;
      }
      var cells := stores[symbol].timeframes;
      var counts := map t | t in cells :: cells[t].count;
      count := SumOf(counts);
      forall t | t in logs[symbol] ensures counts[t] == Length()(logs[symbol][t]) {
        assert CellOk(symbol, t, cells[t], logs[symbol][t]);
      }
      SameMapSum(counts, logs[symbol], Itself(), Length());
    }

    /** The count of one timeframe over all symbols. */
    method PendingOfTimeframe(timeframe: string) returns (count: int)
      requires Valid()
      ensures count == MapSum(logs, LengthOf(timeframe))
    {
      var counts := map s | s in stores ::
          if timeframe in stores[s].timeframes then stores[s].timeframes[timeframe].count else 0;
      count := SumOf(counts);
      forall s | s in logs ensures counts[s] == LengthOf(timeframe)(logs[s]) {
        assert timeframe in logs[s] ==> CellOk(s, timeframe, stores[s].timeframes[timeframe], logs[s][timeframe]);
      }
      SameMapSum(counts, logs, Itself(), LengthOf(timeframe));
    }

    /** The count of everything retained. */
    method PendingInAll() returns (count: int)
      requires Valid()
      ensures count == MapSum(logs, TotalLength())
    {
      count := 0;
      var rest := stores.Keys;
      ghost var left := logs;
      while rest != {}
        invariant left.Keys == rest <= stores.Keys && forall s :: s in left ==> left[s] == logs[s]
        invariant count + MapSum(left, TotalLength()) == MapSum(logs, TotalLength())
      {
        var s :| s in rest;
        var more := PendingOfSymbol(s);
        MapSumRemove(left, s, TotalLength());
        count := count + more;
        rest, left := rest - {s}, left - {s};
      }
    }
  }
}
