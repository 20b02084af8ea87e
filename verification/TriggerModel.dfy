/** The candle-driven trading state machine of one symbol and timeframe (triggerEngine.py): how one
    candle ages and touches the remembered zones, opens, reverses and closes the position. */
module TriggerModel {
  import opened Wrappers

  const MIN_RETEST_CANDLES_SINCE_REFERENCE := 5
  const REFERENCE_TIMEOUT_CANDLES := 100
  const TOUCHED_ZONE_TIMEOUT_CANDLES := 10

  datatype Direction = Long | Short | NoDirection

  function Opposite(d: Direction): Direction {
    match d
    case Long => Short
    case Short => Long
    case NoDirection => NoDirection
  }

  datatype Bin = Bin(center: Option<real>, buy: real, sell: real)

  /** `interval` is the candle length in milliseconds, when the timeframe is known. */
  datatype Candle = Candle(
    symbol: string, timeframe: string, openTime: Option<int>, interval: Option<int>,
    low: Option<real>, high: Option<real>, bins: seq<Bin>)

  datatype SetupState = AbsorptionFound | ZoneTouched

  datatype Setup = Setup(
    state: SetupState, direction: Direction, referenceId: string, referenceTime: int,
    zoneLow: Option<real>, zoneHigh: Option<real>, confirmTime: int, age: int)

  /** A refill record that qualifies as an entry reference on this candle. */
  datatype Absorption = Absorption(
    referenceId: string, direction: Direction, referenceTime: Option<int>,
    zoneLow: Option<real>, zoneHigh: Option<real>)

  /** The inputs that the position id is hashed from. */
  datatype PositionId = PositionId(symbol: string, timeframe: string, side: Direction, referenceTime: int,
                                   openTime: int)

  /** `setup` is the setup that fired, as it was before the candle. */
  datatype Signal =
    | Entry(side: Direction, id: PositionId, setup: Setup, bin: Bin, stop: Option<real>)
    | Exit(side: Direction, id: PositionId, reversal: bool)

  datatype Position = Position(id: PositionId, side: Direction, stop: Option<real>)

  datatype Phase = Idle | Found | Touched | Trading

  datatype EntryState = EntryState(phase: Phase, setups: seq<Setup>)

  const Reset := EntryState(Idle, [])

  datatype KeyState = KeyState(entry: EntryState, position: Option<Position>)

  /** One candle with what the refill memory offers on it: entry references, best first, and
      whether an exit refill was found on the closed or the current candle. */
  datatype Input = Input(candle: Candle, absorptions: seq<Absorption>, exitFound: bool)

  // ----- one setup on one candle -----

  function OpenOrZero(c: Candle): int { if c.openTime.Some? then c.openTime.value else 0 }

  /** Whole candles since `start`, when that can be told. */
  function Elapsed(c: Candle, start: int): Option<int> {
    if c.openTime.None? || start <= 0 || c.interval.None? || c.interval.value <= 0 || c.openTime.value < start then None
    else Some((c.openTime.value - start) / c.interval.value)
  }

  predicate TimedOut(c: Candle, s: Setup) {
    var elapsed := Elapsed(c, s.confirmTime);
    elapsed.Some? && elapsed.value > TOUCHED_ZONE_TIMEOUT_CANDLES
  }

  predicate TouchesZone(c: Candle, s: Setup) {
    && s.zoneLow.Some? && s.zoneHigh.Some?
    && match s.direction
       case Long => c.low.Some? && c.low.value <= s.zoneHigh.value
       case Short => c.high.Some? && c.high.value >= s.zoneLow.value
       case NoDirection => false
  }

  function Higher(a: real, b: real): real { if a >= b then a else b }

  function Lower(a: real, b: real): real { if a <= b then a else b }

  function Executed(b: Bin, d: Direction): real { if d == Long then b.buy else b.sell }

  /** A bin with executions in the entry direction whose centre lies strictly beyond the zone. */
  predicate Executes(b: Bin, s: Setup, d: Direction) {
    && s.zoneLow.Some? && s.zoneHigh.Some? && b.center.Some? && d != NoDirection && Executed(b, d) > 0.0
    && (d == Long ==> b.center.value > Higher(s.zoneLow.value, s.zoneHigh.value))
    && (d == Short ==> b.center.value < Lower(s.zoneLow.value, s.zoneHigh.value))
  }

  /** `a` is preferred to `b`: nearer to the zone, then with more contracts. */
  predicate Preferred(a: Bin, b: Bin, d: Direction)
    requires a.center.Some? && b.center.Some?
  {
    || (d == Long && a.center.value < b.center.value)
    || (d != Long && a.center.value > b.center.value)
    || (a.center.value == b.center.value && Executed(a, d) > Executed(b, d))
  }

  /** The first most preferred executing bin. */
  function ExecutionBin(bins: seq<Bin>, s: Setup, d: Direction): (r: Option<Bin>)
    ensures r.Some? ==> r.value in bins && Executes(r.value, s, d)
  {
    if bins == [] then None
    else
      var before := ExecutionBin(bins[..|bins| - 1], s, d);
      var b := bins[|bins| - 1];
      if Executes(b, s, d) && (before.None? || Preferred(b, before.value, d)) then Some(b) else before
  }

  lemma {:induction false} ExecutionBinBest(bins: seq<Bin>, s: Setup, d: Direction)
    ensures ExecutionBin(bins, s, d).None? ==> forall b :: b in bins ==> !Executes(b, s, d)
    ensures ExecutionBin(bins, s, d).Some? ==>
              forall b :: b in bins && Executes(b, s, d) ==> !Preferred(b, ExecutionBin(bins, s, d).value, d)
  {
    if bins != [] {
      ExecutionBinBest(bins[..|bins| - 1], s, d);
      assert bins == bins[..|bins| - 1] + [bins[|bins| - 1]];
    }
  }

  function EntrySignal(c: Candle, s: Setup, bin: Bin): Signal {
    Entry(s.direction, PositionId(c.symbol, c.timeframe, s.direction, s.referenceTime, OpenOrZero(c)), s, bin,
          if s.direction == Long then s.zoneLow else s.zoneHigh)
  }

  datatype Processed = Processed(signal: Option<Signal>, keep: bool, after: Setup)

  function Fired(c: Candle, s: Setup, aged: Setup, bin: Bin): Processed {
    Processed(Some(EntrySignal(c, s, bin)), true,
              if aged.confirmTime <= 0 then aged.(confirmTime := OpenOrZero(c)) else aged)
  }

  function ProcessSetup(c: Candle, s: Setup): Processed {
    var aged := s.(age := s.age + 1);
    if s.state == ZoneTouched && TimedOut(c, s) then Processed(None, false, aged)
    else if s.state != ZoneTouched && aged.age > REFERENCE_TIMEOUT_CANDLES then Processed(None, false, aged)
    else if s.direction == NoDirection then Processed(None, true, aged)
    else
      var bin := ExecutionBin(c.bins, s, s.direction);
      if s.state == ZoneTouched && bin.Some? then Fired(c, s, aged, bin.value)
      else if !TouchesZone(c, s) then Processed(None, true, aged)
      else if s.state == AbsorptionFound && aged.age >= MIN_RETEST_CANDLES_SINCE_REFERENCE then
        if bin.Some? then Fired(c, s, aged, bin.value)
        else Processed(None, true, aged.(state := ZoneTouched, confirmTime := OpenOrZero(c)))
      else Processed(None, true, aged)
  }

  // ----- the setups of a state -----

  /** `all` are the setups as the candle leaves them, `kept` the survivors. */
  datatype Scan = Scan(signal: Option<Signal>, all: seq<Setup>, kept: seq<Setup>)

  /** Processes setups in order until one fires; `wanted` restricts it to one direction. */
  function ScanSetups(c: Candle, setups: seq<Setup>, wanted: Option<Direction>): Scan {
    if setups == [] then Scan(None, [], [])
    else if wanted.Some? && setups[0].direction != wanted.value then
      var rest := ScanSetups(c, setups[1..], wanted);
      Scan(rest.signal, [setups[0]] + rest.all, [setups[0]] + rest.kept)
    else
      var p := ProcessSetup(c, setups[0]);
      if p.signal.Some? then Scan(p.signal, [p.after] + setups[1..], [])
      else
        var rest := ScanSetups(c, setups[1..], wanted);
        Scan(rest.signal, [p.after] + rest.all, (if p.keep then [p.after] else []) + rest.kept)
  }

  function NewSetup(c: Candle, a: Absorption): Setup {
    Setup(AbsorptionFound, a.direction, a.referenceId,
          if a.referenceTime.Some? && a.referenceTime.value != 0 then a.referenceTime.value else OpenOrZero(c),
          a.zoneLow, a.zoneHigh, 0, 0)
  }

  function PhaseOf(setups: seq<Setup>): Phase {
    if setups == [] then Idle else if setups[0].state == AbsorptionFound then Found else Touched
  }

  function Synced(setups: seq<Setup>): EntryState { EntryState(PhaseOf(setups), setups) }

  /** While flat: process every setup, then remember the best reference of the candle. */
  function EntryStep(i: Input, st: EntryState): (Option<Signal>, EntryState) {
    var scan := ScanSetups(i.candle, st.setups, None);
    if scan.signal.Some? then (scan.signal, st.(setups := scan.all))
    else
      var kept := if st.setups != [] then Synced(scan.kept) else st;
      (None, if i.absorptions != [] then Synced(kept.setups + [NewSetup(i.candle, i.absorptions[0])]) else kept)
  }

  /** While in a position: remember references of the opposite direction, each id once. */
  function Remember(c: Candle, absorptions: seq<Absorption>, wanted: Direction, setups: seq<Setup>,
                    ids: set<string>): seq<Setup> {
    if absorptions == [] then setups
    else
      var a := absorptions[0];
      if a.direction != wanted || (a.referenceId != "" && a.referenceId in ids) then
        Remember(c, absorptions[1..], wanted, setups, ids)
      else
        Remember(c, absorptions[1..], wanted, setups + [NewSetup(c, a)],
                 if a.referenceId != "" then ids + {a.referenceId} else ids)
  }

  function IdsOf(setups: seq<Setup>, wanted: Direction): set<string> {
    set s | s in setups && s.direction == wanted :: s.referenceId
  }

  function AgainstEntry(setups: seq<Setup>, entered: Direction): seq<Setup> {
    if setups == [] then []
    else (if setups[0].direction != NoDirection && setups[0].direction != entered then [setups[0]] else [])
         + AgainstEntry(setups[1..], entered)
  }

  function Opened(st: EntryState, e: Signal): KeyState
    requires e.Entry?
  {
    KeyState(EntryState(Trading, AgainstEntry(st.setups, e.side)), Some(Position(e.id, e.side, e.stop)))
  }

  function FlatStep(i: Input, st: EntryState): (KeyState, seq<Signal>) {
    var (signal, after) := EntryStep(i, if st.phase == Trading then Reset else st);
    if signal.None? then (KeyState(after, None), [])
    else if signal.value.Entry? then (Opened(after, signal.value), [signal.value])
    else (KeyState(after, None), [])
  }

  function HoldingStep(i: Input, st: EntryState, p: Position): (KeyState, seq<Signal>) {
    var wanted := Opposite(p.side);
    var scan := ScanSetups(i.candle, st.setups, Some(wanted));
    if scan.signal.Some? && scan.signal.value.Entry? then
      (Opened(EntryState(Trading, scan.kept), scan.signal.value), [Exit(p.side, p.id, true), scan.signal.value])
    else
      var setups := Remember(i.candle, i.absorptions, wanted, scan.kept, IdsOf(scan.kept, wanted));
      if i.exitFound then (KeyState(Reset, None), [Exit(p.side, p.id, false)])
      else (KeyState(EntryState(Trading, setups), Some(p)), [])
  }

  function Step(k: KeyState, i: Input): (KeyState, seq<Signal>) {
    if k.position.None? then FlatStep(i, k.entry) else HoldingStep(i, k.entry, k.position.value)
  }

  /** The state and all signals after a run of candles from empty stores. */
  function Run(inputs: seq<Input>): (KeyState, seq<Signal>) {
    if inputs == [] then (KeyState(Reset, None), [])
    else
      var (k, signals) := Run(inputs[..|inputs| - 1]);
      var (k', more) := Step(k, inputs[|inputs| - 1]);
      (k', signals + more)
  }
}
