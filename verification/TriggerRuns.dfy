/** Properties of the trading state machine over whole runs. */
module TriggerRuns {
  import opened Wrappers
  import opened TriggerModel
  import opened TriggerRules

  // ----- the grammar of signals -----

  datatype Trace = Flat | Holding(side: Direction, id: PositionId) | Reversing(side: Direction) | Broken

  /** Entry, exit, entry, ...; an exit names the open position; a reversal is an exit that the
      opposite entry must follow at once. */
  function Next(t: Trace, s: Signal): Trace {
    match t
    case Flat => if s.Entry? then Holding(s.side, s.id) else Broken
    case Holding(side, id) =>
      if s.Exit? && s.side == side && s.id == id then (if s.reversal then Reversing(side) else Flat) else Broken
    case Reversing(side) => if s.Entry? && s.side == Opposite(side) then Holding(s.side, s.id) else Broken
    case Broken => Broken
  }

  function Read(t: Trace, signals: seq<Signal>): Trace {
    if signals == [] then t else Next(Read(t, signals[..|signals| - 1]), signals[|signals| - 1])
  }

  lemma {:induction false} ReadAppend(t: Trace, a: seq<Signal>, b: seq<Signal>)
    ensures Read(t, a + b) == Read(Read(t, a), b)
  {
    if b == [] {
      assert a + b == a;
    } else {
      ReadAppend(t, a, b[..|b| - 1]);
      assert (a + b)[..|a + b| - 1] == a + b[..|b| - 1];
    }
  }

  /** The trace that a stored position, or none, stands for. */
  function Stored(p: Option<Position>): Trace {
    if p.None? then Flat else Holding(p.value.side, p.value.id)
  }

  /** While a position is open the machine is trading and remembers only the opposite direction. */
  ghost predicate KeyOk(k: KeyState) {
    k.position.Some? ==>
      && k.entry.phase == Trading && k.position.value.side != NoDirection
      && forall s :: s in k.entry.setups ==> s.direction == Opposite(k.position.value.side)
  }

  lemma FiredSide(c: Candle, s: Setup)
    ensures ProcessSetup(c, s).after.direction == s.direction
    ensures ProcessSetup(c, s).signal.Some? ==>
              var e := ProcessSetup(c, s).signal.value; e.Entry? && e.side == s.direction != NoDirection && e.setup == s
  {
  }

  /** What a scan may fire: a setup it was given, of the wanted direction. */
  lemma {:induction false} ScanFires(c: Candle, setups: seq<Setup>, wanted: Option<Direction>)
    requires ScanSetups(c, setups, wanted).signal.Some?
    ensures var e := ScanSetups(c, setups, wanted).signal.value;
            && e.Entry? && e.setup in setups && e.side == e.setup.direction != NoDirection
            && (wanted.Some? ==> e.side == wanted.value)
            && ProcessSetup(c, e.setup).signal == Some(e)
  {
    FiredSide(c, setups[0]);
    if (wanted.Some? && setups[0].direction != wanted.value) || ProcessSetup(c, setups[0]).signal.None? {
      ScanFires(c, setups[1..], wanted);
    }
  }

  lemma {:induction false} ScanKeepsDirection(c: Candle, setups: seq<Setup>, wanted: Option<Direction>, d: Direction)
    requires forall s :: s in setups ==> s.direction == d
    ensures forall s :: s in ScanSetups(c, setups, wanted).kept ==> s.direction == d
  {
    if setups != [] {
      FiredSide(c, setups[0]);
      ScanKeepsDirection(c, setups[1..], wanted, d);
    }
  }

  lemma ReadTwo(t: Trace, a: Signal, b: Signal)
    ensures Read(t, [a, b]) == Next(Next(t, a), b)
  {
    assert [a, b][..1] == [a];
    ReadOne(t, a);
  }

  lemma ReadOne(t: Trace, a: Signal)
    ensures Read(t, [a]) == Next(t, a)
  {
    assert [a][..0] == [];
  }

  lemma {:induction false} AgainstEntryFacts(setups: seq<Setup>, entered: Direction)
    ensures forall s :: s in AgainstEntry(setups, entered) ==>
        s in setups && s.direction != NoDirection && s.direction != entered
  {
    if setups != [] {
      AgainstEntryFacts(setups[1..], entered);
    }
  }

  lemma {:induction false} RememberFacts(c: Candle, absorptions: seq<Absorption>, wanted: Direction,
                                         setups: seq<Setup>, ids: set<string>)
    ensures forall s :: s in Remember(c, absorptions, wanted, setups, ids) ==>
              s in setups || (s.direction == wanted && exists a :: a in absorptions && s == NewSetup(c, a))
  {
    if absorptions != [] {
      var a := absorptions[0];
      assert absorptions == [a] + absorptions[1..];
      if a.direction != wanted || (a.referenceId != "" && a.referenceId in ids) {
        RememberFacts(c, absorptions[1..], wanted, setups, ids);
      } else {
        RememberFacts(c, absorptions[1..], wanted, setups + [NewSetup(c, a)],
                      if a.referenceId != "" then ids + {a.referenceId} else ids);
      }
    }
  }

  lemma OpenedOk(st: EntryState, e: Signal)
    requires e.Entry? && e.side != NoDirection
    ensures KeyOk(Opened(st, e)) && Stored(Opened(st, e).position) == Holding(e.side, e.id)
  {
    AgainstEntryFacts(st.setups, e.side);
  }

  lemma FlatStepOk(i: Input, st: EntryState)
    ensures KeyOk(FlatStep(i, st).0) && Read(Flat, FlatStep(i, st).1) == Stored(FlatStep(i, st).0.position)
  {
    var start := if st.phase == Trading then Reset else st;
    var (signal, after) := EntryStep(i, start);
    if signal.Some? {
      ScanFires(i.candle, start.setups, None);
      OpenedOk(after, signal.value);
      ReadOne(Flat, signal.value);
    }
  }

  lemma HoldingStepOk(i: Input, st: EntryState, p: Position)
    requires KeyOk(KeyState(st, Some(p)))
    ensures KeyOk(HoldingStep(i, st, p).0)
    ensures Read(Holding(p.side, p.id), HoldingStep(i, st, p).1) == Stored(HoldingStep(i, st, p).0.position)
  {
    var wanted := Opposite(p.side);
    var scan := ScanSetups(i.candle, st.setups, Some(wanted));
    if scan.signal.Some? {
      ScanFires(i.candle, st.setups, Some(wanted));
      OpenedOk(EntryState(Trading, scan.kept), scan.signal.value);
      ReadTwo(Holding(p.side, p.id), Exit(p.side, p.id, true), scan.signal.value);
    } else {
      ScanKeepsDirection(i.candle, st.setups, Some(wanted), wanted);
      RememberFacts(i.candle, i.absorptions, wanted, scan.kept, IdsOf(scan.kept, wanted));
      ReadOne(Holding(p.side, p.id), Exit(p.side, p.id, false));
    }
  }

  /** Main result: over every run of candles the signals follow the grammar, and the stored position
      is exactly the entry that the signals have left open; while it is open every remembered setup
      has the opposite direction. */
  lemma {:induction false} SignalGrammar(inputs: seq<Input>)
    ensures Read(Flat, Run(inputs).1) == Stored(Run(inputs).0.position)
    ensures KeyOk(Run(inputs).0)
  {
    if inputs != [] {
      var (k, signals) := Run(inputs[..|inputs| - 1]);
      var i := inputs[|inputs| - 1];
      SignalGrammar(inputs[..|inputs| - 1]);
      ReadAppend(Flat, signals, Step(k, i).1);
      if k.position.None? {
        FlatStepOk(i, k.entry);
      } else {
        HoldingStepOk(i, k.entry, k.position.value);
      }
    }
  }

  // ----- the life of a setup -----

  ghost function At(inputs: seq<Input>, n: nat): KeyState
    requires n <= |inputs|
  {
    Run(inputs[..n]).0
  }

  predicate SameReference(a: Setup, b: Setup) {
    && a.direction == b.direction && a.referenceId == b.referenceId && a.referenceTime == b.referenceTime
    && a.zoneLow == b.zoneLow && a.zoneHigh == b.zoneHigh
  }

  /** At candle `m` the setup `s0` was still untouched, 5 to 100 candles old, and was marked touched
      because the candle reached its zone; `s` is that setup later. */
  ghost predicate MarkedAt(inputs: seq<Input>, m: nat, s0: Setup, s: Setup)
    requires m < |inputs|
  {
    && s0 in At(inputs, m).entry.setups && SameReference(s0, s)
    && Retests(inputs[m].candle, s0)
    && s.confirmTime == OpenOrZero(inputs[m].candle) && s0.age < s.age
  }

  ghost predicate Marked(inputs: seq<Input>, n: nat, s: Setup)
    requires n <= |inputs|
  {
    exists m: nat, s0 :: m < n && MarkedAt(inputs, m, s0, s)
  }

  ghost predicate SetupOk(inputs: seq<Input>, n: nat, s: Setup)
    requires n <= |inputs|
  {
    s.age >= 0 && (s.state == ZoneTouched ==> Marked(inputs, n, s))
  }

  /** `s` is what a candle without an entry makes of `s0`. */
  predicate AgedFrom(c: Candle, s0: Setup, s: Setup) {
    ProcessSetup(c, s0).signal.None? && s == ProcessSetup(c, s0).after
  }

  /** Where the setups after a candle come from. */
  ghost predicate Comes(c: Candle, setups: seq<Setup>, absorptions: seq<Absorption>, s: Setup) {
    || s in setups
    || (exists s0 :: s0 in setups && AgedFrom(c, s0, s))
    || (exists a :: a in absorptions && s == NewSetup(c, a))
  }

  lemma {:induction false} ScanOrigin(c: Candle, setups: seq<Setup>, wanted: Option<Direction>, fired: Option<Signal>)
    requires ScanSetups(c, setups, wanted).signal == fired
    ensures var scan := ScanSetups(c, setups, wanted);
            && (forall s :: s in scan.kept ==> Comes(c, setups, [], s))
            && (forall s :: s in scan.all ==>
                  Comes(c, setups, [], s) || (fired.Some? && fired.value.Entry? && s.direction == fired.value.side))
  {
    if setups != [] {
      var rest := ScanSetups(c, setups[1..], wanted);
      assert setups == [setups[0]] + setups[1..];
      FiredSide(c, setups[0]);
      ScanOrigin(c, setups[1..], wanted, rest.signal);
      forall s | Comes(c, setups[1..], [], s) ensures Comes(c, setups, [], s) { }
      var after := ProcessSetup(c, setups[0]).after;
      assert AgedFrom(c, setups[0], after) ==> Comes(c, setups, [], after);
      assert Comes(c, setups, [], setups[0]);
    }
  }

  lemma StepOrigin(k: KeyState, i: Input, s: Setup)
    requires s in Step(k, i).0.entry.setups
    ensures Comes(i.candle, k.entry.setups, i.absorptions, s)
  {
    var c := i.candle;
    if k.position.None? {
      var start := if k.entry.phase == Trading then Reset else k.entry;
      var scan := ScanSetups(c, start.setups, None);
      ScanOrigin(c, start.setups, None, scan.signal);
      if scan.signal.Some? {
        ScanFires(c, start.setups, None);
        AgainstEntryFacts(scan.all, scan.signal.value.side);
      }
    } else {
      var wanted := Opposite(k.position.value.side);
      var scan := ScanSetups(c, k.entry.setups, Some(wanted));
      ScanOrigin(c, k.entry.setups, Some(wanted), scan.signal);
      if scan.signal.Some? {
        ScanFires(c, k.entry.setups, Some(wanted));
        AgainstEntryFacts(scan.kept, scan.signal.value.side);
      } else {
        RememberFacts(c, i.absorptions, wanted, scan.kept, IdsOf(scan.kept, wanted));
      }
    }
  }

  lemma AtNext(inputs: seq<Input>, n: nat)
    requires n < |inputs|
    ensures At(inputs, n + 1) == Step(At(inputs, n), inputs[n]).0
  {
    assert inputs[..n + 1][..n] == inputs[..n];
  }

  lemma OneCandle(inputs: seq<Input>, n: nat, s: Setup)
    requires n < |inputs| && s in At(inputs, n).entry.setups && SetupOk(inputs, n, s)
    requires ProcessSetup(inputs[n].candle, s).signal.None?
    ensures SetupOk(inputs, n + 1, ProcessSetup(inputs[n].candle, s).after)
  {
    var s' := ProcessSetup(inputs[n].candle, s).after;
    if s.state == ZoneTouched {
      var m: nat, s0 :| m < n && MarkedAt(inputs, m, s0, s);
      assert MarkedAt(inputs, m, s0, s');
    } else if s'.state == ZoneTouched {
      assert MarkedAt(inputs, n, s, s');
    }
  }

  /** Every touched setup that is ever remembered was marked by a retest inside its age bounds. */
  lemma {:induction false} SetupsOk(inputs: seq<Input>, n: nat)
    requires n <= |inputs|
    ensures forall s :: s in At(inputs, n).entry.setups ==> SetupOk(inputs, n, s)
  {
    if n > 0 {
      SetupsOk(inputs, n - 1);
      AtNext(inputs, n - 1);
      var k, i := At(inputs, n - 1), inputs[n - 1];
      forall s | s in At(inputs, n).entry.setups ensures SetupOk(inputs, n, s) {
        StepOrigin(k, i, s);
        if s in k.entry.setups {
          if s.state == ZoneTouched {
            var m: nat, s0 :| m < n - 1 && MarkedAt(inputs, m, s0, s);
            assert MarkedAt(inputs, m, s0, s);
          }
        } else if s0 :| s0 in k.entry.setups && AgedFrom(i.candle, s0, s) {
          OneCandle(inputs, n - 1, s0);
        }
      }
    }
  }

  lemma {:induction false} ScanFiresIffReady(c: Candle, setups: seq<Setup>, wanted: Option<Direction>)
    ensures ScanSetups(c, setups, wanted).signal.Some?
       <==> exists s :: s in setups && (wanted.Some? ==> s.direction == wanted.value) && Ready(c, s)
  {
    if setups != [] {
      FiresIffReady(c, setups[0]);
      ScanFiresIffReady(c, setups[1..], wanted);
      assert setups == [setups[0]] + setups[1..];
    }
  }

  /** Trading exactly while a position is open, idle only with nothing remembered. */
  lemma {:induction false} PhaseOk(inputs: seq<Input>, n: nat)
    requires n <= |inputs|
    ensures var k := At(inputs, n);
            (k.entry.phase == Trading <==> k.position.Some?) && (k.entry.phase == Idle ==> k.entry.setups == [])
  {
    if n > 0 {
      PhaseOk(inputs, n - 1);
      AtNext(inputs, n - 1);
      var k, i := At(inputs, n - 1), inputs[n - 1];
      if k.position.None? && ScanSetups(i.candle, k.entry.setups, None).signal.Some? {
        ScanFires(i.candle, k.entry.setups, None);
      }
    }
  }

  /** Main result: in every reachable state a candle enters exactly when some remembered setup is ready. */
  lemma EntersIffReady(inputs: seq<Input>, n: nat)
    requires n < |inputs|
    ensures (exists e :: e in Step(At(inputs, n), inputs[n]).1 && e.Entry?)
       <==> (exists s :: s in At(inputs, n).entry.setups && Ready(inputs[n].candle, s))
  {
    var k, i := At(inputs, n), inputs[n];
    SignalGrammar(inputs[..n]);
    PhaseOk(inputs, n);
    var wanted := if k.position.None? then None else Some(Opposite(k.position.value.side));
    ScanFiresIffReady(i.candle, k.entry.setups, wanted);
    if ScanSetups(i.candle, k.entry.setups, wanted).signal.Some? {
      ScanFires(i.candle, k.entry.setups, wanted);
      var e := ScanSetups(i.candle, k.entry.setups, wanted).signal.value;
      assert Step(k, i).1[if k.position.None? then 0 else 1] == e;
    }
  }

  lemma EntryOf(inputs: seq<Input>, n: nat, e: Signal)
    requires n < |inputs| && e.Entry? && e in Step(At(inputs, n), inputs[n]).1
    ensures e.setup in At(inputs, n).entry.setups && ProcessSetup(inputs[n].candle, e.setup).signal == Some(e)
  {
    var k, i := At(inputs, n), inputs[n];
    PhaseOk(inputs, n);
    var wanted := if k.position.None? then None else Some(Opposite(k.position.value.side));
    if ScanSetups(i.candle, k.entry.setups, wanted).signal.Some? {
      ScanFires(i.candle, k.entry.setups, wanted);
    }
  }

  /** The candle opens at most ten whole candles after candle `m`, as far as both times are known. */
  predicate WithinTenCandles(m: Candle, now: Candle) {
    && m.openTime.Some? && now.openTime.Some? && now.interval.Some?
    && 0 < m.openTime.value <= now.openTime.value && now.interval.value > 0
    ==> (now.openTime.value - m.openTime.value) / now.interval.value <= 10
  }

  lemma NotTimedOut(m: Candle, now: Candle, s: Setup)
    requires s.confirmTime == OpenOrZero(m) && !ElevenCandlesOn(now, s.confirmTime)
    ensures WithinTenCandles(m, now)
  {
    TimeoutIsEleven(now, s);
  }

  /** Main result: every entry of every run is legitimate. Its setup either retests its zone on this
      very candle, or was marked touched by such a retest on an earlier candle at most ten candles
      ago; the bin it enters on lies strictly beyond the whole zone, and the stop strictly on the
      other side of that bin; no traded bin beyond the zone is nearer to it; the position is named after
      the setup's reference and this candle. */
  lemma EntryLegit(inputs: seq<Input>, n: nat, e: Signal)
    requires n < |inputs| && e.Entry? && e in Step(At(inputs, n), inputs[n]).1
    ensures e.setup in At(inputs, n).entry.setups && e.side == e.setup.direction
    ensures || Retests(inputs[n].candle, e.setup)
            || (e.setup.state == ZoneTouched && exists m: nat, s0 ::
                  m < n && MarkedAt(inputs, m, s0, e.setup) && WithinTenCandles(inputs[m].candle, inputs[n].candle))
    ensures e.bin in inputs[n].candle.bins && e.bin.center.Some? && e.stop.Some?
    ensures e.setup.zoneLow.Some? && e.setup.zoneHigh.Some?
    ensures var x, lo, hi := e.bin.center.value, e.setup.zoneLow.value, e.setup.zoneHigh.value;
            && (e.side == Long ==> x > lo && x > hi && e.stop.value == lo && e.bin.buy > 0.0)
            && (e.side != Long ==> x < lo && x < hi && e.stop.value == hi && e.bin.sell > 0.0)
    ensures EntersOn(inputs[n].candle, e.setup, e)
  {
    EntryOf(inputs, n, e);
    SetupsOk(inputs, n);
    var c, s := inputs[n].candle, e.setup;
    FiresIffReady(c, s);
    FiresOn(c, s);
    if s.state == ZoneTouched {
      var m: nat, s0 :| m < n && MarkedAt(inputs, m, s0, s);
      NotTimedOut(inputs[m].candle, c, s);
    }
  }

  // ----- references remembered while a position is open -----

  function CountOf(setups: seq<Setup>, wanted: Direction, id: string): nat {
    if setups == [] then 0
    else CountOf(setups[..|setups| - 1], wanted, id)
         + if setups[|setups| - 1].direction == wanted && setups[|setups| - 1].referenceId == id then 1 else 0
  }

  predicate Offers(absorptions: seq<Absorption>, wanted: Direction, id: string) {
    exists a :: a in absorptions && a.direction == wanted && a.referenceId == id
  }

  lemma CountMore(setups: seq<Setup>, s: Setup, wanted: Direction, id: string)
    ensures CountOf(setups + [s], wanted, id)
         == CountOf(setups, wanted, id) + if s.direction == wanted && s.referenceId == id then 1 else 0
  {
    assert (setups + [s])[..|setups|] == setups;
  }

  lemma {:induction false} RememberCount(c: Candle, absorptions: seq<Absorption>, wanted: Direction,
                                         setups: seq<Setup>, ids: set<string>, id: string)
    requires id != ""
    ensures CountOf(Remember(c, absorptions, wanted, setups, ids), wanted, id)
         == CountOf(setups, wanted, id) + if id !in ids && Offers(absorptions, wanted, id) then 1 else 0
  {
    if absorptions != [] {
      var a, rest := absorptions[0], absorptions[1..];
      assert absorptions == [a] + rest;
      assert Offers(absorptions, wanted, id)
        <==> (a.direction == wanted && a.referenceId == id) || Offers(rest, wanted, id);
      if a.direction != wanted || (a.referenceId != "" && a.referenceId in ids) {
        RememberCount(c, rest, wanted, setups, ids, id);
      } else {
        CountMore(setups, NewSetup(c, a), wanted, id);
        var more := if a.referenceId != "" then ids + {a.referenceId} else ids;
        RememberCount(c, rest, wanted, setups + [NewSetup(c, a)], more, id);
      }
    }
  }

  lemma {:induction false} CountIffKnown(setups: seq<Setup>, wanted: Direction, id: string)
    ensures CountOf(setups, wanted, id) > 0 <==> id in IdsOf(setups, wanted)
  {
    if setups != [] {
      var front, s := setups[..|setups| - 1], setups[|setups| - 1];
      CountIffKnown(front, wanted, id);
      assert setups == front + [s];
    }
  }

  /** Main result: while a position is open, a candle that neither reverses nor exits leaves every offered
      opposite reference remembered, and adds one setup exactly for each id not remembered before. */
  lemma OffersRemembered(i: Input, st: EntryState, p: Position, id: string)
    requires id != "" && HoldingStep(i, st, p).1 == []
    ensures var wanted := Opposite(p.side);
            var kept := ScanSetups(i.candle, st.setups, Some(wanted)).kept;
            CountOf(HoldingStep(i, st, p).0.entry.setups, wanted, id)
            == if CountOf(kept, wanted, id) == 0 && Offers(i.absorptions, wanted, id) then 1
               else CountOf(kept, wanted, id)
  {
    var wanted := Opposite(p.side);
    var kept := ScanSetups(i.candle, st.setups, Some(wanted)).kept;
    RememberCount(i.candle, i.absorptions, wanted, kept, IdsOf(kept, wanted), id);
    CountIffKnown(kept, wanted, id);
  }
}
