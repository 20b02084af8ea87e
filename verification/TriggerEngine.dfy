/** The trading state machine as it runs: setups aged and marked in place, entry states and positions
    kept in dictionaries, each method proved against the functions of TriggerModel. */
module TriggerEngine {
  import opened Wrappers
  import opened TriggerModel

  type Key = (string, string)

  class ReferenceSetup {
    ghost const owner: Key
    const direction: Direction
    const referenceId: string
    const referenceTime: int
    const zoneLow: Option<real>
    const zoneHigh: Option<real>
    var state: SetupState
    var confirmTime: int
    var age: int

    function Model(): Setup
      reads this
    {
      Setup(state, direction, referenceId, referenceTime, zoneLow, zoneHigh, confirmTime, age)
    }

    constructor FromAbsorption(c: Candle, a: Absorption, ghost key: Key)
      ensures Model() == NewSetup(c, a) && owner == key
    {
      owner := key;
      direction, referenceId, zoneLow, zoneHigh := a.direction, a.referenceId, a.zoneLow, a.zoneHigh;
      referenceTime := if a.referenceTime.Some? && a.referenceTime.value != 0 then a.referenceTime.value
                       else OpenOrZero(c);
      state, confirmTime, age := AbsorptionFound, 0, 0;
    }

    method MarkRetest(c: Candle)
      modifies this`state, this`confirmTime
      ensures Model() == old(Model()).(state := ZoneTouched, confirmTime := OpenOrZero(c))
    {
      state, confirmTime := ZoneTouched, OpenOrZero(c);
    }

    method ExecutionBinOf(c: Candle) returns (best: Option<Bin>)
      ensures best == ExecutionBin(c.bins, Model(), direction)
    {
      var matches: seq<Bin> := [];
      for i := 0 to |c.bins|
        invariant ExecutionBin(matches, Model(), direction) == ExecutionBin(c.bins[..i], Model(), direction)
        invariant forall b :: b in matches ==> Executes(b, Model(), direction)
      {
        assert c.bins[..i + 1][..i] == c.bins[..i];
        if Executes(c.bins[i], Model(), direction) {
          assert (matches + [c.bins[i]])[..|matches|] == matches;
          matches := matches + [c.bins[i]];
        }
      }
      assert c.bins[..|c.bins|] == c.bins;
      best := None;
      for j := 0 to |matches|
        invariant best == ExecutionBin(matches[..j], Model(), direction)
        invariant forall b :: b in matches ==> Executes(b, Model(), direction)
      {
        assert matches[..j + 1][..j] == matches[..j];
        assert Executes(matches[j], Model(), direction);
        if best.None? || Preferred(matches[j], best.value, direction) {
          best := Some(matches[j]);
        }
      }
      assert matches[..|matches|] == matches;
    }

    /** The entry payload: fixes the confirmation time and names the position. */
    method EnterOn(c: Candle, bin: Bin, ghost was: Setup) returns (signal: Signal)
      requires was == Model().(age := age - 1)
      modifies this`confirmTime
      ensures Fired(c, was, old(Model()), bin) == Processed(Some(signal), true, Model())
    {
      var before := Model().(age := age - 1);
      if confirmTime <= 0 {
        confirmTime := OpenOrZero(c);
      }
      signal := EntrySignal(c, before, bin);
    }

    method Process(c: Candle) returns (signal: Option<Signal>, keep: bool)
      modifies this`state, this`confirmTime, this`age
      ensures Processed(signal, keep, Model()) == ProcessSetup(c, old(Model()))
    {
      ghost var was := Model();
      age := age + 1;
      signal, keep := None, true;
      if (state == ZoneTouched && TimedOut(c, Model())) || (state != ZoneTouched && age > REFERENCE_TIMEOUT_CANDLES) {
        return None, false;
      }
      if direction == NoDirection {
        return;
      }
      var bin := ExecutionBinOf(c);
      SameBins(c.bins, was, Model());
      if state == ZoneTouched && bin.Some? {
        var s := EnterOn(c, bin.value, was);
        signal := Some(s);
      } else if TouchesZone(c, Model()) && state == AbsorptionFound && age >= MIN_RETEST_CANDLES_SINCE_REFERENCE {
        if bin.Some? {
          var s := EnterOn(c, bin.value, was);
          signal := Some(s);
        } else {
          MarkRetest(c);
        }
      }
    }
  }

  /** Age, state and confirmation time play no part in the choice of the bin. */
  lemma {:induction false} SameBins(bins: seq<Bin>, a: Setup, b: Setup)
    requires a.direction == b.direction && a.zoneLow == b.zoneLow && a.zoneHigh == b.zoneHigh
    ensures ExecutionBin(bins, a, a.direction) == ExecutionBin(bins, b, b.direction)
  {
    if bins != [] {
      SameBins(bins[..|bins| - 1], a, b);
    }
  }

  ghost function Models(setups: seq<ReferenceSetup>): (r: seq<Setup>)
    reads setups
    ensures |r| == |setups| && forall k :: 0 <= k < |r| ==> r[k] == setups[k].Model()
  {
    seq(|setups|, k requires 0 <= k < |setups| reads setups => setups[k].Model())
  }

  ghost predicate Owned(setups: seq<ReferenceSetup>, key: Key) {
    && (forall s :: s in setups ==> s.owner == key)
    && forall i, j :: 0 <= i < j < |setups| ==> setups[i] != setups[j]
  }

  /** The items whose flag is set. */
  ghost function Flagged<T>(items: seq<T>, flags: seq<bool>): seq<T>
    requires |flags| <= |items|
  {
    if flags == [] then []
    else
      var n := |flags| - 1;
      Flagged(items, flags[..n]) + if flags[n] then [items[n]] else []
  }

  lemma FlaggedMore<T>(items: seq<T>, flags: seq<bool>, b: bool)
    requires |flags| < |items|
    ensures Flagged(items, flags + [b]) == if b then Flagged(items, flags) + [items[|flags|]] else Flagged(items, flags)
  {
    assert (flags + [b])[..|flags|] == flags;
  }

  lemma {:induction false} FlaggedUpdate<T>(items: seq<T>, flags: seq<bool>, i: nat, x: T)
    requires |flags| <= i < |items|
    ensures Flagged(items[i := x], flags) == Flagged(items, flags)
  {
    if flags != [] {
      FlaggedUpdate(items, flags[..|flags| - 1], i, x);
    }
  }

  lemma {:induction false} FlaggedModels(setups: seq<ReferenceSetup>, flags: seq<bool>, key: Key)
    requires Owned(setups, key) && |flags| <= |setups|
    ensures Models(Flagged(setups, flags)) == Flagged(Models(setups), flags) && Owned(Flagged(setups, flags), key)
    ensures forall s :: s in Flagged(setups, flags) ==> s in setups[..|flags|]
  {
    if flags != [] {
      var n := |flags| - 1;
      FlaggedModels(setups, flags[..n], key);
      assert setups[..n + 1] == setups[..n] + [setups[n]];
      assert setups[n] !in setups[..n];
      ModelsAppend(Flagged(setups, flags[..n]), [setups[n]]);
    }
  }

  lemma ModelsUpdate(setups: seq<ReferenceSetup>, was: seq<Setup>, i: nat)
    requires |was| == |setups| && i < |setups|
    requires forall k :: 0 <= k < |setups| && k != i ==> setups[k].Model() == was[k]
    ensures Models(setups) == was[i := setups[i].Model()]
  {
  }

  lemma ModelsAppend(a: seq<ReferenceSetup>, b: seq<ReferenceSetup>)
    ensures Models(a + b) == Models(a) + Models(b)
  {
  }

  function Against(setups: seq<ReferenceSetup>, entered: Direction): seq<ReferenceSetup> {
    if setups == [] then []
    else (if setups[0].direction != NoDirection && setups[0].direction != entered then [setups[0]] else [])
         + Against(setups[1..], entered)
  }

  lemma {:induction false} AgainstModels(setups: seq<ReferenceSetup>, entered: Direction)
    ensures Models(Against(setups, entered)) == AgainstEntry(Models(setups), entered)
  {
    if setups != [] {
      assert Models(setups)[1..] == Models(setups[1..]);
      AgainstModels(setups[1..], entered);
      ModelsAppend([setups[0]], Against(setups[1..], entered));
    }
  }

  lemma {:induction false} AgainstIsOwned(setups: seq<ReferenceSetup>, entered: Direction, key: Key)
    requires Owned(setups, key)
    ensures Owned(Against(setups, entered), key) && forall s :: s in Against(setups, entered) ==> s in setups
  {
    if setups != [] {
      assert setups == [setups[0]] + setups[1..];
      assert setups[0] !in setups[1..];
      AgainstIsOwned(setups[1..], entered, key);
    }
  }

  lemma Regroup(a: seq<Setup>, x: Setup, b: seq<Setup>)
    ensures a + ([x] + b) == (a + [x]) + b
  {
  }

  /** A scan after `i` setups: `now` is how it left them and `survivors` the ones it kept. */
  ghost predicate Scanned(c: Candle, before: seq<Setup>, wanted: Option<Direction>, now: seq<Setup>, i: nat,
                          survivors: seq<Setup>) {
    && |now| == |before| && i <= |now| && now[i..] == before[i..]
    && var whole, rest := ScanSetups(c, before, wanted), ScanSetups(c, before[i..], wanted);
       whole.signal == rest.signal && whole.all == now[..i] + rest.all && whole.kept == survivors + rest.kept
  }

  lemma ScannedSplit(c: Candle, before: seq<Setup>, wanted: Option<Direction>, now: seq<Setup>, i: nat,
                     survivors: seq<Setup>)
    requires Scanned(c, before, wanted, now, i, survivors) && i < |now|
    ensures now[i] == before[i] && now[i + 1..] == before[i + 1..] && before[i..] == [now[i]] + now[i + 1..]
  {
    assert now[i] == now[i..][0] && before[i] == before[i..][0];
    assert now[i + 1..] == now[i..][1..] && before[i + 1..] == before[i..][1..];
  }

  lemma ScannedSkip(c: Candle, before: seq<Setup>, wanted: Option<Direction>, now: seq<Setup>, i: nat,
                    survivors: seq<Setup>)
    requires Scanned(c, before, wanted, now, i, survivors) && i < |now|
    requires wanted.Some? && now[i].direction != wanted.value
    ensures Scanned(c, before, wanted, now, i + 1, survivors + [now[i]])
  {
    ScannedSplit(c, before, wanted, now, i, survivors);
    var rest := ScanSetups(c, before[i + 1..], wanted);
    assert now[..i + 1] == now[..i] + [now[i]];
    Regroup(now[..i], now[i], rest.all);
    Regroup(survivors, now[i], rest.kept);
  }

  lemma {:induction false} ScannedProcess(c: Candle, before: seq<Setup>, wanted: Option<Direction>, now: seq<Setup>,
                                          i: nat, survivors: seq<Setup>)
    requires Scanned(c, before, wanted, now, i, survivors) && i < |now|
    requires wanted.Some? ==> now[i].direction == wanted.value
    ensures var p := ProcessSetup(c, now[i]);
            if p.signal.Some? then
              ScanSetups(c, before, wanted) == Scan(p.signal, now[i := p.after], survivors)
            else
              Scanned(c, before, wanted, now[i := p.after], i + 1, if p.keep then survivors + [p.after] else survivors)
  {
    ScannedSplit(c, before, wanted, now, i, survivors);
    var p, rest := ProcessSetup(c, now[i]), ScanSetups(c, before[i + 1..], wanted);
    var after := now[i := p.after];
    assert after[..i + 1] == now[..i] + [p.after] && after[i + 1..] == now[i + 1..];
    assert after == after[..i + 1] + after[i + 1..];
    Regroup(now[..i], p.after, now[i + 1..]);
    Regroup(now[..i], p.after, rest.all);
    Regroup(survivors, p.after, rest.kept);
  }

  lemma {:induction false} ScannedNext(c: Candle, before: seq<Setup>, wanted: Option<Direction>, now: seq<Setup>,
                                       i: nat, survivors: seq<Setup>)
    requires Scanned(c, before, wanted, now, i, survivors) && i < |now|
    ensures var p := ProcessSetup(c, now[i]);
            if wanted.Some? && now[i].direction != wanted.value then
              Scanned(c, before, wanted, now, i + 1, survivors + [now[i]])
            else if p.signal.Some? then
              ScanSetups(c, before, wanted) == Scan(p.signal, now[i := p.after], survivors)
            else
              Scanned(c, before, wanted, now[i := p.after], i + 1, if p.keep then survivors + [p.after] else survivors)
  {
    if wanted.Some? && now[i].direction != wanted.value {
      ScannedSkip(c, before, wanted, now, i, survivors);
    } else {
      ScannedProcess(c, before, wanted, now, i, survivors);
    }
  }

  lemma ScannedAll(c: Candle, before: seq<Setup>, wanted: Option<Direction>, now: seq<Setup>, survivors: seq<Setup>)
    requires Scanned(c, before, wanted, now, |now|, survivors)
    ensures ScanSetups(c, before, wanted) == Scan(None, now, survivors)
  {
  }

  class EntryStore {
    ghost const owner: Key
    var phase: Phase
    var setups: seq<ReferenceSetup>

    ghost predicate Valid()
      reads this
    {
      Owned(setups, owner)
    }

    ghost function Model(): EntryState
      reads this, setups
    {
      EntryState(phase, Models(setups))
    }

    constructor (ghost key: Key)
      ensures Valid() && owner == key && setups == [] && Model() == Reset
    {
      owner := key;
      phase, setups := Idle, [];
    }

    method Sync()
      modifies this`phase
      ensures Model() == Synced(Models(setups))
    {
      if setups == [] {
        phase := Idle;
      } else {
        phase := if setups[0].state == AbsorptionFound then Found else Touched;
      }
    }

    /** Processes the setups in turn until one fires; `kept` are the survivors so far. */
    method Scan(c: Candle, wanted: Option<Direction>) returns (signal: Option<Signal>, kept: seq<ReferenceSetup>)
      requires Valid()
      modifies setups
      ensures ScanSetups(c, old(Models(setups)), wanted) == TriggerModel.Scan(signal, Models(setups), Models(kept))
      ensures Owned(kept, owner) && forall s :: s in kept ==> s in setups
    {
      ghost var before := Models(setups);
      ghost var flags;
      signal, kept, flags := ScanUntil(c, wanted);
      FlaggedModels(setups, flags, owner);
      if signal.None? {
        ScannedAll(c, before, wanted, Models(setups), Flagged(Models(setups), flags));
      }
    }

    /** The loop of the scan; `flags` say which setups it kept. */
    method ScanUntil(c: Candle, wanted: Option<Direction>)
      returns (signal: Option<Signal>, kept: seq<ReferenceSetup>, ghost flags: seq<bool>)
      requires Valid()
      modifies setups
      ensures |flags| <= |setups| && kept == Flagged(setups, flags)
      ensures var before, now := old(Models(setups)), Models(setups);
              if signal.Some? then ScanSetups(c, before, wanted) == TriggerModel.Scan(signal, now, Flagged(now, flags))
              else |flags| == |setups| && Scanned(c, before, wanted, now, |setups|, Flagged(now, flags))
    {
      ghost var before := Models(setups);
      kept, flags := [], [];
      for i := 0 to |setups|
        invariant |flags| == i && kept == Flagged(setups, flags)
        invariant Scanned(c, before, wanted, Models(setups), i, Flagged(Models(setups), flags))
      {
        var keep;
        signal, keep := ScanNext(c, i, wanted, before, flags);
        if signal.Some? {
          return;
        }
        FlaggedMore(setups, flags, keep);
        flags := flags + [keep];
        if keep {
          kept := kept + [setups[i]];
        }
      }
      signal := None;
    }

    /** One turn of the scan; `flags` say which of the first `i` setups it kept. */
    method ScanNext(c: Candle, i: nat, wanted: Option<Direction>, ghost before: seq<Setup>, ghost flags: seq<bool>)
      returns (signal: Option<Signal>, keep: bool)
      requires Valid() && |flags| == i < |setups|
      requires Scanned(c, before, wanted, Models(setups), i, Flagged(Models(setups), flags))
      modifies setups[i]
      ensures signal.Some? ==>
          ScanSetups(c, before, wanted) == TriggerModel.Scan(signal, Models(setups), Flagged(Models(setups), flags))
      ensures signal.None? ==>
          Scanned(c, before, wanted, Models(setups), i + 1, Flagged(Models(setups), flags + [keep]))
    {
      ghost var was := Models(setups);
      ScannedNext(c, before, wanted, was, i, Flagged(was, flags));
      signal, keep := None, true;
      if wanted.None? || setups[i].direction == wanted.value {
        signal, keep := setups[i].Process(c);
        ModelsUpdate(setups, was, i);
        FlaggedUpdate(was, flags, i, setups[i].Model());
      }
      FlaggedMore(Models(setups), flags, keep);
    }

    method Add(c: Candle, a: Absorption)
      requires Valid()
      modifies this`setups
      ensures Valid() && |setups| == |old(setups)| + 1 && setups[..|old(setups)|] == old(setups)
      ensures fresh(setups[|old(setups)|]) && Models(setups) == old(Models(setups)) + [NewSetup(c, a)]
    {
      var setup := new ReferenceSetup.FromAbsorption(c, a, owner);
      setups := setups + [setup];
    }

    method AgeAll(c: Candle) returns (signal: Option<Signal>)
      requires Valid()
      modifies this, setups
      ensures Valid() && forall s :: s in setups ==> s in old(setups)
      ensures var scan := ScanSetups(c, old(Models(setups)), None);
              && signal == scan.signal
              && Model() == if signal.Some? then old(Model()).(setups := scan.all) else Synced(scan.kept)
    {
      var kept;
      signal, kept := Scan(c, None);
      if signal.None? {
        setups := kept;
        Sync();
      }
    }

    method EntrySignal(i: Input) returns (signal: Option<Signal>)
      requires Valid()
      modifies this, setups
      ensures Valid() && forall s :: s in setups ==> s in old(setups) || fresh(s)
      ensures (signal, Model()) == EntryStep(i, old(Model()))
    {
      if setups != [] {
        signal := AgeAll(i.candle);
        if signal.Some? {
          return;
        }
      }
      if i.absorptions != [] {
        Add(i.candle, i.absorptions[0]);
        Sync();
      }
      signal := None;
    }

    method OppositeEntrySignal(c: Candle, wanted: Direction) returns (signal: Option<Signal>)
      requires Valid()
      modifies this`setups, setups
      ensures Valid() && forall s :: s in setups ==> s in old(setups)
      ensures var scan := ScanSetups(c, old(Models(setups)), Some(wanted));
              signal == scan.signal && Models(setups) == scan.kept
    {
      var kept;
      signal, kept := Scan(c, Some(wanted));
      setups := kept;
    }

    /** The state after an entry: trading, with only the setups against the side entered. */
    method AfterEntry(entered: Direction) returns (next: EntryStore)
      requires Valid()
      ensures fresh(next) && next.Valid() && next.owner == owner && next.phase == Trading
      ensures Models(next.setups) == AgainstEntry(Models(setups), entered)
      ensures forall s :: s in next.setups ==> s in setups
    {
      next := new EntryStore(owner);
      AgainstIsOwned(setups, entered, owner);
      AgainstModels(setups, entered);
      next.phase, next.setups := Trading, Against(setups, entered);
    }

    method RememberOpposite(c: Candle, absorptions: seq<Absorption>, wanted: Direction)
      requires Valid()
      modifies this`setups
      ensures Valid() && forall s :: s in setups ==> s in old(setups) || fresh(s)
      ensures Models(setups) == old(Remember(c, absorptions, wanted, Models(setups), IdsOf(Models(setups), wanted)))
    {
      ghost var goal := Remember(c, absorptions, wanted, Models(setups), IdsOf(Models(setups), wanted));
      var ids := set s | s in setups && s.direction == wanted :: s.referenceId;
      SameIds(setups, wanted);
      var next := setups;
      for i := 0 to |absorptions|
        invariant goal == Remember(c, absorptions[i..], wanted, Models(next), ids)
        invariant Owned(next, owner) && forall s :: s in next ==> s in old(setups) || fresh(s)
      {
        var a := absorptions[i];
        assert absorptions[i..][1..] == absorptions[i + 1..];
        if a.direction != wanted || (a.referenceId != "" && a.referenceId in ids) {
          continue;
        }
        var setup := new ReferenceSetup.FromAbsorption(c, a, owner);
        ModelsAppend(next, [setup]);
        assert Models([setup]) == [NewSetup(c, a)];
        next := next + [setup];
        if a.referenceId != "" {
          ids := ids + {a.referenceId};
        }
      }
      setups := next;
    }
  }

  lemma SameIds(setups: seq<ReferenceSetup>, wanted: Direction)
    ensures (set s | s in setups && s.direction == wanted :: s.referenceId) == IdsOf(Models(setups), wanted)
  {
    var models := Models(setups);
    forall s | s in setups && s.direction == wanted ensures s.referenceId in IdsOf(models, wanted) {
      var i :| 0 <= i < |setups| && setups[i] == s;
      assert models[i] in models;
    }
  }

  lemma SameElsewhere(a: map<Key, EntryStore>, b: map<Key, EntryStore>, key: Key)
    requires a - {key} == b - {key}
    ensures forall k :: k in a && k != key ==> k in b && b[k] == a[k]
  {
    forall k | k in a && k != key ensures k in b && b[k] == a[k] {
      assert k in a - {key} && k in b - {key} && (a - {key})[k] == (b - {key})[k];
    }
  }

  class TriggerEngine {
    const supported: set<string>
    var entryStates: map<Key, EntryStore>
    var positions: map<Key, Position>

    ghost predicate Valid()
      reads this, entryStates.Values
    {
      forall k :: k in entryStates ==> entryStates[k].owner == k && entryStates[k].Valid()
    }

    /** What the engine remembers for one symbol and timeframe. */
    ghost function At(key: Key): KeyState
      reads this, entryStates.Values, if key in entryStates then entryStates[key].setups else []
    {
      KeyState(if key in entryStates then entryStates[key].Model() else Reset,
               if key in positions then Some(positions[key]) else None)
    }

    constructor (supported: set<string>)
      ensures Valid() && this.supported == supported && forall k :: At(k) == KeyState(Reset, None)
    {
      this.supported := supported;
      entryStates, positions := map[], map[];
    }

    method Enter(key: Key, st: EntryStore, e: Signal)
      requires Valid() && st.Valid() && st.owner == key && e.Entry?
      modifies this`entryStates, this`positions
      ensures Valid() && At(key) == Opened(old(st.Model()), e)
      ensures key in entryStates && fresh(entryStates[key])
      ensures forall s :: s in entryStates[key].setups ==> s in st.setups
      ensures entryStates - {key} == old(entryStates) - {key} && positions - {key} == old(positions) - {key}
    {
      var next := st.AfterEntry(e.side);
      positions := positions[key := Position(e.id, e.side, e.stop)];
      entryStates := entryStates[key := next];
    }

    /** No object is shared between two keys. */
    lemma Apart(key: Key)
      requires Valid()
      ensures forall k :: k in entryStates && k != key ==>
                entryStates[k] !in Owns(key) && forall s :: s in entryStates[k].setups ==> s !in Owns(key)
    {
    }

    method HoldingCandle(key: Key, st: EntryStore, p: Position, i: Input) returns (signals: seq<Signal>)
      requires Valid() && key in entryStates && entryStates[key] == st && key in positions && positions[key] == p
      modifies this`entryStates, this`positions, st, st.setups
      ensures Valid() && (At(key), signals) == old(HoldingStep(i, st.Model(), p))
      ensures entryStates - {key} == old(entryStates) - {key} && positions - {key} == old(positions) - {key}
      ensures key in entryStates && (entryStates[key] == st || fresh(entryStates[key]))
      ensures forall s :: s in entryStates[key].setups ==> s in old(st.setups) || fresh(s)
    {
      st.phase := Trading;
      var wanted := Opposite(p.side);
      var entry := st.OppositeEntrySignal(i.candle, wanted);
      if entry.Some? && entry.value.Entry? {
        signals := ReversePosition(key, st, p, entry.value);
      } else {
        st.RememberOpposite(i.candle, i.absorptions, wanted);
        signals := [];
        if i.exitFound {
          signals := ClosePosition(key, p);
        }
      }
    }

    method ReversePosition(key: Key, st: EntryStore, p: Position, e: Signal) returns (signals: seq<Signal>)
      requires Valid() && st.Valid() && st.owner == key && e.Entry?
      modifies this`entryStates, this`positions
      ensures Valid() && At(key) == Opened(old(st.Model()), e) && signals == [Exit(p.side, p.id, true), e]
      ensures key in entryStates && fresh(entryStates[key])
      ensures forall s :: s in entryStates[key].setups ==> s in st.setups
      ensures entryStates - {key} == old(entryStates) - {key} && positions - {key} == old(positions) - {key}
    {
      positions := positions - {key};
      Enter(key, st, e);
      signals := [Exit(p.side, p.id, true), e];
    }

    method ClosePosition(key: Key, p: Position) returns (signals: seq<Signal>)
      requires Valid()
      modifies this`entryStates, this`positions
      ensures Valid() && At(key) == KeyState(Reset, None) && signals == [Exit(p.side, p.id, false)]
      ensures key in entryStates && fresh(entryStates[key]) && entryStates[key].setups == []
      ensures entryStates - {key} == old(entryStates) - {key} && positions - {key} == old(positions) - {key}
    {
      positions := positions - {key};
      var reset := new EntryStore(key);
      entryStates := entryStates[key := reset];
      signals := [Exit(p.side, p.id, false)];
    }

    method FlatCandle(key: Key, st: EntryStore, i: Input) returns (signals: seq<Signal>)
      requires Valid() && key in entryStates && entryStates[key] == st && key !in positions
      modifies this`entryStates, this`positions, st, st.setups
      ensures Valid() && (At(key), signals) == old(FlatStep(i, st.Model()))
      ensures entryStates - {key} == old(entryStates) - {key} && positions - {key} == old(positions) - {key}
      ensures key in entryStates && (entryStates[key] == st || fresh(entryStates[key]))
      ensures forall s :: s in entryStates[key].setups ==> s in old(st.setups) || fresh(s)
    {
      var state := st;
      if state.phase == Trading {
        state := new EntryStore(key);
        entryStates := entryStates[key := state];
      }
      var signal := state.EntrySignal(i);
      signals := [];
      if signal.Some? && signal.value.Entry? {
        Enter(key, state, signal.value);
        signals := [signal.value];
      }
    }

    method ProcessKey(key: Key, i: Input) returns (signals: seq<Signal>)
      requires Valid()
      modifies this`entryStates, this`positions, Owns(key)
      ensures Valid() && (At(key), signals) == Step(old(At(key)), i)
      ensures entryStates - {key} == old(entryStates) - {key} && positions - {key} == old(positions) - {key}
    {
      if key !in entryStates {
        var created := new EntryStore(key);
        entryStates := entryStates[key := created];
      }
      if key in positions {
        signals := HoldingCandle(key, entryStates[key], positions[key], i);
      } else {
        signals := FlatCandle(key, entryStates[key], i);
      }
    }

    method ProcessClosedCandle(i: Input) returns (signals: seq<Signal>)
      requires Valid()
      modifies this`entryStates, this`positions, Owns((i.candle.symbol, i.candle.timeframe))
      ensures Valid()
      ensures var key := (i.candle.symbol, i.candle.timeframe);
              && (Accepts(i.candle) ==> (At(key), signals) == Step(old(At(key)), i))
              && (!Accepts(i.candle) ==> signals == [] && At(key) == old(At(key)))
              && entryStates - {key} == old(entryStates) - {key} && positions - {key} == old(positions) - {key}
              && forall k :: k in old(entryStates) && k != key ==>
                  k in entryStates && entryStates[k].Model() == old(entryStates[k].Model())
    {
      signals := [];
      if Accepts(i.candle) {
        var key := (i.candle.symbol, i.candle.timeframe);
        ghost var before := entryStates;
        Apart(key);
        signals := ProcessKey(key, i);
        SameElsewhere(before, entryStates, key);
      }
    }

    predicate Accepts(c: Candle) {
      c.timeframe != "" && c.symbol != "" && (supported == {} || c.timeframe in supported)
    }

    /** The objects that the engine keeps for one key. */
    ghost function Owns(key: Key): set<object>
      reads this, entryStates.Values
    {
      if key in entryStates then {entryStates[key]} + (set s: ReferenceSetup | s in entryStates[key].setups) else {}
    }
  }
}
