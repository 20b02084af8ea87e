/** What the trading state machine remembers: references offered, aged, marked and forgotten, and when a remembered
    reference must make a candle enter. */
module TriggerMemory {
  import opened Wrappers
  import opened TriggerModel
  import opened TriggerRules
  import opened TriggerRuns

  /** The setup is looked at when only one direction is wanted. */
  predicate Considered(s: Setup, wanted: Option<Direction>) { wanted == None || wanted == Some(s.direction) }

  /** The first setup that may be entered on. */
  ghost predicate FirstReady(c: Candle, setups: seq<Setup>, wanted: Option<Direction>, k: nat) {
    && k < |setups| && Considered(setups[k], wanted) && Ready(c, setups[k])
    && forall j :: 0 <= j < k && Considered(setups[j], wanted) ==> !Ready(c, setups[j])
  }

  ghost predicate NoneReady(c: Candle, setups: seq<Setup>, wanted: Option<Direction>) {
    forall j :: 0 <= j < |setups| && Considered(setups[j], wanted) ==> !Ready(c, setups[j])
  }

  /** `after` are those of `before` that do not expire, in order, each a candle older. */
  ghost predicate Survived(c: Candle, before: seq<Setup>, wanted: Option<Direction>, after: seq<Setup>) {
    if before == [] then after == []
    else if !Considered(before[0], wanted) then
      after != [] && after[0] == before[0] && Survived(c, before[1..], wanted, after[1..])
    else if Expires(c, before[0]) then Survived(c, before[1..], wanted, after)
    else after != [] && Older(c, before[0], after[0]) && Survived(c, before[1..], wanted, after[1..])
  }

  /** `after` are those of `before` that speak against the entry, in order: the first `k` a candle older. */
  ghost predicate LeftAfterEntry(c: Candle, before: seq<Setup>, k: int, entered: Direction, after: seq<Setup>) {
    if before == [] then after == []
    else if before[0].direction in {NoDirection, entered} then LeftAfterEntry(c, before[1..], k - 1, entered, after)
    else
      && after != [] && (if k > 0 then Older(c, before[0], after[0]) else after[0] == before[0])
      && LeftAfterEntry(c, before[1..], k - 1, entered, after[1..])
  }

  // ----- scans -----

  lemma {:induction false} ScanSurvives(c: Candle, setups: seq<Setup>, wanted: Option<Direction>)
    requires NoneReady(c, setups, wanted)
    ensures ScanSetups(c, setups, wanted).signal == None
    ensures Survived(c, setups, wanted, ScanSetups(c, setups, wanted).kept)
  {
    if setups != [] {
      var rest := ScanSetups(c, setups[1..], wanted);
      ScanSurvives(c, setups[1..], wanted);
      if Considered(setups[0], wanted) {
        FiresIffReady(c, setups[0]);
        StaysIffYoung(c, setups[0]);
        var kept := ScanSetups(c, setups, wanted).kept;
        assert if ProcessSetup(c, setups[0]).keep then kept[1..] == rest.kept else kept == rest.kept;
      } else {
        assert ([setups[0]] + rest.kept)[1..] == rest.kept;
      }
    }
  }

  lemma {:induction false} NoneOrFirst(c: Candle, setups: seq<Setup>, wanted: Option<Direction>) returns (k: nat)
    ensures k < |setups| ==> FirstReady(c, setups, wanted, k)
    ensures k >= |setups| ==> NoneReady(c, setups, wanted)
  {
    k := 0;
    while k < |setups| && !(Considered(setups[k], wanted) && Ready(c, setups[k]))
      invariant k <= |setups|
      invariant forall j :: 0 <= j < k && Considered(setups[j], wanted) ==> !Ready(c, setups[j])
    {
      k := k + 1;
    }
  }

  lemma ShorterFirst(c: Candle, setups: seq<Setup>, wanted: Option<Direction>, k: nat)
    requires k > 0 && FirstReady(c, setups, wanted, k)
    ensures FirstReady(c, setups[1..], wanted, k - 1)
  {
  }

  /** The first ready setup fires; against its direction, the setups before it are a candle older. */
  lemma {:induction false} ScanFirst(c: Candle, setups: seq<Setup>, k: nat)
    requires FirstReady(c, setups, None, k)
    ensures var scan := ScanSetups(c, setups, None);
            && scan.signal.Some? && EntersOn(c, setups[k], scan.signal.value)
            && LeftAfterEntry(c, setups, k, setups[k].direction, AgainstEntry(scan.all, setups[k].direction))
  {
    var d := setups[k].direction;
    if k == 0 {
      FiresOn(c, setups[0]);
      FiredSide(c, setups[0]);
      AgainstRest(c, setups[1..], -1, d);
      var all := ScanSetups(c, setups, None).all;
      assert all[1..] == setups[1..];
      AgainstFront(all, d);
    } else {
      ShorterFirst(c, setups, None, k);
      ScanFirst(c, setups[1..], k - 1);
      FiresIffReady(c, setups[0]);
      StaysIffYoung(c, setups[0]);
      var rest := ScanSetups(c, setups[1..], None);
      var all := ScanSetups(c, setups, None).all;
      assert all == [ProcessSetup(c, setups[0]).after] + rest.all && all[1..] == rest.all;
      AgainstFront(all, d);
    }
  }

  lemma AgainstFront(setups: seq<Setup>, d: Direction)
    requires setups != []
    ensures var left, rest := AgainstEntry(setups, d), AgainstEntry(setups[1..], d);
            if setups[0].direction in {NoDirection, d} then left == rest
            else left != [] && left[0] == setups[0] && left[1..] == rest
  {
  }

  lemma {:induction false} AgainstRest(c: Candle, setups: seq<Setup>, k: int, d: Direction)
    requires k <= 0
    ensures LeftAfterEntry(c, setups, k, d, AgainstEntry(setups, d))
  {
    if setups != [] {
      AgainstRest(c, setups[1..], k - 1, d);
      AgainstFront(setups, d);
    }
  }

  lemma {:induction false} ScanFirstOf(c: Candle, setups: seq<Setup>, wanted: Option<Direction>, k: nat)
    requires FirstReady(c, setups, wanted, k)
    ensures var scan := ScanSetups(c, setups, wanted); scan.signal.Some? && EntersOn(c, setups[k], scan.signal.value)
  {
    if k == 0 {
      FiresOn(c, setups[0]);
    } else {
      ShorterFirst(c, setups, wanted, k);
      ScanFirstOf(c, setups[1..], wanted, k - 1);
      FiresIffReady(c, setups[0]);
    }
  }

  // ----- one candle while flat -----

  ghost predicate Trades(k: KeyState, e: Signal) {
    e.Entry? && k.position == Some(Position(e.id, e.side, e.stop))
  }

  /** The best reference on the candle, if any, joins the survivors. */
  ghost predicate Learned(c: Candle, before: seq<Setup>, absorptions: seq<Absorption>, after: seq<Setup>) {
    if absorptions == [] then Survived(c, before, None, after)
    else
      && after != [] && Remembers(c, absorptions[0], after[|after| - 1])
      && Survived(c, before, None, after[..|after| - 1])
  }

  lemma FlatQuiet(i: Input, st: EntryState)
    requires st.phase != Trading && NoneReady(i.candle, st.setups, None)
    ensures var (k, signals) := FlatStep(i, st);
            signals == [] && k.position == None && Learned(i.candle, st.setups, i.absorptions, k.entry.setups)
  {
    ScanSurvives(i.candle, st.setups, None);
    if i.absorptions != [] {
      NewRemembers(i.candle, i.absorptions[0]);
      var kept := ScanSetups(i.candle, st.setups, None).kept;
      var after := FlatStep(i, st).0.entry.setups;
      assert after == kept + [NewSetup(i.candle, i.absorptions[0])] && after[..|after| - 1] == kept;
    }
  }

  /** Main result: a candle on which the machine is flat and no remembered setup is ready remembers exactly the
      survivors and, last, an untouched setup of age 0 for the best reference it offers; it signals nothing. */
  lemma FlatRemembers(inputs: seq<Input>, n: nat)
    requires n < |inputs| && At(inputs, n).position == None
    requires NoneReady(inputs[n].candle, At(inputs, n).entry.setups, None)
    ensures Step(At(inputs, n), inputs[n]).1 == [] && At(inputs, n + 1).position == None
    ensures Learned(inputs[n].candle, At(inputs, n).entry.setups, inputs[n].absorptions, At(inputs, n + 1).entry.setups)
  {
    PhaseOk(inputs, n);
    AtNext(inputs, n);
    FlatQuiet(inputs[n], At(inputs, n).entry);
  }

  /** Main result: a candle on which the machine is flat enters on the first ready setup, and remembers exactly
      the setups against that entry. */
  lemma FlatEnters(inputs: seq<Input>, n: nat, k: nat)
    requires n < |inputs| && At(inputs, n).position == None
    requires FirstReady(inputs[n].candle, At(inputs, n).entry.setups, None, k)
    ensures var s, after := At(inputs, n).entry.setups[k], At(inputs, n + 1);
            && (exists e ::
                  Step(At(inputs, n), inputs[n]).1 == [e] && EntersOn(inputs[n].candle, s, e) && Trades(after, e))
            && LeftAfterEntry(inputs[n].candle, At(inputs, n).entry.setups, k, s.direction, after.entry.setups)
  {
    PhaseOk(inputs, n);
    AtNext(inputs, n);
    var i, st := inputs[n], At(inputs, n).entry;
    ScanFirst(i.candle, st.setups, k);
    var e := ScanSetups(i.candle, st.setups, None).signal.value;
    assert Step(At(inputs, n), i) == (Opened(st.(setups := ScanSetups(i.candle, st.setups, None).all), e), [e]);
  }

  // ----- one candle while a position is open -----

  /** `added` are the offered references of the wanted direction that are not known yet, in order: one without an
      id always, any other unless a setup with its id is remembered. */
  ghost predicate Joined(c: Candle, offers: seq<Absorption>, wanted: Direction, known: seq<Setup>, added: seq<Setup>) {
    if offers == [] then added == []
    else if offers[0].direction == wanted
            && (offers[0].referenceId == "" || !Known(known, wanted, offers[0].referenceId)) then
      && added != [] && Remembers(c, offers[0], added[0])
      && Joined(c, offers[1..], wanted, known + [added[0]], added[1..])
    else Joined(c, offers[1..], wanted, known, added)
  }

  ghost predicate Known(setups: seq<Setup>, wanted: Direction, id: string) {
    exists s :: s in setups && s.direction == wanted && s.referenceId == id
  }

  lemma {:induction false} RememberJoins(c: Candle, offers: seq<Absorption>, wanted: Direction, setups: seq<Setup>,
                                         ids: set<string>) returns (added: seq<Setup>)
    requires forall id :: id != "" ==> (id in ids <==> Known(setups, wanted, id))
    ensures Remember(c, offers, wanted, setups, ids) == setups + added && Joined(c, offers, wanted, setups, added)
  {
    added := [];
    if offers != [] {
      var a, s := offers[0], NewSetup(c, offers[0]);
      if a.direction != wanted || (a.referenceId != "" && a.referenceId in ids) {
        added := RememberJoins(c, offers[1..], wanted, setups, ids);
      } else {
        NewRemembers(c, a);
        var more := if a.referenceId != "" then ids + {a.referenceId} else ids;
        forall id | id != "" ensures id in more <==> Known(setups + [s], wanted, id) {
          KnownMore(setups, s, wanted, id);
        }
        var rest := RememberJoins(c, offers[1..], wanted, setups + [s], more);
        added := [s] + rest;
        assert setups + [s] + rest == setups + added && added[1..] == rest;
      }
    }
  }

  lemma KnownMore(setups: seq<Setup>, s: Setup, wanted: Direction, id: string)
    ensures Known(setups + [s], wanted, id)
       <==> Known(setups, wanted, id) || (s.direction == wanted && s.referenceId == id)
  {
    assert s in setups + [s];
  }

  /** What a candle does while position `p` is open and no setup reverses it. */
  ghost predicate Held(i: Input, before: seq<Setup>, p: Position, signals: seq<Signal>, k: KeyState) {
    if i.exitFound then signals == [Exit(p.side, p.id, false)] && k == KeyState(Reset, None)
    else
      && signals == [] && k.position == Some(p) && k.entry.phase == Trading
      && exists kept, added ::
           && k.entry.setups == kept + added && Survived(i.candle, before, None, kept)
           && Joined(i.candle, i.absorptions, Opposite(p.side), kept, added)
  }

  lemma {:induction false} SurvivedAny(c: Candle, before: seq<Setup>, d: Direction, after: seq<Setup>)
    requires Survived(c, before, Some(d), after) && forall s :: s in before ==> s.direction == d
    ensures Survived(c, before, None, after)
  {
    if before != [] {
      assert before[0] in before;
      if Expires(c, before[0]) {
        SurvivedAny(c, before[1..], d, after);
      } else {
        SurvivedAny(c, before[1..], d, after[1..]);
      }
    }
  }

  /** Main result: while a position is open and no remembered setup is ready, an exit refill closes it and forgets
      everything; otherwise nothing is signalled, the position stays, and exactly the survivors and the new
      references of the opposite direction are remembered. */
  lemma HoldingQuiet(inputs: seq<Input>, n: nat)
    requires n < |inputs| && At(inputs, n).position.Some?
    requires NoneReady(inputs[n].candle, At(inputs, n).entry.setups, None)
    ensures Held(inputs[n], At(inputs, n).entry.setups, At(inputs, n).position.value,
                 Step(At(inputs, n), inputs[n]).1, At(inputs, n + 1))
  {
    AtNext(inputs, n);
    SignalGrammar(inputs[..n]);
    var i, st, p := inputs[n], At(inputs, n).entry, At(inputs, n).position.value;
    var wanted := Opposite(p.side);
    ScanSurvives(i.candle, st.setups, Some(wanted));
    var kept := ScanSetups(i.candle, st.setups, Some(wanted)).kept;
    SurvivedAny(i.candle, st.setups, wanted, kept);
    forall id | id != "" ensures id in IdsOf(kept, wanted) <==> Known(kept, wanted, id) { }
    var added := RememberJoins(i.candle, i.absorptions, wanted, kept, IdsOf(kept, wanted));
  }

  /** Main result: while a position is open, the first ready setup reverses it, and nothing stays remembered. */
  lemma HoldingReverses(inputs: seq<Input>, n: nat, k: nat)
    requires n < |inputs| && At(inputs, n).position.Some?
    requires FirstReady(inputs[n].candle, At(inputs, n).entry.setups, None, k)
    ensures var s, p, after := At(inputs, n).entry.setups[k], At(inputs, n).position.value, At(inputs, n + 1);
            exists e :: Step(At(inputs, n), inputs[n]).1 == [Exit(p.side, p.id, true), e]
                        && EntersOn(inputs[n].candle, s, e) && Trades(after, e)
                        && after.entry == EntryState(Trading, [])
  {
    AtNext(inputs, n);
    SignalGrammar(inputs[..n]);
    var i, st, p := inputs[n], At(inputs, n).entry, At(inputs, n).position.value;
    var wanted := Opposite(p.side);
    assert FirstReady(i.candle, st.setups, Some(wanted), k);
    ScanFirstOf(i.candle, st.setups, Some(wanted), k);
    ScanKeepsDirection(i.candle, st.setups, Some(wanted), wanted);
    var scan := ScanSetups(i.candle, st.setups, Some(wanted));
    var e := scan.signal.value;
    NoneAgainst(scan.kept, wanted);
    assert Step(At(inputs, n), i) == (Opened(EntryState(Trading, scan.kept), e), [Exit(p.side, p.id, true), e]);
  }

  lemma {:induction false} NoneAgainst(setups: seq<Setup>, d: Direction)
    requires forall s :: s in setups ==> s.direction == d
    ensures AgainstEntry(setups, d) == []
  {
    if setups != [] {
      assert setups[0] in setups;
      NoneAgainst(setups[1..], d);
    }
  }

  // ----- from offer to entry -----

  ghost predicate EntersAt(inputs: seq<Input>, n: nat)
    requires n < |inputs|
  {
    exists e :: e in Step(At(inputs, n), inputs[n]).1 && e.Entry?
  }

  ghost predicate QuietBetween(inputs: seq<Input>, n: nat, m: nat)
    requires m <= |inputs|
  {
    forall l: nat :: n <= l < m ==> !EntersAt(inputs, l)
  }

  ghost predicate ReachedAt(i: Input, a: Absorption) { Reaches(i.candle, a.direction, a.zoneLow, a.zoneHigh) }

  ghost predicate TradedBeyondAt(i: Input, a: Absorption) {
    exists b :: b in i.candle.bins && Beyond(b, a.direction, a.zoneLow, a.zoneHigh)
  }

  predicate About(s: Setup, a: Absorption) {
    s.direction == a.direction && s.referenceId == a.referenceId && s.zoneLow == a.zoneLow && s.zoneHigh == a.zoneHigh
  }

  lemma {:induction false} SurvivorStays(c: Candle, before: seq<Setup>, after: seq<Setup>, s: Setup) returns (r: Setup)
    requires Survived(c, before, None, after) && s in before && !Expires(c, s)
    ensures r in after && Older(c, s, r)
  {
    if before[0] == s {
      r := after[0];
    } else if Expires(c, before[0]) {
      r := SurvivorStays(c, before[1..], after, s);
    } else {
      r := SurvivorStays(c, before[1..], after[1..], s);
    }
  }

  /** A candle of a flat machine that does not enter had no ready setup. */
  lemma QuietIsFlat(inputs: seq<Input>, n: nat)
    requires n < |inputs| && At(inputs, n).position == None && !EntersAt(inputs, n)
    ensures At(inputs, n + 1).position == None
    ensures Learned(inputs[n].candle, At(inputs, n).entry.setups, inputs[n].absorptions, At(inputs, n + 1).entry.setups)
  {
    var k := NoneOrFirst(inputs[n].candle, At(inputs, n).entry.setups, None);
    if k < |At(inputs, n).entry.setups| {
      FlatEnters(inputs, n, k);
    } else {
      FlatRemembers(inputs, n);
    }
  }

  lemma QuietKeeps(inputs: seq<Input>, n: nat, s: Setup) returns (r: Setup)
    requires n < |inputs| && At(inputs, n).position == None && !EntersAt(inputs, n)
    requires s in At(inputs, n).entry.setups && !Expires(inputs[n].candle, s)
    ensures At(inputs, n + 1).position == None
    ensures r in At(inputs, n + 1).entry.setups && Older(inputs[n].candle, s, r)
  {
    QuietIsFlat(inputs, n);
    var after := At(inputs, n + 1).entry.setups;
    var kept := if inputs[n].absorptions == [] then after else after[..|after| - 1];
    r := SurvivorStays(inputs[n].candle, At(inputs, n).entry.setups, kept, s);
  }

  ghost predicate Unreached(inputs: seq<Input>, n: nat, m: nat, a: Absorption)
    requires m <= |inputs|
  {
    forall l: nat :: n <= l < m ==> !ReachedAt(inputs[l], a)
  }

  /** Right after candle `l` the machine is flat and `s` is the remembered reference `a`. */
  ghost predicate Waits(inputs: seq<Input>, l: nat, a: Absorption, s: Setup)
    requires l < |inputs|
  {
    At(inputs, l + 1).position == None && s in At(inputs, l + 1).entry.setups && About(s, a)
  }

  /** The reference offered on candle `n` waits as long as no candle enters or, from the fifth on, reaches its zone. */
  lemma {:induction false} OfferWaits(inputs: seq<Input>, n: nat, m: nat, l: nat) returns (s: Setup)
    requires n <= l < m <= |inputs| && m - n <= 100 && At(inputs, n).position == None && inputs[n].absorptions != []
    requires QuietBetween(inputs, n, m) && Unreached(inputs, n + 5, m, inputs[n].absorptions[0])
    ensures Waits(inputs, l, inputs[n].absorptions[0], s) && s.state == AbsorptionFound && s.age == l - n
  {
    if l == n {
      s := OfferJoins(inputs, n);
    } else {
      s := OfferWaits(inputs, n, m, l - 1);
      s := QuietKeeps(inputs, l, s);
    }
  }

  lemma OfferJoins(inputs: seq<Input>, n: nat) returns (s: Setup)
    requires n < |inputs| && At(inputs, n).position == None && inputs[n].absorptions != [] && !EntersAt(inputs, n)
    ensures Waits(inputs, n, inputs[n].absorptions[0], s) && s.state == AbsorptionFound && s.age == 0
  {
    QuietIsFlat(inputs, n);
    var after := At(inputs, n + 1).entry.setups;
    s := after[|after| - 1];
  }

  lemma ReadyEnters(inputs: seq<Input>, m: nat, a: Absorption, s: Setup)
    requires 0 < m < |inputs| && Waits(inputs, m - 1, a, s) && TradedBeyondAt(inputs[m], a)
    requires Retests(inputs[m].candle, s)
             || (s.state == ZoneTouched && !ElevenCandlesOn(inputs[m].candle, s.confirmTime))
    ensures EntersAt(inputs, m)
  {
    BeyondReady(inputs[m], a, s);
    EntersIffReady(inputs, m);
  }

  lemma BeyondReady(i: Input, a: Absorption, s: Setup)
    requires About(s, a) && TradedBeyondAt(i, a)
    requires Retests(i.candle, s) || (s.state == ZoneTouched && !ElevenCandlesOn(i.candle, s.confirmTime))
    ensures Ready(i.candle, s)
  {
  }

  /** Main result: a reference offered while the machine is flat, and left alone since, makes the candle enter that
      reaches its zone 5 to 100 candles later and trades beyond it, if no candle before has entered. */
  lemma OfferEnters(inputs: seq<Input>, n: nat, m: nat)
    requires n < m < |inputs| && At(inputs, n).position == None && inputs[n].absorptions != []
    requires 5 <= m - n <= 100 && QuietBetween(inputs, n, m)
    requires Unreached(inputs, n + 5, m, inputs[n].absorptions[0])
    requires ReachedAt(inputs[m], inputs[n].absorptions[0]) && TradedBeyondAt(inputs[m], inputs[n].absorptions[0])
    ensures EntersAt(inputs, m)
  {
    var s := OfferWaits(inputs, n, m, m - 1);
    ReadyEnters(inputs, m, inputs[n].absorptions[0], s);
  }

  ghost predicate NotEleven(inputs: seq<Input>, r: nat, m: nat, time: int)
    requires m <= |inputs|
  {
    forall l: nat :: r <= l < m ==> !ElevenCandlesOn(inputs[l].candle, time)
  }

  /** The reference is marked by the candle `r` that reaches it. */
  lemma OfferMarks(inputs: seq<Input>, n: nat, r: nat) returns (s: Setup)
    requires n < r < |inputs| && At(inputs, n).position == None && inputs[n].absorptions != []
    requires 5 <= r - n <= 100 && QuietBetween(inputs, n, r) && !EntersAt(inputs, r)
    requires Unreached(inputs, n + 5, r, inputs[n].absorptions[0]) && ReachedAt(inputs[r], inputs[n].absorptions[0])
    ensures Waits(inputs, r, inputs[n].absorptions[0], s)
    ensures s.state == ZoneTouched && s.confirmTime == OpenOrZero(inputs[r].candle)
  {
    s := OfferWaits(inputs, n, r, r - 1);
    s := QuietKeeps(inputs, r, s);
  }

  /** A marked reference waits until a candle enters or eleven candles have passed. */
  lemma {:induction false} TouchWaits(inputs: seq<Input>, r: nat, m: nat, l: nat, a: Absorption, s0: Setup)
    returns (s: Setup)
    requires r <= l < m <= |inputs| && QuietBetween(inputs, r, m) && NotEleven(inputs, r + 1, m, s0.confirmTime)
    requires Waits(inputs, r, a, s0) && s0.state == ZoneTouched
    ensures Waits(inputs, l, a, s) && s.state == ZoneTouched && s.confirmTime == s0.confirmTime
  {
    s := s0;
    if r < l {
      s := TouchWaits(inputs, r, m, l - 1, a, s0);
      s := QuietKeeps(inputs, l, s);
    }
  }

  lemma QuietPart(inputs: seq<Input>, n: nat, m: nat, i: nat, j: nat)
    requires n <= i <= j <= m <= |inputs| && QuietBetween(inputs, n, m)
    ensures QuietBetween(inputs, i, j) && (i < j ==> !EntersAt(inputs, i))
  {
  }

  lemma MarkedEnters(inputs: seq<Input>, r: nat, m: nat, a: Absorption, s0: Setup)
    requires r < m < |inputs| && QuietBetween(inputs, r, m) && NotEleven(inputs, r + 1, m, s0.confirmTime)
    requires Waits(inputs, r, a, s0) && s0.state == ZoneTouched
    requires !ElevenCandlesOn(inputs[m].candle, s0.confirmTime) && TradedBeyondAt(inputs[m], a)
    ensures EntersAt(inputs, m)
  {
    var s := TouchWaits(inputs, r, m, m - 1, a, s0);
    ReadyEnters(inputs, m, a, s);
  }

  /** Main result: once the zone was reached without trades beyond it, the next candle that trades beyond it enters,
      whether or not it reaches the zone, unless one has entered or eleven candles have passed. */
  lemma TouchEnters(inputs: seq<Input>, n: nat, r: nat, m: nat)
    requires n < r < m < |inputs| && At(inputs, n).position == None && inputs[n].absorptions != []
    requires 5 <= r - n <= 100 && QuietBetween(inputs, n, m)
    requires Unreached(inputs, n + 5, r, inputs[n].absorptions[0]) && ReachedAt(inputs[r], inputs[n].absorptions[0])
    requires NotEleven(inputs, r + 1, m, OpenOrZero(inputs[r].candle))
    requires !ElevenCandlesOn(inputs[m].candle, OpenOrZero(inputs[r].candle))
    requires TradedBeyondAt(inputs[m], inputs[n].absorptions[0])
    ensures EntersAt(inputs, m)
  {
    QuietPart(inputs, n, m, n, r);
    QuietPart(inputs, n, m, r, m);
    var s := OfferMarks(inputs, n, r);
    MarkedEnters(inputs, r, m, inputs[n].absorptions[0], s);
  }
}
