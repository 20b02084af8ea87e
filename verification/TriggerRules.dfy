/** When a remembered zone is reached, timed out and entered on, in raw terms: prices, times and counts of candles. */
module TriggerRules {
  import opened Wrappers
  import opened TriggerModel

  /** The candle trades at or through the near edge of the zone: down to its top for a long reference, up to its
      bottom for a short one. */
  predicate Reaches(c: Candle, d: Direction, low: Option<real>, high: Option<real>) {
    && low != None && high != None
    && ((d == Long && c.low != None && c.low.value <= high.value)
        || (d == Short && c.high != None && low.value <= c.high.value))
  }

  /** The bin was traded in the direction of the entry, strictly beyond both edges of the zone. */
  predicate Beyond(b: Bin, d: Direction, low: Option<real>, high: Option<real>) {
    && low != None && high != None && b.center != None
    && ((d == Long && b.buy > 0.0 && b.center.value > low.value && b.center.value > high.value)
        || (d == Short && b.sell > 0.0 && b.center.value < low.value && b.center.value < high.value))
  }

  /** Eleven candle lengths or more have passed since `since`, as far as that can be told. */
  predicate ElevenCandlesOn(c: Candle, since: int) {
    && since > 0 && c.openTime != None && c.interval != None && c.interval.value > 0
    && c.openTime.value - since >= 11 * c.interval.value
  }

  /** An untouched setup that this candle, its fifth to hundredth, sees reached. */
  predicate Retests(c: Candle, s: Setup) {
    s.state == AbsorptionFound && 5 <= s.age + 1 <= 100 && Reaches(c, s.direction, s.zoneLow, s.zoneHigh)
  }

  /** The setup may be entered on with this candle. */
  predicate Ready(c: Candle, s: Setup) {
    && (Retests(c, s) || (s.state == ZoneTouched && !ElevenCandlesOn(c, s.confirmTime)))
    && exists b :: b in c.bins && Beyond(b, s.direction, s.zoneLow, s.zoneHigh)
  }

  lemma TouchIsReach(c: Candle, s: Setup)
    ensures TouchesZone(c, s) <==> Reaches(c, s.direction, s.zoneLow, s.zoneHigh)
  {
  }

  lemma ExecutesIsBeyond(b: Bin, s: Setup)
    ensures Executes(b, s, s.direction) <==> Beyond(b, s.direction, s.zoneLow, s.zoneHigh)
  {
  }

  lemma Floor(a: int, b: int)
    requires b > 0
    ensures a / b > 10 <==> a >= 11 * b
  {
  }

  lemma TimeoutIsEleven(c: Candle, s: Setup)
    ensures TimedOut(c, s) <==> ElevenCandlesOn(c, s.confirmTime)
  {
    if c.openTime.Some? && c.interval.Some? && c.interval.value > 0 {
      Floor(c.openTime.value - s.confirmTime, c.interval.value);
    }
  }

  lemma SomeBin(c: Candle, s: Setup)
    ensures ExecutionBin(c.bins, s, s.direction).Some?
       <==> exists b :: b in c.bins && Beyond(b, s.direction, s.zoneLow, s.zoneHigh)
  {
    ExecutionBinBest(c.bins, s, s.direction);
    forall b ensures Executes(b, s, s.direction) <==> Beyond(b, s.direction, s.zoneLow, s.zoneHigh) {
      ExecutesIsBeyond(b, s);
    }
  }

  /** Main result: a setup fires exactly if it is ready. */
  lemma FiresIffReady(c: Candle, s: Setup)
    ensures ProcessSetup(c, s).signal.Some? <==> Ready(c, s)
  {
    TouchIsReach(c, s);
    TimeoutIsEleven(c, s);
    SomeBin(c, s);
  }

  /** `b` is a bin beyond the zone, none is nearer to it, and among the nearest none traded more. */
  ghost predicate BestBin(c: Candle, s: Setup, b: Bin) {
    && b in c.bins && Beyond(b, s.direction, s.zoneLow, s.zoneHigh)
    && forall x :: x in c.bins && Beyond(x, s.direction, s.zoneLow, s.zoneHigh) ==>
         if s.direction == Long then
           b.center.value < x.center.value || (b.center.value == x.center.value && b.buy >= x.buy)
         else b.center.value > x.center.value || (b.center.value == x.center.value && b.sell >= x.sell)
  }

  /** What the entry on a ready setup says. */
  ghost predicate EntersOn(c: Candle, s: Setup, e: Signal) {
    && e.Entry? && e.side == s.direction && e.setup == s && BestBin(c, s, e.bin)
    && e.id == PositionId(c.symbol, c.timeframe, s.direction, s.referenceTime,
                          if c.openTime == None then 0 else c.openTime.value)
    && e.stop == if s.direction == Long then s.zoneLow else s.zoneHigh
  }

  /** Main result: the entry names the setup and the candle, enters on the best bin and stops beyond the zone. */
  lemma FiresOn(c: Candle, s: Setup)
    requires Ready(c, s)
    ensures ProcessSetup(c, s).signal.Some? && EntersOn(c, s, ProcessSetup(c, s).signal.value)
  {
    FiresIffReady(c, s);
    ExecutionBinBest(c.bins, s, s.direction);
    forall b ensures Executes(b, s, s.direction) <==> Beyond(b, s.direction, s.zoneLow, s.zoneHigh) {
      ExecutesIsBeyond(b, s);
    }
  }

  // ----- the life of a setup that does not fire -----

  /** The candle makes the setup too old. */
  predicate Expires(c: Candle, s: Setup) {
    if s.state == ZoneTouched then ElevenCandlesOn(c, s.confirmTime) else s.age + 1 > 100
  }

  /** `r` is `s` one candle older, marked if the candle retests it. */
  predicate Older(c: Candle, s: Setup, r: Setup) {
    && r.age == s.age + 1 && r.direction == s.direction && r.referenceId == s.referenceId
    && r.referenceTime == s.referenceTime && r.zoneLow == s.zoneLow && r.zoneHigh == s.zoneHigh
    && (if Retests(c, s) then
          r.state == ZoneTouched && r.confirmTime == if c.openTime == None then 0 else c.openTime.value
        else r.state == s.state && r.confirmTime == s.confirmTime)
  }

  /** Main result: a setup that does not fire is forgotten exactly if it expires, and else grows a candle older. */
  lemma StaysIffYoung(c: Candle, s: Setup)
    requires !Ready(c, s)
    ensures ProcessSetup(c, s).keep <==> !Expires(c, s)
    ensures Older(c, s, ProcessSetup(c, s).after)
  {
    FiresIffReady(c, s);
    TouchIsReach(c, s);
    TimeoutIsEleven(c, s);
  }

  /** `s` is the reference `a` as remembered on candle `c`: untouched and of age 0. */
  predicate Remembers(c: Candle, a: Absorption, s: Setup) {
    && s.state == AbsorptionFound && s.age == 0 && s.confirmTime == 0
    && s.direction == a.direction && s.referenceId == a.referenceId
    && s.zoneLow == a.zoneLow && s.zoneHigh == a.zoneHigh
    && (a.referenceTime != None && a.referenceTime != Some(0) ==> a.referenceTime == Some(s.referenceTime))
    && (a.referenceTime == None || a.referenceTime == Some(0) ==>
          s.referenceTime == if c.openTime == None then 0 else c.openTime.value)
  }

  lemma NewRemembers(c: Candle, a: Absorption)
    ensures Remembers(c, a, NewSetup(c, a))
  {
  }
}
