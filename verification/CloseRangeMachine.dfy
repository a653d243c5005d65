/**
 The close-range machine as the program runs it: an object whose methods update
 its fields in place, each proved against the transition function of CloseRange.
 */
module CloseRangeMachine {
  import opened Common
  import opened CloseRange
  import opened CloseRangeProperties
  import opened Liquidation

  class CloseRangeMachine {
    var closes: seq<real>
    var candles: seq<DailyCandle>
    var trueRanges: seq<real>
    var ema20: Option<real>
    var previousClose: Option<real>
    var lastBarTs: Option<int>
    var sourceDigest: seq<DailyCandle>
    var sourceCount: nat
    var campaign: Option<Campaign>
    var pendingExit: Option<ExitReason>
    var pendingCandidate: Option<Candidate>
    var historicalModelComplete: bool
    var lastHistoricalFundingTs: Option<int>
    var lastHistoricalPriceTs: Option<int>
    var historicalFundingAvailable: bool

    function IndicatorState(): Indicators
      reads this
    {
      Indicators(closes, candles, trueRanges, ema20, previousClose, sourceDigest, sourceCount)
    }

    function State(): Machine
      reads this
    {
      Machine(
        IndicatorState(), lastBarTs, campaign, pendingExit, pendingCandidate, historicalModelComplete,
        lastHistoricalFundingTs, lastHistoricalPriceTs, historicalFundingAvailable)
    }

    ghost predicate Valid()
      reads this
    {
      Restorable(State())
    }

    constructor ()
      ensures State() == Blank && Valid()
    {
      closes, candles, trueRanges := [], [], [];
      ema20, previousClose, lastBarTs := None, None, None;
      sourceDigest, sourceCount := [], 0;
      campaign, pendingExit, pendingCandidate := None, None, None;
      historicalModelComplete, historicalFundingAvailable := true, true;
      lastHistoricalFundingTs, lastHistoricalPriceTs := None, None;
    }

    // ---- indicators ----

    method AppendIndicatorsInPlace(c: DailyCandle)
      modifies this
      ensures State() == old(State()).(ind := AppendIndicators(old(State()).ind, c))
    {
      if previousClose.Some? {
        trueRanges := Push(trueRanges, TrueRange(c, previousClose.value), TR_WINDOW);
      }
      ema20 := Some(NextEma(ema20, c.close));
      previousClose := Some(c.close);
      closes := Push(closes, c.close, WINDOW);
      candles := Push(candles, c, WINDOW);
      sourceDigest := sourceDigest + [c];
      sourceCount := sourceCount + 1;
    }

    /** Overlap of each neighbouring pair among the last ten candles. */
    static method AverageOverlap(cs: seq<DailyCandle>) returns (average: real)
      ensures average == if |cs| < 2 then 0.0 else OverlapSum(cs) / (|cs| - 1) as real
    {
      var total, i := 0.0, 0;
      while i + 1 < |cs|
        invariant 0 <= i && (cs != [] ==> i < |cs|)
        invariant cs != [] ==> total + OverlapSum(cs[i..]) == OverlapSum(cs)
      {
        assert cs[i..][1..] == cs[i + 1..];
        total := total + Overlap(cs[i], cs[i + 1]);
        i := i + 1;
      }
      average := if |cs| < 2 then 0.0 else total / (|cs| - 1) as real;
    }

    method FindCandidate(c: DailyCandle) returns (r: Option<Candidate>)
      ensures r == CandidateOf(State().ind, c)
    {
      if |candles| < MIN_HISTORY || |trueRanges| < 14 || ema20.None? {
        return None;
      }
      var previous20 := LastN(closes, 20);
      var upper, lower := MaxOf(previous20), MinOf(previous20);
      if !(c.close > upper) && !(c.close < lower) {
        return None;
      }
      var side: Side := if c.close > upper then 1 else -1;
      var atr := Sum(LastN(trueRanges, 14)) / 14.0;
      if atr <= 0.0 {
        return None;
      }
      var overlap := AverageOverlap(LastN(candles, 10));
      var distance := side as real * (c.close - ema20.value) / atr;
      return Some(Candidate(
        c.ts, side, if side == 1 then upper else lower, c.close, ema20.value, atr, overlap, distance,
        distance >= STRUCTURE_DISTANCE_MIN && overlap <= OVERLAP_MAX));
    }

    method Warmup(history: seq<DailyCandle>) returns (r: Result<seq<Decision>>)
      modifies this
      ensures Step(State(), r) == CloseRange.Warmup(old(State()), history)
    {
      if lastBarTs.Some? || candles != [] {
        return Err("warmup requires a blank machine");
      }
      var i := 0;
      while i < |history|
        invariant 0 <= i <= |history|
        invariant WarmupFrom(State(), history[i..]) == WarmupFrom(old(State()), history)
      {
        var c := history[i];
        assert history[i..][0] == c && history[i..][1..] == history[i + 1..];
        if lastBarTs.Some? && c.ts != lastBarTs.value + DAY {
          return Err("daily candles must be unique and contiguous");
        }
        pendingCandidate := FindCandidate(c);
        AppendIndicatorsInPlace(c);
        lastBarTs := Some(c.ts);
        i := i + 1;
      }
      return Ok([]);
    }

    // ---- campaign bookkeeping ----

    method ConfirmOwnedFill(k: int, ts: int, price: Price) returns (r: Result<seq<Decision>>)
      modifies `campaign
      ensures Step(State(), r) == CloseRange.ConfirmOwnedFill(old(State()), k, ts, price)
    {
      if campaign.None? {
        return Err("no active campaign");
      }
      var c := campaign.value;
      if !HasK(c.units, k) {
        return Err("campaign unit is absent");
      }
      c := c.(units := Confirm(c.units, k, ts, price));
      if k == 0 {
        c := c.(entryTs := ts, origin := Live);
      }
      campaign := Some(c);
      return Ok([]);
    }

    method DiscardUnfilledAddon(k: int) returns (r: Result<seq<Decision>>)
      modifies `campaign
      ensures Step(State(), r) == CloseRange.DiscardUnfilledAddon(old(State()), k)
    {
      if campaign.None? || k <= 0 || campaign.value.lifetimeUnits != k + 1 || campaign.value.units == [] {
        return Err("latest unfilled add-on is absent");
      }
      var c := campaign.value;
      var last := c.units[|c.units| - 1];
      if last.k != k || last.origin != Paper {
        return Err("latest unfilled add-on is absent");
      }
      campaign := Some(c.(units := c.units[..|c.units| - 1], lifetimeUnits := c.lifetimeUnits - 1));
      return Ok([]);
    }

    method ForgetClosedChild(k: int) returns (r: Result<Unit>)
      modifies `campaign
      ensures var s := CloseRange.ForgetClosedChild(old(State()), k);
        && State() == s.m
        && (s.out.Err? ==> r == Err(s.out.error))
        && (s.out.Ok? ==> r == Ok(FindK(old(campaign).value.units, k)))
    {
      if campaign.None? || k <= 0 {
        return Err("no active child campaign unit");
      }
      var c := campaign.value;
      if !HasK(c.units, k) {
        return Err("campaign child is absent");
      }
      campaign := Some(c.(units := RemoveK(c.units, k)));
      return Ok(FindK(c.units, k));
    }

    method ChildClosed(k: int, ts: int, price: real, reason: Reason) returns (r: Result<seq<Decision>>)
      modifies `campaign
      ensures Step(State(), r) == CloseRange.ChildClosed(old(State()), k, ts, price, reason)
    {
      var unit := ForgetClosedChild(k);
      if unit.Err? {
        return Err(unit.error);
      }
      var c := campaign.value;
      return Ok([Decision(
        ts, UnitExit, reason, Some(c.id), Some(k), Some(c.side), Some(price), None, unit.value.origin == Live)]);
    }

    method ParentLiquidated(ts: int, price: real, liquidated: bool) returns (r: Result<seq<Decision>>)
      modifies `campaign, `pendingExit
      ensures Step(State(), r) == CloseRange.ParentLiquidated(old(State()), ts, price, liquidated)
    {
      if campaign.None? {
        return Err("no active campaign");
      }
      var c := campaign.value;
      campaign, pendingExit := None, None;
      return Ok([Decision(
        ts, CampaignExit, if liquidated then ParentLiquidation else ParentExternalClose,
        Some(c.id), Some(0), Some(c.side), Some(price), None, c.origin != Historical)]);
    }

    // ---- hypothetical funding and liquidation ----

    method ApplyHistoricalFunding(ts: int, rate: real, fixing: real) returns (r: Result<seq<Decision>>)
      modifies `campaign, `lastHistoricalFundingTs
      ensures Step(State(), r) == ApplyFunding(old(State()), ts, rate, fixing)
    {
      if fixing <= 0.0 {
        return Err("invalid funding fixing");
      }
      if lastHistoricalFundingTs.Some? && ts <= lastHistoricalFundingTs.value {
        return Ok([]);
      }
      if campaign.Some? && campaign.value.origin == Historical && historicalModelComplete {
        var c := campaign.value;
        var debit := Debit(c.side, rate, fixing);
        var units, i := c.units, 0;
        while i < |units|
          invariant 0 <= i <= |units| == |c.units|
          invariant units[..i] == DebitUnits(c.units, ts, debit)[..i] && units[i..] == c.units[i..]
        {
          var unit := units[i];
          if unit.entryTs < ts && unit.collateral.Some? {
            units := units[i := unit.(collateral := Some(unit.collateral.value + debit))];
          }
          i := i + 1;
        }
        assert units == DebitUnits(c.units, ts, debit);
        campaign := Some(c.(units := units));
      }
      lastHistoricalFundingTs := Some(ts);
      return Ok([]);
    }

    method ObserveHistoricalPrices(ts: int, opening: real, low: real, high: real) returns (r: Result<seq<Decision>>)
      requires Valid()
      modifies `campaign, `pendingExit, `lastHistoricalPriceTs
      ensures Valid()
      ensures Step(State(), r) == ObservePrices(old(State()), ts, opening, low, high)
    {
      PricesShrink(State(), ts, opening, low, high);
      if campaign.None? || campaign.value.origin != Historical || !historicalModelComplete {
        return Ok([]);
      }
      var c := campaign.value;
      if ts < c.entryTs || (lastHistoricalPriceTs.Some? && ts < lastHistoricalPriceTs.value) {
        return Ok([]);
      }
      if !historicalFundingAvailable {
        return Ok([]);
      }
      lastHistoricalPriceTs := Some(ts);
      var adverse := Adverse(c.side, low, high);
      var hits, levels := CollectHits(c.side, c.units, opening, adverse);
      if hits.Err? {
        return Err(hits.error);
      }
      r := ProcessHits(Sorted(c.side, hits.value), levels, ts, opening);
    }

    /** The units hit by a bar, and every unit's level; fails on a unit without collateral. */
    static method CollectHits(side: Side, units: seq<Unit>, opening: real, adverse: real)
      returns (r: Result<seq<HitAt>>, levels: map<int, real>)
      requires DistinctUnits(units)
      ensures r.Ok? <==> Evidenced(units)
      ensures r.Ok? ==> r.value == HitsOf(side, units, opening, adverse) && Levels(levels, side, units, opening)
      ensures r.Err? ==> r.error == "historical collateral evidence missing"
    {
      var hits: seq<HitAt>, i := [], 0;
      levels := map[];
      while i < |units|
        invariant 0 <= i <= |units| && Evidenced(units[..i])
        invariant hits == HitsOf(side, units[..i], opening, adverse)
        invariant Levels(levels, side, units[..i], opening)
      {
        var unit := units[i];
        if unit.collateral.None? {
          assert unit in units;
          return Err("historical collateral evidence missing"), levels;
        }
        var level := Level(side, unit, opening);
        HitsOfAppend(side, units[..i], unit, opening, adverse);
        assert units[..i + 1] == units[..i] + [unit];
        levels := levels[unit.k := level];
        if Hit(side, unit, opening, adverse) {
          hits := hits + [HitAt(unit.k, Trigger(side, opening, level))];
        }
        i := i + 1;
      }
      assert units[..i] == units;
      return Ok(hits), levels;
    }

    /** levels holds every unit's liquidation level. */
    static ghost predicate Levels(levels: map<int, real>, side: Side, units: seq<Unit>, opening: real)
      requires Evidenced(units)
    {
      forall u :: u in units ==> u.k in levels && levels[u.k] == Level(side, u, opening)
    }

    static lemma HitsOfAppend(side: Side, units: seq<Unit>, u: Unit, opening: real, adverse: real)
      requires Evidenced(units) && u.collateral.Some?
      ensures HitsOf(side, units + [u], opening, adverse) == HitsOf(side, units, opening, adverse)
          + if Hit(side, u, opening, adverse) then [HitAt(u.k, Trigger(side, opening, Level(side, u, opening)))] else []
    {
      if units == [] {
        assert units + [u] == [u];
      } else {
        assert (units + [u])[1..] == units[1..] + [u];
      }
    }

    static lemma ChainEmpty(m: Machine, s: Step)
      ensures Chain(Step(m, Ok([])), s) == s
    {
      if s.out.Ok? {
        assert [] + s.out.value == s.out.value;
      }
    }

    /** Appending one outcome to what was already decided. */
    static lemma ChainAppend(m: Machine, done: seq<Decision>, one: Step, rest: Step)
      requires one.out.Ok?
      ensures Chain(Step(m, Ok(done)), Chain(one, rest)) == Chain(Step(one.m, Ok(done + one.out.value)), rest)
    {
      if rest.out.Ok? {
        assert done + (one.out.value + rest.out.value) == (done + one.out.value) + rest.out.value;
      }
    }

    /** The sorted loop: children one by one, and the parent closes what is left. */
    method ProcessHits(ordered: seq<HitAt>, levels: map<int, real>, ts: int, opening: real)
      returns (r: Result<seq<Decision>>)
      requires campaign.Some? && ValidCampaign(campaign.value) && Evidenced(campaign.value.units)
      requires Levels(levels, campaign.value.side, campaign.value.units, opening)
      modifies `campaign, `pendingExit
      ensures Step(State(), r) == Cascade(old(State()), ordered, ts, opening)
    {
      var decisions: seq<Decision>, n := [], 0;
      ChainEmpty(State(), Cascade(State(), ordered, ts, opening));
      assert ordered[0..] == ordered;
      while n < |ordered|
        invariant 0 <= n <= |ordered|
        invariant campaign.Some? && ValidCampaign(campaign.value) && Evidenced(campaign.value.units)
        invariant Levels(levels, campaign.value.side, campaign.value.units, opening)
        invariant Cascade(old(State()), ordered, ts, opening)
               == Chain(Step(State(), Ok(decisions)), Cascade(State(), ordered[n..], ts, opening))
      {
        var hit := ordered[n];
        assert ordered[n..][0] == hit && ordered[n..][1..] == ordered[n + 1..];
        if hit.k == 0 {
          var closed := CloseSurvivors(hit.price, levels, ts, opening);
          if closed.Err? {
            return closed;
          }
          var outcome := ParentLiquidated(ts, hit.price, true);
          decisions := decisions + (closed.value + [outcome.value[0].(kind := HistoricalExit, owned := false)]);
          return Ok(decisions);
        }
        ghost var before := State();
        ForgetKeepsCampaign(before, hit.k);
        var outcome := ChildClosed(hit.k, ts, hit.price, ChildLiquidation);
        if outcome.Err? {
          return outcome;
        }
        ChainAppend(before, decisions, Step(State(), outcome), Cascade(State(), ordered[n + 1..], ts, opening));
        decisions := decisions + outcome.value;
        n := n + 1;
      }
      assert decisions + [] == decisions;
      return Ok(decisions);
    }

    /** Close every child at the parent's price, reading each level from the table. */
    method CloseSurvivors(price: real, levels: map<int, real>, ts: int, opening: real)
      returns (r: Result<seq<Decision>>)
      requires campaign.Some? && ValidCampaign(campaign.value) && Evidenced(campaign.value.units)
      requires Levels(levels, campaign.value.side, campaign.value.units, opening)
      modifies `campaign
      ensures Step(State(), r) == CloseChildren(old(State()), old(campaign).value.units, ts, price, opening)
      ensures campaign.Some?
    {
      hide CloseRange.ForgetClosedChild;
      var units, decisions: seq<Decision>, i := campaign.value.units, [], 0;
      var side := campaign.value.side;
      ChainEmpty(State(), CloseChildren(State(), units, ts, price, opening));
      assert units[0..] == units;
      while i < |units|
        invariant 0 <= i <= |units|
        invariant campaign.Some? && campaign.value.side == side && ValidCampaign(campaign.value)
        invariant CloseChildren(old(State()), units, ts, price, opening)
               == Chain(Step(State(), Ok(decisions)), CloseChildren(State(), units[i..], ts, price, opening))
      {
        var unit := units[i];
        assert units[i..][0] == unit && units[i..][1..] == units[i + 1..];
        if unit.k != 0 {
          assert unit in units;
          var crossed := Reached(side, price, levels[unit.k]);
          ghost var before := State();
          ForgetKeepsCampaign(before, unit.k);
          var outcome := ChildClosed(unit.k, ts, price, if crossed then ChildLiquidation else ParentForcedExit);
          if outcome.Err? {
            return outcome;
          }
          ChainAppend(
            before, decisions, Step(State(), outcome), CloseChildren(State(), units[i + 1..], ts, price, opening));
          decisions := decisions + outcome.value;
        }
        i := i + 1;
      }
      assert decisions + [] == decisions;
      return Ok(decisions);
    }

    // ---- daily close and open ----

    /** One more day held, and perhaps a reason to leave at the next open. */
    method AgeCampaign(candle: DailyCandle)
      requires campaign.Some? ==> campaign.value.units != []
      modifies `campaign, `pendingExit
      ensures Step(State(), Ok([])) == Age(old(State()), candle)
    {
      if campaign.Some? {
        var c := campaign.value;
        var parent := c.units[0];
        c := c.(heldDays := c.heldDays + 1);
        var favorable := if c.side == 1 then candle.high else candle.low;
        var excursion := c.side as real * (favorable - parent.entryPrice) / parent.entryPrice;
        c := c.(peakFavorable := Max(c.peakFavorable, excursion));
        var progress := c.side as real * (candle.close - parent.entryPrice) / parent.entryPrice;
        campaign := Some(c);
        if c.side as real * (candle.close - c.boundary) <= 0.0 {
          pendingExit := Some(RangeClose);
        } else if c.heldDays >= RECOVERY_START_DAY && c.peakFavorable > 0.0
               && progress >= RECOVERY_FRACTION * c.peakFavorable {
          pendingExit := Some(Recover);
        } else if c.heldDays >= MAX_HOLD_DAYS {
          pendingExit := Some(MaximumHold);
        }
      }
    }

    method ObserveClose(candle: DailyCandle) returns (r: Result<seq<Decision>>)
      requires Valid()
      modifies this
      ensures Valid()
      ensures Step(State(), r) == CloseRange.ObserveClose(old(State()), candle)
    {
      hide CandidateOf, AppendIndicators, ObservePrices, Age, IncreasingK;
      ObserveCloseKeeps(State(), candle);
      var candidate := FindCandidate(candle);
      var prices := ObserveHistoricalPrices(candle.ts, candle.open, candle.low, candle.high);
      if prices.Err? {
        return prices;
      }
      AgeCampaign(candle);
      pendingCandidate := candidate;
      AppendIndicatorsInPlace(candle);
      lastBarTs := Some(candle.ts);
      return Ok(prices.value + SignalOf(State(), candle, candidate));
    }

    method ApplyOpen(ts: int, open: Price, activation: int, mode: DirectionMode) returns (r: Result<seq<Decision>>)
      requires Valid()
      modifies `campaign, `pendingExit, `pendingCandidate
      ensures Valid()
      ensures Step(State(), r) == CloseRange.ApplyOpen(old(State()), ts, open, activation, mode)
    {
      ApplyOpenKeeps(State(), ts, open, activation, mode);
      var decisions: seq<Decision> := [];
      var recoveredSide: Option<Side> := None;
      if campaign.Some? && pendingExit.Some? {
        var c := campaign.value;
        if pendingExit.value == Recover {
          recoveredSide := Some(c.side);
        }
        decisions := [Decision(
          ts, if c.origin == Historical then HistoricalExit else CampaignExit, ExitBy(pendingExit.value),
          Some(c.id), None, Some(c.side), Some(open), None, c.origin != Historical)];
        campaign, pendingExit := None, None;
      }
      var candidate := pendingCandidate;
      pendingCandidate := None;
      if candidate.None? {
        return Ok(decisions);
      }
      if campaign.None? {
        var parent := OpenParentInPlace(candidate.value, recoveredSide, ts, open, activation, mode);
        return Ok(decisions + parent);
      }
      var addon := OpenAddonInPlace(candidate.value, ts, open, mode);
      return Ok(decisions + addon);
    }

    method OpenParentInPlace(
      candidate: Candidate, recoveredSide: Option<Side>, ts: int, open: Price, activation: int, mode: DirectionMode
    ) returns (ds: seq<Decision>)
      modifies `campaign
      ensures Step(State(), Ok(ds))
           == OpenParent(old(State()), candidate, recoveredSide, ts, open, activation, mode)
    {
      if !candidate.structurePass {
        return [Refusal(ts, ParentStructure, candidate)];
      }
      if recoveredSide == Some(candidate.side) {
        return [Refusal(ts, RecoverySameOpen, candidate)];
      }
      if ts >= activation && !DirectionAllowed(mode, candidate.side) {
        return [Refusal(ts, ParentDirectionMode, candidate)];
      }
      var origin := if ts >= activation then Paper else Historical;
      var price := Slip(open, candidate.side);
      var id := CampaignId(ts, candidate.side);
      campaign := Some(Campaign(
        id, candidate.side, candidate.boundary, ts, 0, 0.0, origin, 1, [NewUnit(0, ts, price, origin)]));
      return [Decision(
        ts, if origin == Paper then PaperParent else HistoricalParent, StructureParent, Some(id), Some(0),
        Some(candidate.side), Some(price), Some(candidate), false)];
    }

    method OpenAddonInPlace(candidate: Candidate, ts: int, open: Price, mode: DirectionMode)
      returns (ds: seq<Decision>)
      requires campaign.Some? && campaign.value.units != []
      modifies `campaign
      ensures Step(State(), Ok(ds)) == OpenAddon(old(State()), candidate, ts, open, mode)
    {
      var c := campaign.value;
      if candidate.side != c.side {
        return [Refusal(ts, OccupiedOpposite, candidate)];
      }
      if c.origin != Historical && !DirectionAllowed(mode, candidate.side) {
        return [Refusal(ts, AddonDirectionMode, candidate)];
      }
      if c.lifetimeUnits >= MAX_UNITS {
        return [Refusal(ts, AddonCap, candidate)];
      }
      var price := Slip(open, c.side);
      var displacement := c.side as real * (price / c.units[0].entryPrice - 1.0);
      if c.side as real * (open - c.boundary) <= 0.0 {
        return [Refusal(ts, AddonParentBoundary, candidate)];
      }
      if displacement > MAX_ADDON_DISPLACEMENT + TOLERANCE {
        return [Refusal(ts, AddonDistance, candidate)];
      }
      var origin := if c.origin == Historical then Historical else Paper;
      var k := c.lifetimeUnits;
      campaign := Some(c.(lifetimeUnits := k + 1, units := c.units + [NewUnit(k, ts, price, origin)]));
      return [Decision(
        ts, if origin == Paper then PaperAddon else HistoricalAddon, RawSameSideAddon, Some(c.id), Some(k),
        Some(c.side), Some(price), Some(candidate), false)];
    }

    method Advance(candle: DailyCandle, activation: int, mode: DirectionMode) returns (r: Result<seq<Decision>>)
      requires Valid()
      modifies this
      ensures Valid()
      ensures Step(State(), r) == CloseRange.Advance(old(State()), candle, activation, mode)
    {
      if lastBarTs.Some? && candle.ts != lastBarTs.value + DAY {
        return Err("daily candles must be unique and contiguous");
      }
      var atOpen := ApplyOpen(candle.ts, candle.open, activation, mode);
      if atOpen.Err? {
        return atOpen;
      }
      var atClose := ObserveClose(candle);
      if atClose.Err? {
        return atClose;
      }
      return Ok(atOpen.value + atClose.value);
    }

    method CompleteAndApplyNextOpen(
      candle: DailyCandle, nextTs: int, nextPrice: Price, activation: int, mode: DirectionMode
    ) returns (r: Result<seq<Decision>>)
      requires Valid()
      modifies this
      ensures Valid()
      ensures Step(State(), r)
           == CloseRange.CompleteAndApplyNextOpen(old(State()), candle, nextTs, nextPrice, activation, mode)
    {
      if lastBarTs.Some? && candle.ts != lastBarTs.value + DAY {
        return Err("daily candles must be unique and contiguous");
      }
      if nextTs != candle.ts + DAY {
        return Err("next daily open must immediately follow the completed candle");
      }
      var atClose := ObserveClose(candle);
      if atClose.Err? {
        return atClose;
      }
      var atOpen := ApplyOpen(nextTs, nextPrice, activation, mode);
      if atOpen.Err? {
        return atOpen;
      }
      return Ok(atClose.value + atOpen.value);
    }

    // ---- persistence ----

    method Save() returns (s: Snapshot)
      ensures s == PersistentState(State())
      ensures Valid() ==> Restore(s) == Ok(State())
    {
      if Restorable(State()) {
        RestoreInvertsPersist(State());
      }
      s := PersistentState(State());
    }

    method SetIndicators(i: Indicators)
      modifies `closes, `candles, `trueRanges, `ema20, `previousClose, `sourceDigest, `sourceCount
      ensures IndicatorState() == i
    {
      closes, candles, trueRanges := i.closes, i.candles, i.trueRanges;
      ema20, previousClose := i.ema20, i.previousClose;
      sourceDigest, sourceCount := i.digest, i.count;
    }

    method SetFields(m: Machine)
      modifies this
      ensures State() == m
    {
      SetIndicators(m.ind);
      lastBarTs := m.lastBarTs;
      campaign, pendingExit, pendingCandidate := m.campaign, m.pendingExit, m.pendingCandidate;
      historicalModelComplete, historicalFundingAvailable := m.modelComplete, m.fundingAvailable;
      lastHistoricalFundingTs, lastHistoricalPriceTs := m.lastFundingTs, m.lastPriceTs;
    }

    /** Rebuild the machine; a refused snapshot leaves this machine as it was. */
    method Load(s: Snapshot) returns (r: Result<seq<Decision>>)
      modifies this
      ensures Restore(s).Ok? ==> r.Ok? && State() == Restore(s).value && Valid()
      ensures Restore(s).Err? ==> r == Err(Restore(s).error) && unchanged(this)
    {
      hide CloseRange.Restore, CloseRange.Valid;
      var restored := Restore(s);
      if restored.Err? {
        return Err(restored.error);
      }
      SetFields(restored.value);
      RestoreIsValid(s);
      return Ok([]);
    }
  }
}
