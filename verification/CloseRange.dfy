/**
 The daily close-range state machine: indicators, one campaign of up to four
 units, and the decisions taken at each daily close and open.

 This file holds the values and the transition functions; the class that
 updates them in place is CloseRangeMachine.dfy.
 */
module CloseRange {
  import opened Common

  const MIN_HISTORY: nat := 120
  const WINDOW: nat := 256
  const TR_WINDOW: nat := 64
  const STRUCTURE_DISTANCE_MIN: real := 1.5
  const OVERLAP_MAX: real := 0.55
  const MAX_UNITS: int := 4
  const MAX_ADDON_DISPLACEMENT: real := 0.15
  const TOLERANCE: real := 0.000000000001
  const RECOVERY_START_DAY: int := 85
  const RECOVERY_FRACTION: real := 0.97
  const MAX_HOLD_DAYS: int := 120
  const VERSION: int := 1

  type Price = r: real | r > 0.0 witness 1.0

  // 1 is long, -1 is short.
  type Side = s: int | s == 1 || s == -1 witness 1

  datatype Candle = Candle(ts: int, open: real, high: real, low: real, close: real)

  predicate ValidCandle(c: Candle) {
    && c.ts % DAY == 0
    && c.open > 0.0 && c.high > 0.0 && c.low > 0.0 && c.close > 0.0
    && c.high >= Max(c.open, c.close) && c.low <= Min(c.open, c.close)
  }

  type DailyCandle = c: Candle | ValidCandle(c) witness Candle(0, 1.0, 1.0, 1.0, 1.0)

  datatype Candidate = Candidate(
    signalTs: int, side: Side, boundary: real, signalClose: real, ema20: real, atr14: real,
    averageOverlap10: real, distanceEmaAtr: real, structurePass: bool)

  datatype Origin = Historical | Paper | Live

  datatype Unit = Unit(k: int, entryTs: int, entryPrice: Price, origin: Origin, collateral: Option<real>)

  // The source formats the opening date and the side into one string.
  datatype CampaignId = CampaignId(openTs: int, side: int)

  datatype Campaign = Campaign(
    id: CampaignId, side: Side, boundary: real, entryTs: int, heldDays: int, peakFavorable: real,
    origin: Origin, lifetimeUnits: int, units: seq<Unit>)

  datatype ExitReason = RangeClose | Recover | MaximumHold

  datatype DirectionMode = Both | LongOnly | ShortOnly

  datatype Kind =
    | Signal | Reject | HistoricalExit | CampaignExit | UnitExit
    | PaperParent | HistoricalParent | PaperAddon | HistoricalAddon

  datatype Reason =
    | StructurePass | StructureReject | ExitBy(exit: ExitReason)
    | ParentStructure | RecoverySameOpen | ParentDirectionMode | StructureParent
    | OccupiedOpposite | AddonDirectionMode | AddonCap | AddonParentBoundary | AddonDistance
    | RawSameSideAddon | ParentLiquidation | ParentExternalClose
    | ChildLiquidation | ChildExternalClose | ParentForcedExit | AddonFillTooFar

  datatype Decision = Decision(
    ts: int, kind: Kind, reason: Reason, campaign: Option<CampaignId>, k: Option<int>,
    side: Option<int>, price: Option<real>, candidate: Option<Candidate>, owned: bool)

  // The hash chain over processed candles is an injective function of them,
  // so it is represented by the candles themselves.
  datatype Indicators = Indicators(
    closes: seq<real>, candles: seq<DailyCandle>, trueRanges: seq<real>, ema20: Option<real>,
    previousClose: Option<real>, digest: seq<DailyCandle>, count: nat)

  datatype Machine = Machine(
    ind: Indicators, lastBarTs: Option<int>, campaign: Option<Campaign>,
    pendingExit: Option<ExitReason>, pendingCandidate: Option<Candidate>,
    modelComplete: bool, lastFundingTs: Option<int>, lastPriceTs: Option<int>,
    fundingAvailable: bool)

  const BlankIndicators := Indicators([], [], [], None, None, [], 0)
  const Blank := Machine(BlankIndicators, None, None, None, None, true, None, None, true)

  /** The state after an operation, and what it returned or raised. */
  datatype Step = Step(m: Machine, out: Result<seq<Decision>>)

  // ---- indicators ----

  function MaxOf(xs: seq<real>): real {
    if xs == [] then 0.0 else if |xs| == 1 then xs[0] else Max(xs[0], MaxOf(xs[1..]))
  }

  function MinOf(xs: seq<real>): real {
    if xs == [] then 0.0 else if |xs| == 1 then xs[0] else Min(xs[0], MinOf(xs[1..]))
  }

  function Sum(xs: seq<real>): real {
    if xs == [] then 0.0 else xs[0] + Sum(xs[1..])
  }

  function Overlap(left: Candle, right: Candle): real {
    var overlap := Max(0.0, Min(left.high, right.high) - Max(left.low, right.low));
    var union := Max(left.high, right.high) - Min(left.low, right.low);
    if union == 0.0 then 0.0 else overlap / union
  }

  function OverlapSum(cs: seq<DailyCandle>): real {
    if |cs| < 2 then 0.0 else Overlap(cs[0], cs[1]) + OverlapSum(cs[1..])
  }

  function TrueRange(c: Candle, previousClose: real): real {
    Max(Max(c.high - c.low, Abs(c.high - previousClose)), Abs(c.low - previousClose))
  }

  function NextEma(ema: Option<real>, close: real): real {
    match ema
    case None => close
    case Some(e) => (2.0 / 21.0) * close + (19.0 / 21.0) * e
  }

  /** The breakout rules on a given 20 closes, 14 true ranges and 10 candles. */
  function Breakout(
    closes20: seq<real>, ranges14: seq<real>, candles10: seq<DailyCandle>, ema: real, c: DailyCandle
  ): Option<Candidate> {
    var upper, lower := MaxOf(closes20), MinOf(closes20);
    var atr := Sum(ranges14) / 14.0;
    if !(c.close > upper) && !(c.close < lower) then None
    else if atr <= 0.0 then None
    else
      var side: Side := if c.close > upper then 1 else -1;
      var overlap := if |candles10| < 2 then 0.0 else OverlapSum(candles10) / (|candles10| - 1) as real;
      var distance := side as real * (c.close - ema) / atr;
      Some(Candidate(
        c.ts, side, if side == 1 then upper else lower, c.close, ema, atr, overlap, distance,
        distance >= STRUCTURE_DISTANCE_MIN && overlap <= OVERLAP_MAX))
  }

  function CandidateOf(i: Indicators, c: DailyCandle): Option<Candidate> {
    if |i.candles| < MIN_HISTORY || |i.trueRanges| < 14 || i.ema20.None? then None
    else
      Breakout(LastN(i.closes, 20), LastN(i.trueRanges, 14), LastN(i.candles, 10), i.ema20.value, c)
  }

  function AppendIndicators(i: Indicators, c: DailyCandle): Indicators {
    Indicators(
      Push(i.closes, c.close, WINDOW),
      Push(i.candles, c, WINDOW),
      if i.previousClose.None? then i.trueRanges
      else Push(i.trueRanges, TrueRange(c, i.previousClose.value), TR_WINDOW),
      Some(NextEma(i.ema20, c.close)),
      Some(c.close),
      i.digest + [c],
      i.count + 1)
  }

  predicate IsNext(m: Machine, ts: int) {
    m.lastBarTs.None? || ts == m.lastBarTs.value + DAY
  }

  // ---- campaign units ----

  predicate HasK(units: seq<Unit>, k: int) {
    exists i :: 0 <= i < |units| && units[i].k == k
  }

  function RemoveK(units: seq<Unit>, k: int): seq<Unit> {
    if units == [] then []
    else if units[0].k == k then units[1..]
    else [units[0]] + RemoveK(units[1..], k)
  }

  function FindK(units: seq<Unit>, k: int): (u: Unit)
    requires HasK(units, k)
    ensures u.k == k && u in units
  {
    if units[0].k == k then units[0] else FindK(units[1..], k)
  }

  function Confirm(units: seq<Unit>, k: int, ts: int, price: Price): seq<Unit> {
    if units == [] then []
    else if units[0].k == k then
      [units[0].(entryTs := ts, entryPrice := price, origin := Live)] + units[1..]
    else [units[0]] + Confirm(units[1..], k, ts, price)
  }

  function Slip(open: Price, side: Side): Price {
    if side == 1 then open * 1.0005 else open * 0.9995
  }

  function InitialCollateral(price: Price): real { 1.0 / price / 5.0 }

  function NewUnit(k: int, ts: int, price: Price, origin: Origin): Unit {
    Unit(k, ts, price, origin, if origin.Historical? then Some(InitialCollateral(price)) else None)
  }

  function ConfirmOwnedFill(m: Machine, k: int, ts: int, price: Price): Step {
    if m.campaign.None? then Step(m, Err("no active campaign"))
    else
      var c := m.campaign.value;
      if !HasK(c.units, k) then Step(m, Err("campaign unit is absent"))
      else
        var c1 := c.(units := Confirm(c.units, k, ts, price));
        var c2 := if k == 0 then c1.(entryTs := ts, origin := Live) else c1;
        Step(m.(campaign := Some(c2)), Ok([]))
  }

  predicate Discardable(m: Machine, k: int) {
    && m.campaign.Some?
    && k > 0
    && var c := m.campaign.value;
    && c.lifetimeUnits == k + 1
    && c.units != []
    && c.units[|c.units| - 1].k == k
    && c.units[|c.units| - 1].origin == Paper
  }

  function DiscardUnfilledAddon(m: Machine, k: int): Step {
    if !Discardable(m, k) then Step(m, Err("latest unfilled add-on is absent"))
    else
      var c := m.campaign.value;
      Step(
        m.(campaign := Some(c.(units := c.units[..|c.units| - 1], lifetimeUnits := c.lifetimeUnits - 1))),
        Ok([]))
  }

  function ForgetClosedChild(m: Machine, k: int): Step {
    if m.campaign.None? || k <= 0 then Step(m, Err("no active child campaign unit"))
    else
      var c := m.campaign.value;
      if !HasK(c.units, k) then Step(m, Err("campaign child is absent"))
      else Step(m.(campaign := Some(c.(units := RemoveK(c.units, k)))), Ok([]))
  }

  function ChildClosed(m: Machine, k: int, ts: int, price: real, reason: Reason): Step {
    var s := ForgetClosedChild(m, k);
    if s.out.Err? then s
    else
      var c := m.campaign.value;
      Step(s.m, Ok([Decision(
        ts, UnitExit, reason, Some(c.id), Some(k), Some(c.side), Some(price), None,
        FindK(c.units, k).origin == Live)]))
  }

  function ParentLiquidated(m: Machine, ts: int, price: real, liquidated: bool): Step {
    if m.campaign.None? then Step(m, Err("no active campaign"))
    else
      var c := m.campaign.value;
      Step(
        m.(campaign := None, pendingExit := None),
        Ok([Decision(
          ts, CampaignExit, if liquidated then ParentLiquidation else ParentExternalClose,
          Some(c.id), Some(0), Some(c.side), Some(price), None, c.origin != Historical)]))
  }

  // ---- hypothetical funding and liquidation ----

  function Debit(side: Side, rate: real, fixing: Price): real {
    Min(-(side as real) * rate / fixing, 0.0)
  }

  function DebitUnits(units: seq<Unit>, ts: int, debit: real): seq<Unit> {
    seq(|units|, i requires 0 <= i < |units| =>
      if units[i].entryTs < ts && units[i].collateral.Some?
      then units[i].(collateral := Some(units[i].collateral.value + debit))
      else units[i])
  }

  predicate ModelsHistory(m: Machine) {
    m.campaign.Some? && m.campaign.value.origin == Historical && m.modelComplete
  }

  function ApplyFunding(m: Machine, ts: int, rate: real, fixing: real): Step {
    if fixing <= 0.0 then Step(m, Err("invalid funding fixing"))
    else if m.lastFundingTs.Some? && ts <= m.lastFundingTs.value then Step(m, Ok([]))
    else
      var m1 :=
        if !ModelsHistory(m) then m
        else
          var c := m.campaign.value;
          m.(campaign := Some(c.(units := DebitUnits(c.units, ts, Debit(c.side, rate, fixing)))));
      Step(m1.(lastFundingTs := Some(ts)), Ok([]))
  }

  function Denominator(side: Side, margin: real, entryPrice: Price): real {
    if side == 1 then margin + 1.0 / entryPrice else 1.0 / entryPrice - margin
  }

  /** Liquidation level of a unit; an exhausted unit goes at the bar's open. */
  function Level(side: Side, u: Unit, opening: real): real
    requires u.collateral.Some?
  {
    var d := Denominator(side, u.collateral.value, u.entryPrice);
    if d > 0.0 then (1.0 + side as real * 0.001) / d else opening
  }

  predicate Reached(side: Side, price: real, level: real) {
    if side == 1 then price <= level else price >= level
  }

  function Adverse(side: Side, low: real, high: real): real { if side == 1 then low else high }

  predicate Hit(side: Side, u: Unit, opening: real, adverse: real)
    requires u.collateral.Some?
  {
    || Denominator(side, u.collateral.value, u.entryPrice) <= 0.0
    || Reached(side, adverse, Level(side, u, opening))
  }

  function Trigger(side: Side, opening: real, level: real): real {
    if side == 1 then Min(opening, level) else Max(opening, level)
  }

  datatype HitAt = HitAt(k: int, price: real)

  predicate Evidenced(units: seq<Unit>) {
    forall u :: u in units ==> u.collateral.Some?
  }

  function HitsOf(side: Side, units: seq<Unit>, opening: real, adverse: real): seq<HitAt>
    requires Evidenced(units)
  {
    if units == [] then []
    else
      var u := units[0];
      var rest := HitsOf(side, units[1..], opening, adverse);
      if Hit(side, u, opening, adverse)
      then [HitAt(u.k, Trigger(side, opening, Level(side, u, opening)))] + rest
      else rest
  }

  /** The sort key (-side * price, k). */
  predicate Before(side: Side, a: HitAt, b: HitAt) {
    || (if side == 1 then a.price > b.price else a.price < b.price)
    || (a.price == b.price && a.k <= b.k)
  }

  function Insert(side: Side, h: HitAt, sorted: seq<HitAt>): seq<HitAt> {
    if sorted == [] || Before(side, h, sorted[0]) then [h] + sorted
    else [sorted[0]] + Insert(side, h, sorted[1..])
  }

  function Sorted(side: Side, hits: seq<HitAt>): seq<HitAt> {
    if hits == [] then [] else Insert(side, hits[0], Sorted(side, hits[1..]))
  }

  /** Close every unit but the parent at the parent's price, in slot order. */
  function CloseChildren(m: Machine, units: seq<Unit>, ts: int, price: real, opening: real): Step
    requires Evidenced(units)
    decreases |units|
  {
    if units == [] then Step(m, Ok([]))
    else if units[0].k == 0 then CloseChildren(m, units[1..], ts, price, opening)
    else if m.campaign.None? then Step(m, Err("no active child campaign unit"))
    else
      var side := m.campaign.value.side;
      var crossed := Reached(side, price, Level(side, units[0], opening));
      var s := ChildClosed(m, units[0].k, ts, price, if crossed then ChildLiquidation else ParentForcedExit);
      Chain(s, if s.out.Err? then s else CloseChildren(s.m, units[1..], ts, price, opening))
  }

  function Chain(first: Step, second: Step): Step {
    if first.out.Err? then first
    else if second.out.Err? then second
    else Step(second.m, Ok(first.out.value + second.out.value))
  }

  function Liquidate(m: Machine, ts: int, price: real, opening: real): Step
    requires m.campaign.Some? && Evidenced(m.campaign.value.units)
  {
    var children := CloseChildren(m, m.campaign.value.units, ts, price, opening);
    if children.out.Err? then children
    else
      var parent := ParentLiquidated(children.m, ts, price, true);
      if parent.out.Err? then parent
      else
        Chain(children, Step(parent.m, Ok([parent.out.value[0].(kind := HistoricalExit, owned := false)])))
  }

  /** Process sorted hits; the parent's liquidation ends the campaign. */
  function Cascade(m: Machine, hits: seq<HitAt>, ts: int, opening: real): Step
    requires m.campaign.Some? && Evidenced(m.campaign.value.units)
    decreases |hits|
  {
    if hits == [] then Step(m, Ok([]))
    else if hits[0].k == 0 then Liquidate(m, ts, hits[0].price, opening)
    else
      var s := ChildClosed(m, hits[0].k, ts, hits[0].price, ChildLiquidation);
      if s.out.Err? then s
      else
        RemoveKeeps(m.campaign.value.units, hits[0].k);
        Chain(s, Cascade(s.m, hits[1..], ts, opening))
  }

  lemma RemoveKeeps(units: seq<Unit>, k: int)
    ensures forall u :: u in RemoveK(units, k) ==> u in units
  {
  }

  predicate Observes(m: Machine, ts: int) {
    && ModelsHistory(m)
    && ts >= m.campaign.value.entryTs
    && (m.lastPriceTs.Some? ==> ts >= m.lastPriceTs.value)
    && m.fundingAvailable
  }

  function ObservePrices(m: Machine, ts: int, opening: real, low: real, high: real): Step {
    if !Observes(m, ts) then Step(m, Ok([]))
    else
      var m1 := m.(lastPriceTs := Some(ts));
      var c := m.campaign.value;
      if !Evidenced(c.units) then Step(m1, Err("historical collateral evidence missing"))
      else
        Cascade(m1, Sorted(c.side, HitsOf(c.side, c.units, opening, Adverse(c.side, low, high))), ts, opening)
  }

  // ---- daily close and open ----

  function AgedCampaign(c: Campaign, candle: DailyCandle): Campaign
    requires c.units != []
  {
    var entry := c.units[0].entryPrice;
    var favorable := if c.side == 1 then candle.high else candle.low;
    var excursion := c.side as real * (favorable - entry) / entry;
    c.(heldDays := c.heldDays + 1, peakFavorable := Max(c.peakFavorable, excursion))
  }

  function NextExit(pending: Option<ExitReason>, aged: Campaign, candle: DailyCandle): Option<ExitReason>
    requires aged.units != []
  {
    var entry := aged.units[0].entryPrice;
    var progress := aged.side as real * (candle.close - entry) / entry;
    if aged.side as real * (candle.close - aged.boundary) <= 0.0 then Some(RangeClose)
    else if aged.heldDays >= RECOVERY_START_DAY && aged.peakFavorable > 0.0
            && progress >= RECOVERY_FRACTION * aged.peakFavorable then Some(Recover)
    else if aged.heldDays >= MAX_HOLD_DAYS then Some(MaximumHold)
    else pending
  }

  function Age(m: Machine, candle: DailyCandle): Step {
    if m.campaign.None? then Step(m, Ok([]))
    else if m.campaign.value.units == [] then
      Step(m.(campaign := Some(m.campaign.value.(heldDays := m.campaign.value.heldDays + 1))),
           Err("list index out of range"))
    else
      var aged := AgedCampaign(m.campaign.value, candle);
      Step(m.(campaign := Some(aged), pendingExit := NextExit(m.pendingExit, aged, candle)), Ok([]))
  }

  function SignalOf(m: Machine, candle: DailyCandle, candidate: Option<Candidate>): seq<Decision> {
    if candidate.None? then []
    else [Decision(
      candle.ts + DAY, Signal, if candidate.value.structurePass then StructurePass else StructureReject,
      if m.campaign.Some? then Some(m.campaign.value.id) else None, None, Some(candidate.value.side), None,
      candidate, false)]
  }

  function ObserveClose(m: Machine, candle: DailyCandle): Step {
    var candidate := CandidateOf(m.ind, candle);
    var prices := ObservePrices(m, candle.ts, candle.open, candle.low, candle.high);
    if prices.out.Err? then prices
    else
      var aged := Age(prices.m, candle);
      if aged.out.Err? then aged
      else
        var m1 := aged.m.(
          pendingCandidate := candidate, ind := AppendIndicators(aged.m.ind, candle),
          lastBarTs := Some(candle.ts));
        Chain(prices, Step(m1, Ok(SignalOf(m1, candle, candidate))))
  }

  predicate DirectionAllowed(mode: DirectionMode, side: int) {
    mode == Both || (mode == LongOnly && side == 1) || (mode == ShortOnly && side == -1)
  }

  function Refusal(ts: int, reason: Reason, candidate: Candidate): Decision {
    Decision(ts, Reject, reason, None, None, Some(candidate.side), None, Some(candidate), false)
  }

  function OpenParent(
    m: Machine, candidate: Candidate, recoveredSide: Option<Side>, ts: int, open: Price,
    activation: int, mode: DirectionMode
  ): Step {
    if !candidate.structurePass then Step(m, Ok([Refusal(ts, ParentStructure, candidate)]))
    else if recoveredSide == Some(candidate.side) then Step(m, Ok([Refusal(ts, RecoverySameOpen, candidate)]))
    else if ts >= activation && !DirectionAllowed(mode, candidate.side) then
      Step(m, Ok([Refusal(ts, ParentDirectionMode, candidate)]))
    else
      var origin := if ts >= activation then Paper else Historical;
      var price := Slip(open, candidate.side);
      var id := CampaignId(ts, candidate.side);
      Step(
        m.(campaign := Some(Campaign(
          id, candidate.side, candidate.boundary, ts, 0, 0.0, origin, 1, [NewUnit(0, ts, price, origin)]))),
        Ok([Decision(
          ts, if origin == Paper then PaperParent else HistoricalParent, StructureParent, Some(id), Some(0),
          Some(candidate.side), Some(price), Some(candidate), false)]))
  }

  function OpenAddon(m: Machine, candidate: Candidate, ts: int, open: Price, mode: DirectionMode): Step
    requires m.campaign.Some?
  {
    var c := m.campaign.value;
    if candidate.side != c.side then Step(m, Ok([Refusal(ts, OccupiedOpposite, candidate)]))
    else if c.origin != Historical && !DirectionAllowed(mode, candidate.side) then
      Step(m, Ok([Refusal(ts, AddonDirectionMode, candidate)]))
    else if c.lifetimeUnits >= MAX_UNITS then Step(m, Ok([Refusal(ts, AddonCap, candidate)]))
    else if c.units == [] then Step(m, Err("list index out of range"))
    else
      var price := Slip(open, c.side);
      var displacement := c.side as real * (price / c.units[0].entryPrice - 1.0);
      if c.side as real * (open - c.boundary) <= 0.0 then
        Step(m, Ok([Refusal(ts, AddonParentBoundary, candidate)]))
      else if displacement > MAX_ADDON_DISPLACEMENT + TOLERANCE then
        Step(m, Ok([Refusal(ts, AddonDistance, candidate)]))
      else
        var origin := if c.origin == Historical then Historical else Paper;
        var k := c.lifetimeUnits;
        Step(
          m.(campaign := Some(c.(
            lifetimeUnits := k + 1, units := c.units + [NewUnit(k, ts, price, origin)]))),
          Ok([Decision(
            ts, if origin == Paper then PaperAddon else HistoricalAddon, RawSameSideAddon, Some(c.id), Some(k),
            Some(c.side), Some(price), Some(candidate), false)]))
  }

  function ExitAtOpen(m: Machine, ts: int, open: Price): Step {
    if m.campaign.None? || m.pendingExit.None? then Step(m, Ok([]))
    else
      var c := m.campaign.value;
      Step(
        m.(campaign := None, pendingExit := None),
        Ok([Decision(
          ts, if c.origin == Historical then HistoricalExit else CampaignExit, ExitBy(m.pendingExit.value),
          Some(c.id), None, Some(c.side), Some(open), None, c.origin != Historical)]))
  }

  function RecoveredSide(m: Machine): Option<Side> {
    if m.campaign.Some? && m.pendingExit == Some(Recover) then Some(m.campaign.value.side) else None
  }

  function ApplyOpen(m: Machine, ts: int, open: Price, activation: int, mode: DirectionMode): Step {
    var exit := ExitAtOpen(m, ts, open);
    var m1 := exit.m.(pendingCandidate := None);
    if m.pendingCandidate.None? then Step(m1, exit.out)
    else
      var candidate := m.pendingCandidate.value;
      if m1.campaign.None? then
        Chain(exit, OpenParent(m1, candidate, RecoveredSide(m), ts, open, activation, mode))
      else Chain(exit, OpenAddon(m1, candidate, ts, open, mode))
  }

  function Advance(m: Machine, candle: DailyCandle, activation: int, mode: DirectionMode): Step {
    if !IsNext(m, candle.ts) then Step(m, Err("daily candles must be unique and contiguous"))
    else
      var atOpen := ApplyOpen(m, candle.ts, candle.open, activation, mode);
      if atOpen.out.Err? then atOpen else Chain(atOpen, ObserveClose(atOpen.m, candle))
  }

  function CompleteAndApplyNextOpen(
    m: Machine, candle: DailyCandle, nextTs: int, nextPrice: Price, activation: int, mode: DirectionMode
  ): Step {
    if !IsNext(m, candle.ts) then Step(m, Err("daily candles must be unique and contiguous"))
    else if nextTs != candle.ts + DAY then
      Step(m, Err("next daily open must immediately follow the completed candle"))
    else
      var closed := ObserveClose(m, candle);
      if closed.out.Err? then closed
      else Chain(closed, ApplyOpen(closed.m, nextTs, nextPrice, activation, mode))
  }

  /** Load indicators candle by candle; a gap raises and leaves what was loaded. */
  function WarmupFrom(m: Machine, candles: seq<DailyCandle>): Step
    decreases |candles|
  {
    if candles == [] then Step(m, Ok([]))
    else if !IsNext(m, candles[0].ts) then Step(m, Err("daily candles must be unique and contiguous"))
    else
      WarmupFrom(
        m.(pendingCandidate := CandidateOf(m.ind, candles[0]),
           ind := AppendIndicators(m.ind, candles[0]), lastBarTs := Some(candles[0].ts)),
        candles[1..])
  }

  function Warmup(m: Machine, candles: seq<DailyCandle>): Step {
    if m.lastBarTs.Some? || m.ind.candles != [] then Step(m, Err("warmup requires a blank machine"))
    else WarmupFrom(m, candles)
  }

  // ---- persistence ----

  datatype CampaignRecord = CampaignRecord(
    id: CampaignId, side: int, boundary: real, entryTs: int, heldDays: int, peakFavorable: real,
    origin: Origin, lifetimeUnits: int, units: seq<Unit>)

  /** The saved JSON object: candles and campaign are unchecked until restored. */
  datatype Snapshot = Snapshot(
    version: int, modelComplete: bool, fundingAvailable: bool, lastPriceTs: Option<int>,
    lastFundingTs: Option<int>, closes: seq<real>, candles: seq<Candle>, trueRanges: seq<real>,
    ema20: Option<real>, previousClose: Option<real>, lastBarTs: Option<int>,
    digest: seq<DailyCandle>, count: nat, campaign: Option<CampaignRecord>,
    pendingExit: Option<ExitReason>, pendingCandidate: Option<Candidate>)

  function RecordOf(c: Campaign): CampaignRecord {
    CampaignRecord(c.id, c.side, c.boundary, c.entryTs, c.heldDays, c.peakFavorable, c.origin, c.lifetimeUnits, c.units)
  }

  function PersistentState(m: Machine): Snapshot {
    Snapshot(
      VERSION, m.modelComplete, m.fundingAvailable, m.lastPriceTs, m.lastFundingTs, m.ind.closes,
      m.ind.candles, m.ind.trueRanges, m.ind.ema20, m.ind.previousClose, m.lastBarTs, m.ind.digest, m.ind.count,
      if m.campaign.Some? then Some(RecordOf(m.campaign.value)) else None,
      m.pendingExit, m.pendingCandidate)
  }

  predicate IncreasingK(units: seq<Unit>) {
    forall i, j :: 0 <= i < j < |units| ==> units[i].k < units[j].k
  }

  predicate ValidUnits(lifetime: int, units: seq<Unit>) {
    && 1 <= lifetime <= MAX_UNITS
    && 1 <= |units| <= lifetime
    && units[0].k == 0
    && IncreasingK(units)
    && units[|units| - 1].k < lifetime
  }

  predicate ValidCampaign(c: Campaign) { ValidUnits(c.lifetimeUnits, c.units) }

  /** What restoring a snapshot checks of the rebuilt machine. */
  predicate Valid(m: Machine) {
    && |m.ind.closes| == |m.ind.candles| <= WINDOW
    && m.ind.count >= |m.ind.candles|
    && (m.ind.candles != [] ==> m.lastBarTs == Some(m.ind.candles[|m.ind.candles| - 1].ts))
    && (m.campaign.Some? ==> ValidCampaign(m.campaign.value))
  }

  function Restore(s: Snapshot): Result<Machine> {
    if s.version != VERSION then Err("unsupported close-range state version")
    else if exists c :: c in s.candles && !ValidCandle(c) then Err("invalid OHLC candle")
    else if s.campaign.Some? && s.campaign.value.side != 1 && s.campaign.value.side != -1 then
      Err("corrupt campaign")
    else
      var candles: seq<DailyCandle> := LastN(s.candles, WINDOW);
      var campaign := match s.campaign
        case None => None
        case Some(r) => Some(Campaign(
          r.id, r.side, r.boundary, r.entryTs, r.heldDays, r.peakFavorable, r.origin, r.lifetimeUnits, r.units));
      var m := Machine(
        Indicators(
          LastN(s.closes, WINDOW), candles, LastN(s.trueRanges, TR_WINDOW), s.ema20, s.previousClose,
          s.digest, s.count),
        s.lastBarTs, campaign, s.pendingExit, s.pendingCandidate, s.modelComplete, s.lastFundingTs,
        s.lastPriceTs, s.fundingAvailable);
      if Valid(m) then Ok(m) else Err("corrupt snapshot")
  }
}
