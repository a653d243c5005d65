/**
 Bulk reconstruction of a hypothetical campaign from verified units and funding
 settlements, and why it is as good as replaying every event in order.
 */
module Historical {
  import opened Common
  import opened CloseRange
  import M = CloseRangeMachine

  const FUNDING_PERIOD: int := 8 * HOUR

  datatype Settlement = Settlement(ts: int, rate: real, fixing: real)

  datatype ReferenceUnit = ReferenceUnit(k: int, entryTs: int, entryPrice: Price)

  datatype Reference = Reference(id: CampaignId, boundary: real, entryTs: int, units: seq<ReferenceUnit>)

  predicate IsClose(a: real, b: real) {
    Abs(a - b) <= 0.000000001 * Max(Abs(a), Abs(b))
  }

  // ---- the settlements of the campaign, one per timestamp, in order ----

  function InsertRow(rows: seq<Settlement>, s: Settlement): seq<Settlement> {
    if rows == [] || s.ts < rows[0].ts then [s] + rows
    else if s.ts == rows[0].ts then [s] + rows[1..]
    else [rows[0]] + InsertRow(rows[1..], s)
  }

  /** A later settlement with the same timestamp replaces an earlier one. */
  function RowsOf(settlements: seq<Settlement>, after: int, before: int): seq<Settlement> {
    if settlements == [] then []
    else
      var n := |settlements| - 1;
      var rows := RowsOf(settlements[..n], after, before);
      if after < settlements[n].ts < before then InsertRow(rows, settlements[n]) else rows
  }

  /** One positive fixing every eight hours from the entry to the end, none missing. */
  predicate EveryEightHours(rows: seq<Settlement>, start: int, end: int) {
    && (forall i :: 0 <= i < |rows| ==> rows[i].ts == start + FUNDING_PERIOD * (i + 1) && rows[i].fixing > 0.0)
    && start + FUNDING_PERIOD * (|rows| + 1) == end
  }

  function Evidence(candles: seq<DailyCandle>, from: int, before: int): seq<DailyCandle> {
    if candles == [] then []
    else
      var rest := Evidence(candles[1..], from, before);
      if from <= candles[0].ts < before then [candles[0]] + rest else rest
  }

  // ---- one unit ----

  function RowDebit(side: Side, s: Settlement): real {
    if s.fixing > 0.0 then Debit(side, s.rate, s.fixing) else 0.0
  }

  function DebitSum(side: Side, rows: seq<Settlement>, entryTs: int): real {
    if rows == [] then 0.0
    else
      var n := |rows| - 1;
      DebitSum(side, rows[..n], entryTs) + if entryTs < rows[n].ts then RowDebit(side, rows[n]) else 0.0
  }

  function UnitAfter(side: Side, u: ReferenceUnit, rows: seq<Settlement>): Unit {
    Unit(u.k, u.entryTs, u.entryPrice, Historical,
         Some(InitialCollateral(u.entryPrice) + DebitSum(side, rows, u.entryTs)))
  }

  function UnitsAfter(side: Side, us: seq<ReferenceUnit>, rows: seq<Settlement>): seq<Unit> {
    seq(|us|, i requires 0 <= i < |us| => UnitAfter(side, us[i], rows))
  }

  /** The collateral left at the end keeps every relevant candle away from liquidation. */
  predicate Survives(side: Side, u: ReferenceUnit, rows: seq<Settlement>, evidence: seq<DailyCandle>) {
    var unit := UnitAfter(side, u, rows);
    && Denominator(side, unit.collateral.value, unit.entryPrice) > 0.0
    && forall c :: c in evidence && c.ts >= u.entryTs ==>
         !Reached(side, Adverse(side, c.low, c.high), Level(side, unit, c.open))
  }

  // ---- the reconstruction ----

  predicate Matches(c: Campaign, r: Reference) {
    c.id == r.id && IsClose(c.boundary, r.boundary) && c.entryTs == r.entryTs
  }

  predicate Untruncated(evidence: seq<DailyCandle>, start: int, end: int) {
    evidence != [] && evidence[0].ts == start && evidence[|evidence| - 1].ts + DAY == end
  }

  predicate Accepts(m: Machine, r: Reference, settlements: seq<Settlement>)
    requires m.campaign.Some?
  {
    var c := m.campaign.value;
    && Matches(c, r)
    && c.lifetimeUnits == |r.units|
    && m.lastBarTs.Some?
    && var end := m.lastBarTs.value + DAY;
    var rows := RowsOf(settlements, c.entryTs, end);
    var evidence := Evidence(m.ind.candles, c.entryTs, end);
    && EveryEightHours(rows, c.entryTs, end)
    && Untruncated(evidence, c.entryTs, end)
    && (forall i :: 0 <= i < |r.units| ==> Survives(c.side, r.units[i], rows, evidence))
    && (forall i :: 0 <= i < |r.units| ==> r.units[i].k == i)
  }

  function Rebuilt(m: Machine, r: Reference, settlements: seq<Settlement>): Machine
    requires m.campaign.Some? && m.lastBarTs.Some?
    requires RowsOf(settlements, m.campaign.value.entryTs, m.lastBarTs.value + DAY) != []
  {
    var c := m.campaign.value;
    var end := m.lastBarTs.value + DAY;
    var rows := RowsOf(settlements, c.entryTs, end);
    m.(campaign := Some(c.(units := UnitsAfter(c.side, r.units, rows))),
       lastFundingTs := Some(rows[|rows| - 1].ts), lastPriceTs := Some(end),
       modelComplete := true, fundingAvailable := true)
  }

  lemma AcceptedHasRows(m: Machine, r: Reference, settlements: seq<Settlement>)
    requires m.campaign.Some? && Accepts(m, r, settlements)
    ensures RowsOf(settlements, m.campaign.value.entryTs, m.lastBarTs.value + DAY) != []
  {
    var c := m.campaign.value;
    var end := m.lastBarTs.value + DAY;
    var evidence := Evidence(m.ind.candles, c.entryTs, end);
    assert evidence[0].ts % DAY == 0 && evidence[|evidence| - 1].ts % DAY == 0;
    InWindow(m.ind.candles, c.entryTs, end);
    assert evidence[|evidence| - 1] in evidence;
  }

  lemma {:induction false} InWindow(candles: seq<DailyCandle>, from: int, before: int)
    ensures forall c :: c in Evidence(candles, from, before) ==> from <= c.ts < before
  {
    if candles != [] {
      InWindow(candles[1..], from, before);
    }
  }

  /** The program's reconstruction: refuse and leave the machine alone, or replace its units. */
  method HydrateHistorical(machine: M.CloseRangeMachine, r: Reference, settlements: seq<Settlement>)
    returns (ok: bool)
    modifies machine
    ensures old(machine.campaign).None? || old(machine.campaign).value.origin != Historical ==>
      ok && machine.State() == old(machine.State())
    ensures old(machine.campaign).Some? && old(machine.campaign).value.origin == Historical ==>
      && (ok <==> Accepts(old(machine.State()), r, settlements))
      && (!ok ==> machine.State() == old(machine.State()))
      && (ok ==>
            && RowsOf(settlements, old(machine.campaign).value.entryTs, old(machine.lastBarTs).value + DAY) != []
            && machine.State() == Rebuilt(old(machine.State()), r, settlements))
  {
    hide Accepts, UnitsAfter, RowsOf;
    if machine.campaign.None? || machine.campaign.value.origin != Historical {
      return true;
    }
    ghost var before := machine.State();
    var c := machine.campaign.value;
    if machine.lastBarTs.None? {
      NeedsSourceEnd(machine.State(), r, settlements);
      return false;
    }
    var end := machine.lastBarTs.value + DAY;
    var units, rows, accepted := VerifyReference(machine.State(), r, settlements, end);
    if !accepted {
      return false;
    }
    AcceptedHasRows(machine.State(), r, settlements);
    machine.campaign := Some(c.(units := units));
    machine.lastHistoricalFundingTs := Some(rows[|rows| - 1].ts);
    machine.lastHistoricalPriceTs := Some(end);
    machine.historicalModelComplete := true;
    machine.historicalFundingAvailable := true;
    assert machine.State() == Rebuilt(before, r, settlements);
    return true;
  }

  lemma NeedsSourceEnd(m: Machine, r: Reference, settlements: seq<Settlement>)
    requires m.campaign.Some? && m.lastBarTs.None?
    ensures !Accepts(m, r, settlements)
  {
  }

  /** Every check, in the source's order; nothing is written before all of them pass. */
  method VerifyReference(m: Machine, r: Reference, settlements: seq<Settlement>, end: int)
    returns (units: seq<Unit>, rows: seq<Settlement>, accepted: bool)
    requires m.campaign.Some? && m.lastBarTs == Some(end - DAY)
    ensures accepted <==> Accepts(m, r, settlements)
    ensures accepted ==> rows == RowsOf(settlements, m.campaign.value.entryTs, end)
    ensures accepted ==> units == UnitsAfter(m.campaign.value.side, r.units, rows)
  {
    units, rows := [], [];
    var c := m.campaign.value;
    if !Matches(c, r) || c.lifetimeUnits != |r.units| {
      return units, rows, false;
    }
    rows := CollectRows(settlements, c.entryTs, end);
    var complete := CheckRows(rows, c.entryTs, end);
    if !complete {
      return units, rows, false;
    }
    var evidence := Evidence(m.ind.candles, c.entryTs, end);
    if !Untruncated(evidence, c.entryTs, end) {
      return units, rows, false;
    }
    var survived;
    units, survived := RebuildUnits(c.side, r.units, rows, evidence);
    if !survived {
      return units, rows, false;
    }
    if exists j :: 0 <= j < |units| && units[j].k != j {
      return units, rows, false;
    }
    assert forall j :: 0 <= j < |r.units| ==> r.units[j].k == units[j].k;
    return units, rows, true;
  }

  /** Collateral and liquidation level of each unit, stopping at the first that may not have survived. */
  method RebuildUnits(side: Side, raws: seq<ReferenceUnit>, rows: seq<Settlement>, evidence: seq<DailyCandle>)
    returns (units: seq<Unit>, survived: bool)
    ensures survived <==> forall j :: 0 <= j < |raws| ==> Survives(side, raws[j], rows, evidence)
    ensures survived ==> units == UnitsAfter(side, raws, rows)
  {
    units := [];
    var i: nat := 0;
    while i < |raws|
      invariant i <= |raws|
      invariant units == UnitsAfter(side, raws[..i], rows)
      invariant forall j :: 0 <= j < i ==> Survives(side, raws[j], rows, evidence)
    {
      var raw := raws[i];
      var margin := Margin(side, raw, rows);
      var unit := Unit(raw.k, raw.entryTs, raw.entryPrice, Historical, Some(margin));
      if Denominator(side, margin, raw.entryPrice) <= 0.0 {
        return units, false;
      }
      if exists e :: e in evidence && e.ts >= raw.entryTs
           && Reached(side, Adverse(side, e.low, e.high), Level(side, unit, e.open)) {
        return units, false;
      }
      assert raws[..i + 1] == raws[..i] + [raw];
      units := units + [unit];
      i := i + 1;
    }
    assert raws[..i] == raws;
    return units, true;
  }

  method CollectRows(settlements: seq<Settlement>, after: int, before: int) returns (rows: seq<Settlement>)
    ensures rows == RowsOf(settlements, after, before)
  {
    rows := [];
    var i := 0;
    while i < |settlements|
      invariant 0 <= i <= |settlements| && rows == RowsOf(settlements[..i], after, before)
    {
      assert settlements[..i + 1][..i] == settlements[..i];
      if after < settlements[i].ts < before {
        rows := InsertRow(rows, settlements[i]);
      }
      i := i + 1;
    }
    assert settlements[..i] == settlements;
  }

  method CheckRows(rows: seq<Settlement>, start: int, end: int) returns (complete: bool)
    ensures complete <==> EveryEightHours(rows, start, end)
  {
    var expected, i := start + FUNDING_PERIOD, 0;
    while i < |rows|
      invariant 0 <= i <= |rows| && expected == start + FUNDING_PERIOD * (i + 1)
      invariant forall j :: 0 <= j < i ==> rows[j].ts == start + FUNDING_PERIOD * (j + 1) && rows[j].fixing > 0.0
    {
      if rows[i].ts != expected || rows[i].fixing <= 0.0 {
        return false;
      }
      expected := expected + FUNDING_PERIOD;
      i := i + 1;
    }
    return expected == end;
  }

  method Margin(side: Side, u: ReferenceUnit, rows: seq<Settlement>) returns (margin: real)
    ensures Some(margin) == UnitAfter(side, u, rows).collateral
  {
    margin := InitialCollateral(u.entryPrice);
    var i := 0;
    while i < |rows|
      invariant 0 <= i <= |rows|
      invariant margin == InitialCollateral(u.entryPrice) + DebitSum(side, rows[..i], u.entryTs)
    {
      assert rows[..i + 1][..i] == rows[..i];
      if u.entryTs < rows[i].ts {
        margin := margin + RowDebit(side, rows[i]);
      }
      i := i + 1;
    }
    assert rows[..i] == rows;
  }

  // ---- chronological replay ----

  datatype Event = Join(unit: ReferenceUnit) | Settle(settlement: Settlement) | Observe(candle: DailyCandle)

  /** The machine's own step for each event; a unit joins as a historical fill. */
  function ReplayStep(m: Machine, e: Event): Step
    requires m.campaign.Some?
  {
    match e
    case Join(u) =>
      var c := m.campaign.value;
      Step(m.(campaign := Some(c.(units := c.units + [NewUnit(u.k, u.entryTs, u.entryPrice, Historical)]))), Ok([]))
    case Settle(s) => ApplyFunding(m, s.ts, s.rate, s.fixing)
    case Observe(c) => ObservePrices(m, c.ts, c.open, c.low, c.high)
  }

  function Replay(m: Machine, events: seq<Event>): Step
    decreases |events|
  {
    if events == [] then Step(m, Ok([]))
    else if m.campaign.None? then Step(m, Err("no active campaign"))
    else
      var s := ReplayStep(m, events[0]);
      if s.out.Err? then s else Chain(s, Replay(s.m, events[1..]))
  }

  function Joined(events: seq<Event>): seq<ReferenceUnit> {
    if events == [] then []
    else (if events[0].Join? then [events[0].unit] else []) + Joined(events[1..])
  }

  function Settled(events: seq<Event>): seq<Settlement> {
    if events == [] then []
    else (if events[0].Settle? then [events[0].settlement] else []) + Settled(events[1..])
  }

  function Observed(events: seq<Event>): seq<DailyCandle> {
    if events == [] then []
    else (if events[0].Observe? then [events[0].candle] else []) + Observed(events[1..])
  }

  /** No settlement later than a unit's entry comes before it joins, and no candle earlier than its entry after. */
  ghost predicate JoinsAtEntry(events: seq<Event>) {
    forall i, j :: 0 <= i < j < |events| ==>
      && (events[i].Join? && events[j].Observe? ==> events[j].candle.ts >= events[i].unit.entryTs)
      && (events[i].Settle? && events[j].Join? ==> events[i].settlement.ts <= events[j].unit.entryTs)
  }

  // ---- why collateral only has to be checked at the end ----

  lemma {:induction false} DebitsOnlyFall(side: Side, settled: seq<Settlement>, rest: seq<Settlement>, entryTs: int)
    ensures DebitSum(side, settled + rest, entryTs) <= DebitSum(side, settled, entryTs) <= 0.0
    decreases |settled| + |rest|
  {
    var all := settled + rest;
    if rest != [] {
      var n := |rest| - 1;
      assert all[..|all| - 1] == settled + rest[..n];
      DebitsOnlyFall(side, settled, rest[..n], entryTs);
    } else {
      assert all == settled;
      if settled != [] {
        DebitsOnlyFall(side, settled[..|settled| - 1], [], entryTs);
        assert settled[..|settled| - 1] + [] == settled[..|settled| - 1];
      }
    }
  }

  lemma Reciprocal(a: real, b: real, d: real)
    requires 0.0 < a <= b && d > 0.0
    ensures d / b <= d / a
  {
    assert d / a - d / b == d * (b - a) / (a * b);
    assert d * (b - a) / (a * b) >= 0.0;
  }

  /** More collateral keeps the level further away, for both sides. */
  lemma MoreMarginIsSafer(side: Side, now: Unit, end: Unit, opening: real, adverse: real)
    requires now.collateral.Some? && end.collateral.Some? && now.entryPrice == end.entryPrice
    requires end.collateral.value <= now.collateral.value <= InitialCollateral(now.entryPrice)
    requires Denominator(side, end.collateral.value, end.entryPrice) > 0.0
    requires !Reached(side, adverse, Level(side, end, opening))
    ensures !Hit(side, now, opening, adverse)
  {
    var p := now.entryPrice;
    var d, e := Denominator(side, now.collateral.value, p), Denominator(side, end.collateral.value, p);
    if side == 1 {
      Reciprocal(e, d, 1.001);
    } else {
      assert 1.0 / p > 0.0;
      assert InitialCollateral(p) == (1.0 / p) / 5.0;
      assert d > 0.0;
      Reciprocal(d, e, 0.999);
    }
  }

  lemma {:induction false} NoHitsNoChange(m: Machine, ts: int, opening: real, low: real, high: real)
    requires m.campaign.Some? && Evidenced(m.campaign.value.units)
    requires var c := m.campaign.value;
      forall u :: u in c.units ==> !Hit(c.side, u, opening, Adverse(c.side, low, high))
    ensures var s := ObservePrices(m, ts, opening, low, high);
      s.out == Ok([]) && s.m == m.(lastPriceTs := s.m.lastPriceTs)
  {
    var c := m.campaign.value;
    NoHits(c.side, c.units, opening, Adverse(c.side, low, high));
  }

  lemma {:induction false} NoHits(side: Side, units: seq<Unit>, opening: real, adverse: real)
    requires Evidenced(units) && forall u :: u in units ==> !Hit(side, u, opening, adverse)
    ensures HitsOf(side, units, opening, adverse) == []
  {
    if units != [] {
      NoHits(side, units[1..], opening, adverse);
    }
  }

  // ---- the three kinds of step ----

  /** Where a replay stands: some units have joined, some settlements are applied. */
  ghost predicate Stands(m: Machine, base: Campaign, joined: seq<ReferenceUnit>, settled: seq<Settlement>) {
    && m.campaign == Some(base.(units := UnitsAfter(base.side, joined, settled)))
    && base.origin == Historical
    && m.modelComplete
    && (settled != [] ==> m.lastFundingTs == Some(settled[|settled| - 1].ts))
    && (settled == [] && m.lastFundingTs.Some? ==> m.lastFundingTs.value <= base.entryTs)
  }

  lemma JoinStep(m: Machine, base: Campaign, joined: seq<ReferenceUnit>, settled: seq<Settlement>, u: ReferenceUnit)
    requires Stands(m, base, joined, settled)
    requires forall s :: s in settled ==> s.ts <= u.entryTs
    ensures var s := ReplayStep(m, Join(u)); s.out == Ok([]) && Stands(s.m, base, joined + [u], settled)
  {
    NothingDue(base.side, settled, u.entryTs);
    assert UnitsAfter(base.side, joined + [u], settled)
        == UnitsAfter(base.side, joined, settled) + [UnitAfter(base.side, u, settled)];
  }

  lemma {:induction false} NothingDue(side: Side, settled: seq<Settlement>, entryTs: int)
    requires forall s :: s in settled ==> s.ts <= entryTs
    ensures DebitSum(side, settled, entryTs) == 0.0
  {
    if settled != [] {
      assert settled[|settled| - 1] in settled;
      NothingDue(side, settled[..|settled| - 1], entryTs);
    }
  }

  lemma SettleStep(m: Machine, base: Campaign, joined: seq<ReferenceUnit>, settled: seq<Settlement>, s: Settlement)
    requires Stands(m, base, joined, settled)
    requires s.fixing > 0.0 && s.ts > base.entryTs && (settled != [] ==> s.ts > settled[|settled| - 1].ts)
    ensures var r := ReplayStep(m, Settle(s)); r.out == Ok([]) && Stands(r.m, base, joined, settled + [s])
  {
    var units := UnitsAfter(base.side, joined, settled);
    assert (settled + [s])[..|settled|] == settled;
    assert DebitUnits(units, s.ts, Debit(base.side, s.rate, s.fixing)) == UnitsAfter(base.side, joined, settled + [s]);
  }

  lemma ObserveStep(
    m: Machine, base: Campaign, joined: seq<ReferenceUnit>, settled: seq<Settlement>, rest: seq<Settlement>,
    evidence: seq<DailyCandle>, c: DailyCandle)
    requires Stands(m, base, joined, settled)
    requires c in evidence && forall u :: u in joined ==>
        u.entryTs <= c.ts && Survives(base.side, u, settled + rest, evidence)
    ensures var s := ReplayStep(m, Observe(c)); s.out == Ok([]) && Stands(s.m, base, joined, settled)
  {
    var units := UnitsAfter(base.side, joined, settled);
    forall now | now in units
      ensures now.collateral.Some? && !Hit(base.side, now, c.open, Adverse(base.side, c.low, c.high))
    {
      var i :| 0 <= i < |units| && units[i] == now;
      var u := joined[i];
      assert u in joined;
      DebitsOnlyFall(base.side, settled, rest, u.entryTs);
      MoreMarginIsSafer(
        base.side, now, UnitAfter(base.side, u, settled + rest), c.open, Adverse(base.side, c.low, c.high));
    }
    NoHitsNoChange(m, c.ts, c.open, c.low, c.high);
  }

  // ---- every interleaving ----

  /** Everything still to come is consistent with what has been replayed. */
  ghost predicate Ready(
    base: Campaign, joined: seq<ReferenceUnit>, settled: seq<Settlement>, events: seq<Event>,
    units: seq<ReferenceUnit>, rows: seq<Settlement>, evidence: seq<DailyCandle>)
  {
    && JoinsAtEntry(events)
    && joined + Joined(events) == units && settled + Settled(events) == rows
    && (forall c :: c in Observed(events) ==> c in evidence)
    && (forall u, e :: u in joined && e in events && e.Observe? ==> u.entryTs <= e.candle.ts)
    && (forall s, e :: s in settled && e in events && e.Join? ==> s.ts <= e.unit.entryTs)
  }

  /** What the first event adds to each of the three lists. */
  lemma Heads(events: seq<Event>)
    requires events != []
    ensures Joined(events) == (if events[0].Join? then [events[0].unit] else []) + Joined(events[1..])
    ensures Settled(events) == (if events[0].Settle? then [events[0].settlement] else []) + Settled(events[1..])
    ensures Observed(events) == (if events[0].Observe? then [events[0].candle] else []) + Observed(events[1..])
    ensures events[0].Join? ==> Settled(events) == Settled(events[1..]) && Observed(events) == Observed(events[1..])
    ensures events[0].Observe? ==> Settled(events) == Settled(events[1..]) && Joined(events) == Joined(events[1..])
    ensures events[0].Settle? ==> Joined(events) == Joined(events[1..]) && Observed(events) == Observed(events[1..])
    ensures events[0].Observe? ==> events[0].candle in Observed(events)
    ensures forall c :: c in Observed(events[1..]) ==> c in Observed(events)
  {
  }

  lemma ReadyJoin(
    base: Campaign, joined: seq<ReferenceUnit>, settled: seq<Settlement>, events: seq<Event>,
    units: seq<ReferenceUnit>, rows: seq<Settlement>, evidence: seq<DailyCandle>)
    requires Ready(base, joined, settled, events, units, rows, evidence) && events != [] && events[0].Join?
    ensures Ready(base, joined + [events[0].unit], settled, events[1..], units, rows, evidence)
    ensures forall s :: s in settled ==> s.ts <= events[0].unit.entryTs
  {
    hide JoinsAtEntry, Joined, Settled, Observed;
    TailJoins(events);
    assert events[0] in events && forall x :: x in events[1..] ==> x in events;
    Heads(events);
    assert (joined + [events[0].unit]) + Joined(events[1..]) == units;
  }

  lemma ReadySettle(
    base: Campaign, joined: seq<ReferenceUnit>, settled: seq<Settlement>, events: seq<Event>,
    units: seq<ReferenceUnit>, rows: seq<Settlement>, evidence: seq<DailyCandle>, end: int)
    requires Ready(base, joined, settled, events, units, rows, evidence) && events != [] && events[0].Settle?
    requires EveryEightHours(rows, base.entryTs, end)
    ensures Ready(base, joined, settled + [events[0].settlement], events[1..], units, rows, evidence)
    ensures var s := events[0].settlement;
      s.fixing > 0.0 && s.ts > base.entryTs && (settled != [] ==> s.ts > settled[|settled| - 1].ts)
  {
    hide EveryEightHours, JoinsAtEntry, Joined, Settled, Observed;
    TailJoins(events);
    assert forall x :: x in events[1..] ==> x in events;
    Heads(events);
    var s := events[0].settlement;
    var rest := Settled(events[1..]);
    assert (settled + [s]) + rest == settled + ([s] + rest);
    NextRow(settled, s, rest, rows, base.entryTs, end);
  }

  lemma NextRow(settled: seq<Settlement>, s: Settlement, rest: seq<Settlement>, rows: seq<Settlement>, start: int,
      end: int)
    requires (settled + [s]) + rest == rows && EveryEightHours(rows, start, end)
    ensures s.fixing > 0.0 && s.ts > start && (settled != [] ==> s.ts > settled[|settled| - 1].ts)
  {
    assert rows[|settled|] == s;
    if settled != [] {
      assert rows[|settled| - 1] == settled[|settled| - 1];
    }
  }

  lemma ReadyObserve(
    base: Campaign, joined: seq<ReferenceUnit>, settled: seq<Settlement>, events: seq<Event>,
    units: seq<ReferenceUnit>, rows: seq<Settlement>, evidence: seq<DailyCandle>)
    requires Ready(base, joined, settled, events, units, rows, evidence) && events != [] && events[0].Observe?
    ensures Ready(base, joined, settled, events[1..], units, rows, evidence)
    ensures events[0].candle in evidence && forall u :: u in joined ==> u in units && u.entryTs <= events[0].candle.ts
  {
    hide JoinsAtEntry, Joined, Settled, Observed;
    TailJoins(events);
    assert events[0] in events && forall x :: x in events[1..] ==> x in events;
    Heads(events);
  }

  lemma {:induction false} ReplaySafe(
    m: Machine, base: Campaign, joined: seq<ReferenceUnit>, settled: seq<Settlement>, events: seq<Event>,
    units: seq<ReferenceUnit>, rows: seq<Settlement>, evidence: seq<DailyCandle>, end: int)
    requires Stands(m, base, joined, settled) && Ready(base, joined, settled, events, units, rows, evidence)
    requires EveryEightHours(rows, base.entryTs, end)
    requires forall u :: u in units ==> Survives(base.side, u, rows, evidence)
    ensures var s := Replay(m, events);
      && s.out == Ok([])
      && s.m.campaign == Some(base.(units := UnitsAfter(base.side, units, rows)))
    decreases |events|
  {
    hide ReplayStep, Survives, UnitsAfter, EveryEightHours;
    if events == [] {
      assert joined == units && settled == rows;
    } else {
      var e := events[0];
      var s := ReplayStep(m, e);
      match e
      case Join(u) =>
        ReadyJoin(base, joined, settled, events, units, rows, evidence);
        JoinStep(m, base, joined, settled, u);
        ReplaySafe(s.m, base, joined + [u], settled, events[1..], units, rows, evidence, end);
      case Settle(x) =>
        ReadySettle(base, joined, settled, events, units, rows, evidence, end);
        SettleStep(m, base, joined, settled, x);
        ReplaySafe(s.m, base, joined, settled + [x], events[1..], units, rows, evidence, end);
      case Observe(c) =>
        ReadyObserve(base, joined, settled, events, units, rows, evidence);
        ObserveStep(m, base, joined, settled, Settled(events), evidence, c);
        ReplaySafe(s.m, base, joined, settled, events[1..], units, rows, evidence, end);
    }
  }

  lemma TailJoins(events: seq<Event>)
    requires events != [] && JoinsAtEntry(events)
    ensures JoinsAtEntry(events[1..])
    ensures events[0].Join? ==>
      forall e :: e in events[1..] && e.Observe? ==> events[0].unit.entryTs <= e.candle.ts
    ensures events[0].Settle? ==>
      forall e :: e in events[1..] && e.Join? ==> events[0].settlement.ts <= e.unit.entryTs
  {
    forall e | e in events[1..]
      ensures events[0].Join? && e.Observe? ==> events[0].unit.entryTs <= e.candle.ts
      ensures events[0].Settle? && e.Join? ==> events[0].settlement.ts <= e.unit.entryTs
    {
      var j :| 0 <= j < |events[1..]| && events[1..][j] == e;
      assert events[j + 1] == e;
    }
  }

  /**
   The main result. If the reconstruction accepts, then replaying the same units,
   settlements and candles through the machine, in any interleaving in which each
   unit joins at its entry, liquidates nothing, raises nothing and ends with the
   campaign that the reconstruction installed, collateral included.
   */
  lemma BulkReconstructionIsSound(m: Machine, r: Reference, settlements: seq<Settlement>, start: Machine,
      events: seq<Event>)
    requires m.campaign.Some? && m.campaign.value.origin == Historical && Accepts(m, r, settlements)
    requires start.campaign == Some(m.campaign.value.(units := [])) && start.modelComplete
    requires start.lastFundingTs.Some? ==> start.lastFundingTs.value <= m.campaign.value.entryTs
    requires JoinsAtEntry(events) && Joined(events) == r.units
    requires var c, end := m.campaign.value, m.lastBarTs.value + DAY;
      && Settled(events) == RowsOf(settlements, c.entryTs, end)
      && Observed(events) == Evidence(m.ind.candles, c.entryTs, end)
    ensures RowsOf(settlements, m.campaign.value.entryTs, m.lastBarTs.value + DAY) != []
    ensures Replay(start, events).out == Ok([])
    ensures Replay(start, events).m.campaign == Rebuilt(m, r, settlements).campaign
  {
    var c := m.campaign.value;
    var end := m.lastBarTs.value + DAY;
    var rows := RowsOf(settlements, c.entryTs, end);
    AcceptedHasRows(m, r, settlements);
    assert UnitsAfter(c.side, [], []) == [];
    assert [] + Joined(events) == r.units && [] + Settled(events) == rows;
    ReplaySafe(start, c, [], [], events, r.units, rows, Evidence(m.ind.candles, c.entryTs, end), end);
  }
}
