/**
 Funding settlements that arrive late: the bars wait in a buffer and are replayed
 with the settlements in between, and the model ends where on-time processing would.
 */
module LateFunding {
  import opened Common
  import opened CloseRange
  import opened CloseRangeProperties
  import opened Adapter
  import opened AdapterBars
  import CloseRangeLive

  const EIGHT_HOURS: int := 28800

  datatype Fixing = Fixing(rate: real, price: Price)

  datatype Row = Row(ts: int, rate: real, fixing: real)

  function FundingBoundary(ts: int): int { ts - ts % EIGHT_HOURS }

  /** The published settlements after one stamp, up to and including another. */
  function Published(from: int, until: int, f: int -> Fixing): seq<Row>
    decreases until - from
  {
    if from + EIGHT_HOURS > until then []
    else
      var ts := from + EIGHT_HOURS;
      [Row(ts, f(ts).rate, f(ts).price)] + Published(ts, until, f)
  }

  function ApplyRows(m: Machine, rows: seq<Row>): Machine
    decreases |rows|
  {
    if rows == [] then m else ApplyRows(ApplyFunding(m, rows[0].ts, rows[0].rate, rows[0].fixing).m, rows[1..])
  }

  /** Where the campaign's funding has got to. */
  function Last(m: Machine): int
    requires m.campaign.Some?
  {
    if m.lastFundingTs.Some? then m.lastFundingTs.value else m.campaign.value.entryTs
  }

  // ---- reading settlements ----

  predicate OnGrid(rows: seq<Row>, start: int) {
    forall i :: 0 <= i < |rows| ==> rows[i].ts == start + (i + 1) * EIGHT_HOURS && rows[i].fixing > 0.0
  }

  function After(rows: seq<Row>, start: int): seq<Row> {
    if rows == [] then [] else (if rows[0].ts > start then [rows[0]] else []) + After(rows[1..], start)
  }

  lemma {:induction false} AfterAppend(rows: seq<Row>, r: Row, start: int)
    ensures After(rows + [r], start) == After(rows, start) + if r.ts > start then [r] else []
  {
    if rows == [] {
      assert After([r], start) == (if r.ts > start then [r] else []) + After([], start);
    } else {
      assert (rows + [r])[1..] == rows[1..] + [r];
      AfterAppend(rows[1..], r, start);
    }
  }

  lemma {:induction false} AfterPrefix(rows: seq<Row>, more: seq<Row>, start: int)
    ensures After(rows + more, start) == After(rows, start) + After(more, start)
  {
    if rows == [] {
      assert rows + more == more;
    } else {
      assert (rows + more)[1..] == rows[1..] + more;
      AfterPrefix(rows[1..], more, start);
    }
  }

  /** Accept sorted rows exactly when they leave no gap between the start and the boundary. */
  method VerifiedHistoricalFunding(rows: seq<Row>, start: int, boundary: int) returns (r: Result<seq<Row>>)
    ensures r.Ok? <==> OnGrid(After(rows, start), start) && start + (|After(rows, start)| + 1) * EIGHT_HOURS > boundary
    ensures r.Ok? ==> r.value == After(rows, start)
  {
    var expected, verified: seq<Row>, i := start + EIGHT_HOURS, [], 0;
    while i < |rows|
      invariant 0 <= i <= |rows| && verified == After(rows[..i], start) && OnGrid(verified, start)
      invariant expected == start + (|verified| + 1) * EIGHT_HOURS
    {
      var row := rows[i];
      assert rows[..i + 1] == rows[..i] + [row];
      AfterAppend(rows[..i], row, start);
      AfterPrefix(rows[..i + 1], rows[i + 1..], start);
      assert rows == rows[..i + 1] + rows[i + 1..];
      if row.ts > start {
        var n := |verified|;
        assert After(rows, start)[n] == row;
        if row.ts != expected {
          return Err("historical funding gap");
        }
        if row.fixing <= 0.0 {
          return Err("historical funding invalid");
        }
        verified := verified + [row];
        expected := expected + EIGHT_HOURS;
      }
      i := i + 1;
    }
    assert rows[..i] == rows;
    if expected <= boundary {
      return Err("historical funding source incomplete");
    }
    return Ok(verified);
  }

  /** From an honest source that answers the range asked for, what is accepted is what was published. */
  lemma {:induction false} VerifiedIsPublished(rows: seq<Row>, start: int, boundary: int, f: int -> Fixing)
    requires OnGrid(rows, start) && start + (|rows| + 1) * EIGHT_HOURS > boundary
    requires forall r :: r in rows ==> r == Row(r.ts, f(r.ts).rate, f(r.ts).price) && r.ts <= boundary
    ensures rows == Published(start, boundary, f)
    decreases |rows|
  {
    if rows != [] {
      assert rows[0] in rows;
      var next := start + EIGHT_HOURS;
      forall i | 0 <= i < |rows[1..]| ensures rows[1..][i].ts == next + (i + 1) * EIGHT_HOURS
        && rows[1..][i].fixing > 0.0 {
        assert rows[1..][i] == rows[i + 1];
      }
      VerifiedIsPublished(rows[1..], next, boundary, f);
    }
  }

  // ---- on time ----

  /** Entries are disabled and nothing is owned; a settlement that is due is applied before its bar. */
  function OnTime(a: Adapter, b: Bar, mode: DirectionMode, f: int -> Fixing): Acted {
    var m := a.machine;
    var funded :=
      if ModelsHistory(m) && m.fundingAvailable && Last(m) < FundingBoundary(BarTs(b))
      then ApplyRows(m, Published(Last(m), FundingBoundary(BarTs(b)), f)) else m;
    OnBar(a.(machine := funded), b, false, map[], Config(false, mode))
  }

  function OnTimeAll(a: Adapter, bars: seq<Bar>, mode: DirectionMode, f: int -> Fixing): Acted
    decreases |bars|
  {
    if bars == [] then Acted(a, [])
    else
      var r := OnTime(a, bars[0], mode, f);
      if r.Raised? then r else OnTimeAll(r.a, bars[1..], mode, f)
  }

  // ---- late ----

  datatype Consumed = Consumed(m: Machine, rest: seq<Row>)

  function Consume(m: Machine, rows: seq<Row>, boundary: int): Consumed
    decreases |rows|
  {
    if rows == [] || rows[0].ts > boundary then Consumed(m, rows)
    else Consume(ApplyFunding(m, rows[0].ts, rows[0].rate, rows[0].fixing).m, rows[1..], boundary)
  }

  /** Replay buffered bars as warm-up; a missing minute or an order intent is an error. */
  function Replay(a: Adapter, bars: seq<Bar>, rows: seq<Row>, lastMinute: Option<int>, mode: DirectionMode): Acted
    decreases |bars|
  {
    if bars == [] then Acted(a, [])
    else
      var b := bars[0];
      var c := Consume(a.machine, rows, FundingBoundary(BarTs(b)));
      if b.Minute? && lastMinute.Some? && b.ts > lastMinute.value + MINUTE then
        Raised("historical price gap during funding catch-up")
      else
        var r := OnBar(a.(machine := c.m), b, true, map[], Config(true, mode));
        if r.Raised? then r
        else if r.intents != [] then Raised("historical catch-up emitted an order intent")
        else Replay(r.a, bars[1..], c.rest, if b.Minute? then Some(b.ts) else lastMinute, mode)
  }

  function Available(a: Adapter): Adapter {
    a.(machine := a.machine.(fundingAvailable := true))
  }

  // ---- the machine does not look at its funding clock ----

  function Clock(m: Machine, last: Option<int>): Machine {
    m.(lastFundingTs := last)
  }

  function ClockStep(s: Step, last: Option<int>): Step {
    Step(Clock(s.m, last), s.out)
  }

  lemma {:induction false} CloseChildrenClock(
    m: Machine, units: seq<Unit>, ts: int, price: real, opening: real, last: Option<int>)
    requires Evidenced(units)
    ensures CloseChildren(Clock(m, last), units, ts, price, opening)
        == ClockStep(CloseChildren(m, units, ts, price, opening), last)
    decreases |units|
  {
    if units != [] {
      if units[0].k == 0 {
        CloseChildrenClock(m, units[1..], ts, price, opening, last);
      } else if m.campaign.Some? {
        CloseChildrenClock(ForgetClosedChild(m, units[0].k).m, units[1..], ts, price, opening, last);
      }
    }
  }

  lemma {:induction false} CascadeClock(m: Machine, hits: seq<HitAt>, ts: int, opening: real, last: Option<int>)
    requires m.campaign.Some? && Evidenced(m.campaign.value.units)
    ensures Cascade(Clock(m, last), hits, ts, opening) == ClockStep(Cascade(m, hits, ts, opening), last)
    decreases |hits|
  {
    if hits != [] {
      if hits[0].k == 0 {
        CloseChildrenClock(m, m.campaign.value.units, ts, hits[0].price, opening, last);
      } else {
        var s := ForgetClosedChild(m, hits[0].k);
        if s.out.Ok? {
          RemoveKeeps(m.campaign.value.units, hits[0].k);
          CascadeClock(s.m, hits[1..], ts, opening, last);
        }
      }
    }
  }

  lemma PricesClock(m: Machine, ts: int, opening: real, low: real, high: real, last: Option<int>)
    ensures ObservePrices(Clock(m, last), ts, opening, low, high)
        == ClockStep(ObservePrices(m, ts, opening, low, high), last)
  {
    if Observes(m, ts) && Evidenced(m.campaign.value.units) {
      var side := m.campaign.value.side;
      CascadeClock(
        m.(lastPriceTs := Some(ts)),
        Sorted(side, HitsOf(side, m.campaign.value.units, opening, Adverse(side, low, high))), ts, opening, last);
    }
  }

  lemma CloseClock(m: Machine, c: DailyCandle, last: Option<int>)
    ensures ObserveClose(Clock(m, last), c) == ClockStep(ObserveClose(m, c), last)
  {
    hide ObservePrices, AppendIndicators, CandidateOf;
    PricesClock(m, c.ts, c.open, c.low, c.high, last);
  }

  lemma ParentClock(
    m: Machine, candidate: Candidate, recovered: Option<Side>, ts: int, open: Price, activation: int,
        mode: DirectionMode,
    last: Option<int>)
    ensures OpenParent(Clock(m, last), candidate, recovered, ts, open, activation, mode)
         == ClockStep(OpenParent(m, candidate, recovered, ts, open, activation, mode), last)
  {
  }

  lemma AddonClock(m: Machine, candidate: Candidate, ts: int, open: Price, mode: DirectionMode, last: Option<int>)
    requires m.campaign.Some?
    ensures OpenAddon(Clock(m, last), candidate, ts, open, mode)
        == ClockStep(OpenAddon(m, candidate, ts, open, mode), last)
  {
  }

  lemma OpenClock(m: Machine, ts: int, open: Price, activation: int, mode: DirectionMode, last: Option<int>)
    ensures ApplyOpen(Clock(m, last), ts, open, activation, mode)
        == ClockStep(ApplyOpen(m, ts, open, activation, mode), last)
  {
    hide OpenParent, OpenAddon;
    if m.pendingCandidate.Some? {
      var m1 := ExitAtOpen(m, ts, open).m.(pendingCandidate := None);
      if m1.campaign.None? {
        ParentClock(m1, m.pendingCandidate.value, RecoveredSide(m), ts, open, activation, mode, last);
      } else {
        AddonClock(m1, m.pendingCandidate.value, ts, open, mode, last);
      }
    }
  }

  lemma CompleteClock(m: Machine, c: DailyCandle, activation: int, mode: DirectionMode, last: Option<int>)
    ensures CompleteAndApplyNextOpen(Clock(m, last), c, c.ts + DAY, c.close, activation, mode)
         == ClockStep(CompleteAndApplyNextOpen(m, c, c.ts + DAY, c.close, activation, mode), last)
  {
    hide ObserveClose, ApplyOpen;
    CloseClock(m, c, last);
    OpenClock(ObserveClose(m, c).m, c.ts + DAY, c.close, activation, mode, last);
  }

  // ---- one bar, live with entries disabled and as warm-up ----

  /** An adapter whose campaign is modelled only: nothing funded, closing or waiting. */
  predicate Modelled(a: Adapter) {
    && Restorable(a.machine) && a.closing == {} && a.aborting == {} && a.pending == None && a.urgent == []
    && (a.machine.campaign.Some? ==> a.machine.campaign.value.origin == Historical)
  }

  function ClockA(a: Adapter, last: Option<int>): Adapter {
    a.(machine := Clock(a.machine, last))
  }

  /** The two ways to process a bar give the same model, and the replayed one no intent. */
  predicate SameBar(live: Acted, warm: Acted, last: Option<int>, before: Machine) {
    && (live.Acted? <==> warm.Acted?)
    && (live.Acted? ==>
          && warm.intents == [] && warm.a == ClockA(live.a, last) && Modelled(live.a)
          && live.a.machine.lastFundingTs == before.lastFundingTs
          && live.a.machine.modelComplete == before.modelComplete
          && live.a.machine.fundingAvailable == before.fundingAvailable)
  }

  lemma MinuteAgrees(a: Adapter, b: Bar, mode: DirectionMode, last: Option<int>)
    requires Modelled(a) && b.Minute?
    ensures SameBar(OnBar(a, b, false, map[], Config(false, mode)),
        OnBar(ClockA(a, last), b, true, map[], Config(true, mode)),
                    last, a.machine)
    ensures var r := OnBar(a, b, false, map[], Config(false, mode));
      r.Acted? ==> Continues(a.machine, r.a.machine)
  {
    PricesClock(a.machine, b.ts, b.open, b.low, b.high, last);
    PricesObserve(a.machine, b.ts, b.open, b.low, b.high);
    PricesShrink(a.machine, b.ts, b.open, b.low, b.high);
    hide ObservePrices, Restorable;
  }

  /** No campaign, or what is left of the same one. */
  predicate Continues(m: Machine, m1: Machine) {
    m1.campaign.Some? ==>
      && m.campaign.Some? && m1.campaign.value.entryTs == m.campaign.value.entryTs
  }

  /** A parent that was modelled at an open: all its units are from then. */
  predicate BornAt(m1: Machine, ts: int) {
    m1.campaign.Some? && m1.campaign.value.entryTs == ts && forall u :: u in m1.campaign.value.units ==> u.entryTs == ts
  }

  lemma DailyAgrees(a: Adapter, c: DailyCandle, mode: DirectionMode, last: Option<int>)
    requires Modelled(a)
    ensures SameBar(OnBar(a, Daily(c), false, map[], Config(false, mode)),
                    OnBar(ClockA(a, last), Daily(c), true, map[], Config(true, mode)), last, a.machine)
    ensures var r := OnBar(a, Daily(c), false, map[], Config(false, mode));
      r.Acted? ==> Continues(a.machine, r.a.machine) || BornAt(r.a.machine, c.ts + DAY)
  {
    var ts := c.ts + DAY;
    CompleteClock(a.machine, c, a.activation, mode, last);
    hide CompleteAndApplyNextOpen, Intents, WarmupDecisions;
    if !(a.machine.lastBarTs.Some? && c.ts <= a.machine.lastBarTs.value) {
      var s := CompleteAndApplyNextOpen(a.machine, c, ts, c.close, a.activation, mode);
      if s.out.Ok? {
        DayDecides(a, c, mode, last);
        var r := Intents(a.(machine := s.m), s.out.value, map[], Config(false, mode));
        assert [] + r.intents == r.intents;
      }
    }
  }

  lemma QuietDay(x: Adapter, ds: seq<Decision>, last: Option<int>, cfg: Config)
    requires Quiet(ds)
    ensures Intents(x, ds, map[], cfg) == Acted(x, [])
    ensures WarmupDecisions(ClockA(x, last), ds, map[]) == Acted(ClockA(x, last), [])
  {
    assert ds + [] == ds;
    QuietIntents(x, ds, [], map[], cfg);
    QuietIntents(ClockA(x, last), ds, [], map[], cfg);
  }

  /** A parent that cannot be entered is taken back on both ways. */
  lemma ParentDay(x: Adapter, d: Decision, ts: int, last: Option<int>, mode: DirectionMode)
    requires OpenedParent(x.machine, d, ts) && x.aborting == {} && x.pending == None
    ensures Intents(x, [d], map[], Config(false, mode)) == Acted(Flat(x), [])
    ensures WarmupDecisions(ClockA(x, last), [d], map[]) == Acted(ClockA(Flat(x), last), [])
  {
    OneIntent(x, d, map[], Config(false, mode));
    OneIntent(ClockA(x, last), d, map[], Config(false, mode));
  }

  /** Both ways take the day's decisions back, whatever the machine modelled. */
  lemma DayDecides(a: Adapter, c: DailyCandle, mode: DirectionMode, last: Option<int>)
    requires Modelled(a) && CompleteAndApplyNextOpen(a.machine, c, c.ts + DAY, c.close, a.activation, mode).out.Ok?
    ensures var s := CompleteAndApplyNextOpen(a.machine, c, c.ts + DAY, c.close, a.activation, mode);
      var live := Intents(a.(machine := s.m), s.out.value, map[], Config(false, mode));
      && live.Acted? && live.intents == [] && Modelled(live.a)
          && live.a.machine.lastFundingTs == a.machine.lastFundingTs
      && live.a.machine.modelComplete == a.machine.modelComplete
      && live.a.machine.fundingAvailable == a.machine.fundingAvailable
      && WarmupDecisions(ClockA(a.(machine := s.m), last), s.out.value, map[]) == Acted(ClockA(live.a, last), [])
      && (Continues(a.machine, live.a.machine) || BornAt(live.a.machine, c.ts + DAY))
  {
    var closed := ObserveClose(a.machine, c);
    CloseObserves(a.machine, c);
    CloseContinues(a.machine, c);
    assert closed.m.campaign.Some? ==> closed.m.campaign.value.origin == Historical;
    var o := ApplyOpen(closed.m, c.ts + DAY, c.close, a.activation, mode);
    hide ObserveClose, ApplyOpen, Restorable, Intents, WarmupDecisions;
    OpenDecides(a, closed.m, c.ts + DAY, c.close, mode, last);
    QuietIntents(a.(machine := o.m), closed.out.value, o.out.value, map[], Config(false, mode));
    QuietIntents(ClockA(a.(machine := o.m), last), closed.out.value, o.out.value, map[], Config(false, mode));
  }

  lemma OpenDecides(a: Adapter, m1: Machine, ts: int, open: Price, mode: DirectionMode, last: Option<int>)
    requires Modelled(a) && Restorable(m1) && (m1.campaign.Some? ==> m1.campaign.value.origin == Historical)
    requires ApplyOpen(m1, ts, open, a.activation, mode).out.Ok?
    ensures var o := ApplyOpen(m1, ts, open, a.activation, mode);
      var live := Intents(a.(machine := o.m), o.out.value, map[], Config(false, mode));
      && live.Acted? && live.intents == [] && Modelled(live.a) && live.a.machine.lastFundingTs == m1.lastFundingTs
      && live.a.machine.modelComplete == m1.modelComplete && live.a.machine.fundingAvailable == m1.fundingAvailable
      && WarmupDecisions(ClockA(a.(machine := o.m), last), o.out.value, map[]) == Acted(ClockA(live.a, last), [])
      && (Continues(m1, live.a.machine) || BornAt(live.a.machine, ts))
  {
    var o := ApplyOpen(m1, ts, open, a.activation, mode);
    var ds := OpenSplits(m1, ts, open, a.activation, mode);
    OpenContinues(m1, ts, open, a.activation, mode);
    var x, exits := a.(machine := o.m), ExitDs(m1, ts, open);
    assert Quiet(exits);
    QuietIntents(x, exits, ds, map[], Config(false, mode));
    QuietIntents(ClockA(x, last), exits, ds, map[], Config(false, mode));
    hide ApplyOpen, ExitDs, Restorable, Intents, WarmupDecisions;
    if Quiet(ds) {
      QuietDay(x, ds, last, Config(false, mode));
      assert ds != [] ==> ds[0] in ds;
    } else {
      OneDecision(AfterExit(m1), o.m, ds, ts, a.activation);
      ParentDay(x, ds[0], ts, last, mode);
      FlatRestorable(o.m);
    }
  }

  lemma CloseContinues(m: Machine, c: DailyCandle)
    requires Restorable(m) && ObserveClose(m, c).out.Ok?
    ensures Continues(m, ObserveClose(m, c).m) && ObserveClose(m, c).m.lastFundingTs == m.lastFundingTs
  {
    PricesShrink(m, c.ts, c.open, c.low, c.high);
    hide AppendIndicators, CandidateOf, ObservePrices;
  }

  lemma OpenContinues(m: Machine, ts: int, open: Price, activation: int, mode: DirectionMode)
    requires ApplyOpen(m, ts, open, activation, mode).out.Ok?
    ensures var o := ApplyOpen(m, ts, open, activation, mode);
      (Continues(m, o.m) || BornAt(o.m, ts)) && o.m.lastFundingTs == m.lastFundingTs
  {
  }

  // ---- settlements ----

  predicate OnBoundary(ts: int) { ts % EIGHT_HOURS == 0 }

  lemma NextBoundaryFits(from: int, mid: int)
    requires OnBoundary(from) && OnBoundary(mid) && from < mid
    ensures from + EIGHT_HOURS <= mid && OnBoundary(from + EIGHT_HOURS)
  {
  }

  lemma {:induction false} PublishedSplits(from: int, mid: int, until: int, f: int -> Fixing)
    requires OnBoundary(from) && OnBoundary(mid) && from <= mid <= until
    ensures Published(from, until, f) == Published(from, mid, f) + Published(mid, until, f)
    decreases mid - from
  {
    if from < mid {
      NextBoundaryFits(from, mid);
      hide OnBoundary;
      PublishedSplits(from + EIGHT_HOURS, mid, until, f);
    } else {
      assert Published(from, mid, f) == [];
    }
  }

  lemma {:induction false} ApplyRowsSplits(m: Machine, a: seq<Row>, b: seq<Row>)
    ensures ApplyRows(m, a + b) == ApplyRows(ApplyRows(m, a), b)
    decreases |a|
  {
    if a == [] {
      assert a + b == b;
    } else {
      assert (a + b)[1..] == a[1..] + b;
      ApplyRowsSplits(ApplyFunding(m, a[0].ts, a[0].rate, a[0].fixing).m, a[1..], b);
    }
  }

  /** The replay loop takes exactly the settlements up to a bar's boundary. */
  lemma {:induction false} ConsumesPublished(m: Machine, from: int, boundary: int, until: int, f: int -> Fixing)
    requires OnBoundary(from) && OnBoundary(boundary) && from <= boundary <= until
    ensures Consume(m, Published(from, until, f), boundary)
         == Consumed(ApplyRows(m, Published(from, boundary, f)), Published(boundary, until, f))
    decreases boundary - from
  {
    var ts := from + EIGHT_HOURS;
    if ts <= boundary {
      ConsumesPublished(ApplyFunding(m, ts, f(ts).rate, f(ts).price).m, ts, boundary, until, f);
    } else {
      assert from == boundary;
    }
  }

  predicate JoinedFrom(m: Machine, p: int) {
    m.campaign.Some? && forall u :: u in m.campaign.value.units ==> u.entryTs >= p
  }

  lemma DebitNobody(units: seq<Unit>, ts: int, debit: real)
    requires forall u :: u in units ==> u.entryTs >= ts
    ensures DebitUnits(units, ts, debit) == units
  {
  }

  /** Settlements no later than every unit's entry only move the clock. */
  lemma {:induction false} EarlyRowsOnlyTick(m: Machine, from: int, until: int, f: int -> Fixing)
    requires ModelsHistory(m) && JoinedFrom(m, until) && OnBoundary(from) && OnBoundary(until) && from <= until
    requires m.lastFundingTs.Some? ==> m.lastFundingTs.value <= from
    ensures ApplyRows(m, Published(from, until, f)) == Clock(m, if from < until then Some(until) else m.lastFundingTs)
    decreases until - from
  {
    if from < until {
      var ts := from + EIGHT_HOURS;
      assert ts <= until;
      var m1 := ApplyFunding(m, ts, f(ts).rate, f(ts).price).m;
      EarlyRowOnlyTicks(m, ts, f(ts).rate, f(ts).price);
      EarlyRowsOnlyTick(m1, ts, until, f);
    }
  }

  lemma EarlyRowOnlyTicks(m: Machine, ts: int, rate: real, fixing: Price)
    requires ModelsHistory(m) && JoinedFrom(m, ts) && (m.lastFundingTs.Some? ==> m.lastFundingTs.value < ts)
    ensures ApplyFunding(m, ts, rate, fixing).m == Clock(m, Some(ts))
  {
    var c := m.campaign.value;
    DebitNobody(c.units, ts, Debit(c.side, rate, fixing));
  }

  /** The first new settlement makes two machines that differ in their clock only the same. */
  lemma RowsForgetClock(m: Machine, from: int, until: int, last: Option<int>, f: int -> Fixing)
    requires OnBoundary(from) && OnBoundary(until) && from < until
    requires (m.lastFundingTs.Some? ==> m.lastFundingTs.value <= from) && (last.Some? ==> last.value <= from)
    ensures ApplyRows(Clock(m, last), Published(from, until, f)) == ApplyRows(m, Published(from, until, f))
  {
    var ts := from + EIGHT_HOURS;
    assert ts <= until;
    assert ApplyFunding(Clock(m, last), ts, f(ts).rate, f(ts).price).m
      == ApplyFunding(m, ts, f(ts).rate, f(ts).price).m;
  }

  /** What settlements may change: the clock, and the collateral of a modelled campaign. */
  predicate Funded(m: Machine, m1: Machine, last: Option<int>) {
    && m1 == m.(campaign := m1.campaign, lastFundingTs := last)
    && (!ModelsHistory(m) ==> m1.campaign == m.campaign)
    && m1.campaign.Some? == m.campaign.Some?
    && (m.campaign.Some? ==> m1.campaign.value == m.campaign.value.(units := m1.campaign.value.units))
    && (Restorable(m) ==> Restorable(m1))
  }

  lemma {:induction false} RowsFrame(m: Machine, from: int, until: int, f: int -> Fixing)
    requires OnBoundary(from) && OnBoundary(until) && from <= until
    requires m.lastFundingTs.Some? ==> m.lastFundingTs.value <= from
    ensures Funded(m, ApplyRows(m, Published(from, until, f)), if from < until then Some(until) else m.lastFundingTs)
    decreases until - from
  {
    if from < until {
      var ts := from + EIGHT_HOURS;
      assert ts <= until;
      OneRowFrame(m, ts, f(ts).rate, f(ts).price);
      hide Restorable, ApplyFunding;
      RowsFrame(ApplyFunding(m, ts, f(ts).rate, f(ts).price).m, ts, until, f);
    }
  }

  lemma OneRowFrame(m: Machine, ts: int, rate: real, fixing: Price)
    requires m.lastFundingTs.Some? ==> m.lastFundingTs.value < ts
    ensures Funded(m, ApplyFunding(m, ts, rate, fixing).m, Some(ts))
    ensures ModelsHistory(m) == ModelsHistory(ApplyFunding(m, ts, rate, fixing).m)
  {
    if Restorable(m) {
      FundingKeeps(m, ts, rate, fixing);
    }
  }

  // ---- side by side ----

  /** How far the on-time machine may trail the replay's clock p. */
  predicate Trails(m: Machine, p: int) {
    && OnBoundary(p) && (m.lastFundingTs.Some? ==> m.lastFundingTs.value <= p && OnBoundary(m.lastFundingTs.value))
    && (ModelsHistory(m) ==> Last(m) <= p && OnBoundary(Last(m)) && (Last(m) == p || JoinedFrom(m, p)))
  }

  /** At each bar both have debited the same settlements, however the campaign came about. */
  lemma FundingAgrees(m: Machine, last: Option<int>, p: int, boundary: int, f: int -> Fixing)
    requires ModelsHistory(m) && Trails(m, p) && OnBoundary(boundary) && p <= boundary
    requires last.Some? ==> last.value <= p
    ensures var live := ApplyRows(m, Published(Last(m), boundary, f));
      var late := ApplyRows(Clock(m, last), Published(p, boundary, f));
      && late == Clock(live, late.lastFundingTs)
      && live.campaign.Some? && Last(live) == boundary
      && (late.lastFundingTs.Some? ==> late.lastFundingTs.value <= boundary)
      && (m.lastFundingTs == last && Last(m) == p ==> late == live)
  {
    RowsFrame(m, Last(m), boundary, f);
    RowsFrame(Clock(m, last), p, boundary, f);
    if Last(m) == p {
      if p < boundary {
        RowsForgetClock(m, p, boundary, last, f);
      }
    } else {
      PublishedSplits(Last(m), p, boundary, f);
      ApplyRowsSplits(m, Published(Last(m), p, f), Published(p, boundary, f));
      EarlyRowsOnlyTick(m, Last(m), p, f);
      if p < boundary {
        RowsForgetClock(Clock(m, Some(p)), p, boundary, last, f);
      }
    }
    hide Restorable;
  }

  ghost predicate Chronological(bars: seq<Bar>, p: int, until: int) {
    && (forall i :: 0 <= i < |bars| ==> p <= FundingBoundary(BarTs(bars[i])) <= until)
    && (forall i, j :: 0 <= i < j < |bars| ==> FundingBoundary(BarTs(bars[i])) <= FundingBoundary(BarTs(bars[j])))
  }

  /** No minute is missing between the buffered ones. */
  predicate NoGap(bars: seq<Bar>, lastMinute: Option<int>)
    decreases |bars|
  {
    if bars == [] then true
    else if bars[0].Minute? then
      (lastMinute.Some? ==> bars[0].ts <= lastMinute.value + MINUTE) && NoGap(bars[1..], Some(bars[0].ts))
    else NoGap(bars[1..], lastMinute)
  }

  lemma BoundaryIsOnBoundary(ts: int)
    ensures OnBoundary(FundingBoundary(ts)) && (ts % DAY == 0 ==> FundingBoundary(ts) == ts && OnBoundary(ts))
  {
    var q := ts / 28800;
    assert FundingBoundary(ts) == 28800 * q;
    if ts % DAY == 0 {
      MidnightIsOnBoundary(ts / 86400);
      assert ts == 86400 * (ts / 86400);
    }
  }

  lemma MidnightIsOnBoundary(day: int)
    ensures 86400 * day % 28800 == 0
  {
    assert 86400 * day == 28800 * (3 * day);
  }

  /** The campaign that was running when the funding went missing is still on one clock. */
  predicate OneClock(m: Machine, last: Option<int>, p: int, entryTs: int) {
    ModelsHistory(m) && m.campaign.value.entryTs == entryTs ==> m.lastFundingTs == last && Last(m) == p
  }

  /** Replay and on-time processing after any number of bars. */
  predicate Abreast(x: Adapter, last: Option<int>, p: int, entryTs: int) {
    && Modelled(x) && x.machine.fundingAvailable && Trails(x.machine, p) && (last.Some? ==> last.value <= p)
    && OneClock(x.machine, last, p, entryTs)
  }

  function FundedOnTime(m: Machine, boundary: int, f: int -> Fixing): Machine {
    if ModelsHistory(m) && m.fundingAvailable && Last(m) < boundary
    then ApplyRows(m, Published(Last(m), boundary, f)) else m
  }

  lemma FundingStep(x: Adapter, last: Option<int>, p: int, boundary: int, entryTs: int, f: int -> Fixing)
    requires Abreast(x, last, p, entryTs) && OnBoundary(boundary) && p <= boundary
    ensures var live := FundedOnTime(x.machine, boundary, f);
      var late := ApplyRows(Clock(x.machine, last), Published(p, boundary, f));
      && late == Clock(live, late.lastFundingTs)
      && Abreast(x.(machine := live), late.lastFundingTs, boundary, entryTs)
      && (ModelsHistory(live) ==> Last(live) == boundary)
      && Funded(x.machine, live, live.lastFundingTs)
  {
    var m := x.machine;
    RowsFrame(Clock(m, last), p, boundary, f);
    if ModelsHistory(m) {
      FundingAgrees(m, last, p, boundary, f);
      RowsFrame(m, Last(m), boundary, f);
    }
    hide Restorable;
  }

  lemma BarAgrees(a: Adapter, b: Bar, mode: DirectionMode, last: Option<int>)
    requires Modelled(a)
    ensures SameBar(OnBar(a, b, false, map[], Config(false, mode)),
        OnBar(ClockA(a, last), b, true, map[], Config(true, mode)),
                    last, a.machine)
    ensures var r := OnBar(a, b, false, map[], Config(false, mode));
      r.Acted? ==> Continues(a.machine, r.a.machine) || (b.Daily? && BornAt(r.a.machine, BarTs(b)))
  {
    hide SameBar, Modelled;
    if b.Minute? {
      MinuteAgrees(a, b, mode, last);
    } else {
      DailyAgrees(a, b.candle, mode, last);
    }
  }

  lemma BarStep(x: Adapter, last: Option<int>, boundary: int, entryTs: int, b: Bar, mode: DirectionMode)
    requires Abreast(x, last, boundary, entryTs) && (ModelsHistory(x.machine) ==> Last(x.machine) == boundary)
    requires boundary == FundingBoundary(BarTs(b)) && BarTs(b) > entryTs
    ensures var live := OnBar(x, b, false, map[], Config(false, mode));
      var late := OnBar(ClockA(x, last), b, true, map[], Config(true, mode));
      && SameBar(live, late, last, x.machine)
      && (live.Acted? ==> Abreast(live.a, last, boundary, entryTs))
  {
    hide OnBar, Restorable, FundingBoundary, OnBoundary;
    BarAgrees(x, b, mode, last);
    BoundaryIsOnBoundary(BarTs(b));
    if b.Daily? {
      assert BarTs(b) % DAY == 0;
    }
  }

  lemma {:induction false} CatchesUp(
    x: Adapter, last: Option<int>, p: int, bars: seq<Bar>, until: int, lastMinute: Option<int>, mode: DirectionMode,
    f: int -> Fixing, entryTs: int)
    requires Abreast(x, last, p, entryTs) && OnBoundary(until) && p <= until
    requires Chronological(bars, p, until) && NoGap(bars, lastMinute)
    requires forall b :: b in bars ==> BarTs(b) > entryTs
    ensures var live := OnTimeAll(x, bars, mode, f);
      var late := Replay(ClockA(x, last), bars, Published(p, until, f), lastMinute, mode);
      && (live.Acted? <==> late.Acted?)
      && (live.Acted? ==>
            && late.intents == [] && late.a == ClockA(live.a, late.a.machine.lastFundingTs)
            && (ModelsHistory(live.a.machine) && live.a.machine.campaign.value.entryTs == entryTs ==> late.a == live.a))
    decreases |bars|
  {
    hide Consume, Funded, OnBar;
    if bars != [] {
      var b := bars[0];
      var boundary := FundingBoundary(BarTs(b));
      assert b in bars;
      BoundaryIsOnBoundary(BarTs(b));
      ConsumesPublished(Clock(x.machine, last), p, boundary, until, f);
      FundingStep(x, last, p, boundary, entryTs, f);
      var funded := x.(machine := FundedOnTime(x.machine, boundary, f));
      var clock := ApplyRows(Clock(x.machine, last), Published(p, boundary, f)).lastFundingTs;
      hide OnBar, ApplyRows, Published, Consume, Abreast, FundedOnTime;
      BarStep(funded, clock, boundary, entryTs, b, mode);
      var live := OnBar(funded, b, false, map[], Config(false, mode));
      LaterBars(bars, p, until);
      if live.Acted? {
        CatchesUp(live.a, clock, boundary, bars[1..], until, if b.Minute? then Some(b.ts) else lastMinute, mode, f,
            entryTs);
      }
    }
  }

  lemma LaterBars(bars: seq<Bar>, p: int, until: int)
    requires Chronological(bars, p, until) && bars != []
    ensures Chronological(bars[1..], FundingBoundary(BarTs(bars[0])), until)
    ensures forall b :: b in bars[1..] ==> b in bars
    ensures p <= FundingBoundary(BarTs(bars[0])) <= until
  {
  }

  predicate SameEntry(m: Machine, m1: Machine) {
    m.campaign.Some? && m1.campaign.Some? && m.campaign.value.entryTs == m1.campaign.value.entryTs
  }

  /**
   Funding that arrives late does not change the model. For any buffered bars without a
   missing minute, replaying them with the settlements in between fails exactly when
   on-time processing would, asks for no order, and ends with the same campaign,
   collateral, indicators and flags; the funding clock is the same too while the
   campaign that was waiting is still running.
   */
  lemma LateFundingIsHarmless(a: Adapter, bars: seq<Bar>, until: int, mode: DirectionMode, f: int -> Fixing)
    requires Modelled(a) && ModelsHistory(a.machine)
    requires OnBoundary(Last(a.machine)) && a.machine.campaign.value.entryTs <= Last(a.machine) <= until
    requires OnBoundary(until)
    requires Chronological(bars, Last(a.machine), until) && NoGap(bars, a.machine.lastPriceTs)
    requires forall b :: b in bars ==> BarTs(b) > a.machine.campaign.value.entryTs
    ensures var rows := Published(Last(a.machine), until, f);
      var live, late := OnTimeAll(Available(a), bars, mode, f),
        Replay(Available(a), bars, rows, a.machine.lastPriceTs, mode);
      && (live.Acted? <==> late.Acted?)
      && (live.Acted? ==>
            && late.intents == [] && late.a == ClockA(live.a, late.a.machine.lastFundingTs)
            && (ModelsHistory(live.a.machine) && SameEntry(live.a.machine, a.machine) ==> late.a == live.a))
  {
    var x, last, p := Available(a), a.machine.lastFundingTs, Last(a.machine);
    assert ClockA(x, last) == x;
    assert Restorable(x.machine);
    CatchesUp(x, last, p, bars, until, a.machine.lastPriceTs, mode, f, a.machine.campaign.value.entryTs);
  }

  // ---- the replay as the program runs it ----

  /** Apply settlements and bars in order on the strategy itself. */
  method ReplayHistoricalBars(strategy: CloseRangeLive.CloseRangeLive, bars: seq<Bar>, rows: seq<Row>)
    returns (r: Result<seq<Intent>>)
    requires strategy.Valid() && strategy.entriesEnabled
    modifies strategy, strategy.machine
    ensures strategy.Answers(r, Replay(Available(old(strategy.State())), bars, rows,
                                       old(strategy.machine.lastHistoricalPriceTs), strategy.directionMode))
  {
    hide Restorable, OnBar, ApplyFunding;
    var lastMinute := strategy.machine.lastHistoricalPriceTs;
    AvailableRestorable(strategy.machine.State());
    strategy.machine.historicalFundingAvailable := true;
    ghost var all := Replay(strategy.State(), bars, rows, lastMinute, strategy.directionMode);
    var i, n := 0, 0;
    assert bars[0..] == bars && rows[0..] == rows;
    while i < |bars|
      invariant 0 <= i <= |bars| && 0 <= n <= |rows| && strategy.Valid() && strategy.machine == old(strategy.machine)
      invariant all == Replay(strategy.State(), bars[i..], rows[n..], lastMinute, strategy.directionMode)
    {
      var b := bars[i];
      assert bars[i..][0] == b && bars[i..][1..] == bars[i + 1..];
      var boundary := FundingBoundary(BarTs(b));
      n := ConsumeInPlace(strategy, rows, n, boundary);
      if b.Minute? {
        if lastMinute.Some? && b.ts > lastMinute.value + MINUTE {
          return Err("historical price gap during funding catch-up");
        }
        lastMinute := Some(b.ts);
      }
      var answer := Feed(strategy, b);
      if answer.Err? {
        return answer;
      }
      if answer.value != [] {
        return Err("historical catch-up emitted an order intent");
      }
      i := i + 1;
    }
    assert bars[i..] == [];
    return Ok([]);
  }

  lemma AvailableRestorable(m: Machine)
    requires Restorable(m)
    ensures Restorable(m.(fundingAvailable := true))
  {
  }

  method Feed(strategy: CloseRangeLive.CloseRangeLive, b: Bar) returns (r: Result<seq<Intent>>)
    requires strategy.Valid() && strategy.entriesEnabled
    modifies strategy, strategy.machine
    ensures strategy.Answers(r, OnBar(old(strategy.State()), b, true, map[], Config(true, strategy.directionMode)))
    ensures r.Ok? ==> strategy.Valid() && strategy.machine == old(strategy.machine)
  {
    if b.Minute? {
      r := strategy.OnMinuteBar(b, true, map[]);
    } else {
      r := strategy.OnDailyBar(b.candle, true, map[]);
    }
  }

  method ConsumeInPlace(strategy: CloseRangeLive.CloseRangeLive, rows: seq<Row>, from: nat,
      boundary: int) returns (n: nat)
    requires strategy.Valid() && from <= |rows|
    modifies strategy.machine
    ensures from <= n <= |rows| && strategy.Valid()
    ensures Consume(old(strategy.machine.State()), rows[from..], boundary)
        == Consumed(strategy.machine.State(), rows[n..])
    ensures strategy.State() == old(strategy.State()).(machine := strategy.machine.State())
  {
    hide Restorable, ApplyFunding;
    n := from;
    while n < |rows| && rows[n].ts <= boundary
      invariant from <= n <= |rows| && strategy.Valid()
      invariant Consume(old(strategy.machine.State()), rows[from..], boundary)
             == Consume(strategy.machine.State(), rows[n..], boundary)
      invariant strategy.State() == old(strategy.State()).(machine := strategy.machine.State())
    {
      assert rows[n..][0] == rows[n] && rows[n..][1..] == rows[n + 1..];
      FundingKeeps(strategy.machine.State(), rows[n].ts, rows[n].rate, rows[n].fixing);
      var applied := strategy.machine.ApplyHistoricalFunding(rows[n].ts, rows[n].rate, rows[n].fixing);
      n := n + 1;
    }
  }
}
