/**
 A run in which one slot of one campaign is asked for twice: an add-on day, a fill beyond
 the cap with its exit, a crash, a start, and the next add-on day.
 */
module AdapterRefill {
  import opened Common
  import opened CloseRange
  import opened CloseRangeProperties
  import opened CloseRangeWindows
  import opened Adapter
  import opened AdapterRuns
  import opened AdapterHooks
  import opened AdapterGuarantees
  import opened AdapterFills
  import opened AdapterWitness

  // ---- a history that keeps rising ----

  lemma {:induction false} SumPositive(xs: seq<real>)
    requires forall x :: x in xs ==> x > 0.0
    ensures Sum(xs) >= 0.0 && (xs != [] ==> Sum(xs) > 0.0)
  {
    if xs != [] {
      assert xs[0] in xs && forall x :: x in xs[1..] ==> x in xs;
      SumPositive(xs[1..]);
    }
  }

  /** Long enough to decide on, no recent close above top, and no recent day without movement. */
  predicate Below(h: seq<DailyCandle>, top: real) {
    && |h| >= MIN_HISTORY && h[|h| - 1].close <= top
    && (forall x :: x in LastN(Closes(h), 20) ==> x <= top)
    && (forall x :: x in LastN(TrueRanges(h), 14) ==> x > 0.0)
  }

  lemma QuietBelow()
    ensures Below(QuietDays(N), 101.0)
  {
    QuietWindows();
    var ranges := LastN(TrueRanges(QuietDays(N)), 14);
    forall x | x in ranges ensures x > 0.0 {
      var i :| 0 <= i < |ranges| && ranges[i] == x;
    }
  }

  lemma LastNAppend<T>(xs: seq<T>, x: T, n: nat)
    requires n > 0
    ensures forall y :: y in LastN(xs + [x], n) ==> y == x || y in LastN(xs, n)
  {
    var all := xs + [x];
    forall y | y in LastN(all, n) ensures y == x || y in LastN(xs, n) {
      var i :| 0 <= i < |LastN(all, n)| && LastN(all, n)[i] == y;
      if y != x {
        assert all[|all| - |LastN(all, n)| + i] == y;
        assert y in LastN(xs, n) by {
          var j := |all| - |LastN(all, n)| + i - (|xs| - |LastN(xs, n)|);
          assert LastN(xs, n)[j] == y;
        }
      }
    }
  }

  /** A day above everything recent is an upward candidate, and nothing recent is above it afterwards. */
  lemma RisingDay(h: seq<DailyCandle>, top: real, c: DailyCandle)
    requires Below(h, top) && top < c.close
    ensures CandidateOn(h, c).Some? && CandidateOn(h, c).value.side == 1
    ensures Below(h + [c], c.close)
  {
    var closes, ranges := LastN(Closes(h), 20), LastN(TrueRanges(h), 14);
    SumPositive(ranges);
    MaxIsMember(closes);
    LastNAppend(Closes(h), c.close, 20);
    LastNAppend(TrueRanges(h), TrueRange(c, h[|h| - 1].close), 14);
    assert (h + [c])[..|h|] == h;
    assert TrueRange(c, h[|h| - 1].close) > 0.0;
    hide Closes, TrueRanges, Ema, MaxOf, MinOf, Sum, OverlapSum, LastN;
  }

  // ---- an add-on day ----

  /** The funded campaign of the jump after some days without an exit. */
  function Aging(boundary: real, held: int, peak: real): Campaign {
    FundedCampaign(boundary).(heldDays := held, peakFavorable := peak)
  }

  function WithUnit(c: Campaign, ts: int, price: Price): Campaign {
    c.(lifetimeUnits := 2, units := c.units + [NewUnit(1, ts, price, Paper)])
  }

  predicate OnTheRise(m: Machine, h: seq<DailyCandle>, boundary: real, held: int, peak: real, ts: int) {
    && m.ind == Folded(h) && m.lastBarTs == Some(ts - DAY) && m.campaign == Some(Aging(boundary, held, peak))
    && m.pendingExit == None && m.modelComplete && m.fundingAvailable && 0 <= held < 10 && boundary <= 101.0
  }

  /** The machine's part: one day older, and a modelled add-on in slot 1. */
  lemma AddonDay(m: Machine, h: seq<DailyCandle>, top: real, boundary: real, held: int, peak: real, c: DailyCandle)
    returns (peak1: real)
    requires OnTheRise(m, h, boundary, held, peak, c.ts) && Below(h, top) && top < c.close && 200.0 < c.close <= 220.0
    ensures var s := CompleteAndApplyNextOpen(m, c, c.ts + DAY, c.close, 0, Both);
      && s.out.Ok? && |s.out.value| == 2 && s.out.value[0].kind == Signal
      && var d := s.out.value[1];
      && d.kind == PaperAddon && d.k == Some(1) && d.side == Some(1) && d.campaign == Some(CampaignId(T1, 1))
      && s.m == m.(ind := Folded(h + [c]), lastBarTs := Some(c.ts), pendingCandidate := None,
                   campaign := Some(WithUnit(Aging(boundary, held + 1, peak1), c.ts + DAY, Slip(c.close, 1))))
  {
    hide Folded, CandidateOf, CandidateOn, AppendIndicators, Closes, TrueRanges, LastN, Below, NewUnit;
    RisingDay(h, top, c);
    CandidateRefines(h, c);
    FoldedAppend(h, c);
    var aged := AgedCampaign(m.campaign.value, c);
    peak1 := aged.peakFavorable;
    assert NextExit(None, aged, c) == None;
    assert Slip(c.close, 1) / FILLED - 1.0 <= MAX_ADDON_DISPLACEMENT;
  }

  /** The adapter's part: it asks for slot 1. */
  lemma AddonAsks(a: Adapter, h: seq<DailyCandle>, top: real, boundary: real, held: int, peak: real, c: DailyCandle)
    returns (peak1: real)
    requires OnTheRise(a.machine, h, boundary, held, peak, c.ts) && Below(h, top)
    requires top < c.close && 200.0 < c.close <= 220.0 && a == SeedAdapter().(machine := a.machine) && held < 9
    ensures var r := OnDaily(a, c, false, HELD, Settings);
      && r.Acted? && r.intents == [Enter(1, 1, CampaignId(T1, 1))] && r.a == SeedAdapter().(machine := r.a.machine)
      && r.a.machine.campaign == Some(WithUnit(Aging(boundary, held + 1, peak1), c.ts + DAY, Slip(c.close, 1)))
      && OnTheRise(r.a.machine.(campaign := Some(Aging(boundary, held + 1, peak1))), h + [c], boundary, held + 1,
                   peak1, c.ts + DAY)
  {
    hide Seeded, Folded, Below, CompleteAndApplyNextOpen, NewUnit, OnDaily, FundedCampaign;
    peak1 := AddonDay(a.machine, h, top, boundary, held, peak, c);
    PlainDay(a, c, HELD);
    var s := CompleteAndApplyNextOpen(a.machine, c, c.ts + DAY, c.close, 0, Both);
    TwoDecisions(a.(machine := s.m), s.out.value, HELD, Settings);
    assert 0 in HELD && 1 !in HELD;
  }

  // ---- what the start makes of it ----

  /** The add-on is taken back: the campaign is as if it had never been asked for. */
  lemma AddonTakenBack(a: Adapter, campaign: Campaign, ts: int, price: Price, b: Adapter)
    requires a == SeedAdapter().(machine := a.machine) && a.machine.campaign == Some(WithUnit(campaign, ts, price))
    requires campaign.origin == Live && campaign.lifetimeUnits == 1 && campaign.side == 1
    requires campaign.units == [Unit(0, T1, FILLED, Live, None)] && StartsAs(a, HELD, b)
    ensures b == a.(machine := a.machine.(campaign := Some(campaign)))
  {
    hide Seeded;
    BarEnds(a, HELD);
    hide Reconcile;
    var c := WithUnit(campaign, ts, price);
    assert c.units[..1] == campaign.units && c.units[1..] == [NewUnit(1, ts, price, Paper)];
    var a1 := a.(machine := a.machine.(campaign := Some(campaign)));
    assert DiscardUnfilledAddon(a.machine, 1) == CloseRange.Step(a1.machine, Ok([]));
    assert c.units[1..][..0] == [];
    assert SettleAddons(a, c.units[1..], HELD) == Acted(a1, []);
    assert FarSlots(a1.machine) == {};
    assert a1.aborting + {} == a1.aborting;
    UnitsOf(a1.machine);
  }

  lemma UnitsOf(m: Machine)
    requires m.campaign.Some? && m.campaign.value.units == [Unit(0, T1, FILLED, Live, None)]
    ensures 0 in Ks(m) && HELD.Keys <= Ks(m)
  {
    assert m.campaign.value.units[0] in Units(m);
  }

  // ---- the run ----

  lemma {:induction false} TracksThen(
    t: Tracked, script: seq<AdapterRuns.Act>, mid: Tracked, more: seq<AdapterRuns.Act>, end: Tracked)
    requires Tracks(t, script, mid) && Tracks(mid, more, end)
    ensures Tracks(t, script + more, end)
    decreases |script|
  {
    hide Enabled, Track;
    if script == [] {
      assert script + more == more;
    } else {
      assert (script + more)[1..] == script[1..] + more;
      TracksThen(Track(t, script[0]), script[1..], mid, more, end);
    }
  }

  /** Every run can be tracked. */
  lemma {:induction false} TrackedRun(t: Tracked, script: seq<AdapterRuns.Act>, end: Engine) returns (t1: Tracked)
    requires AdapterRuns.Follows(t.e, script, end)
    ensures Tracks(t, script, t1) && t1.e == end
    decreases |script|
  {
    hide Enabled, AdapterRuns.Next;
    if script == [] {
      t1 := t;
    } else {
      t1 := TrackedRun(Track(t, script[0]), script[1..], end);
    }
  }

  const Higher: DailyCandle := Candle(121 * 86400, 210.0, 210.0, 210.0, 210.0)
  const Highest: DailyCandle := Candle(122 * 86400, 220.0, 220.0, 220.0, 220.0)
  const FAR: Price := 300.0

  /**
   It happens: a reachable engine about to submit an add-on order for a slot that the same campaign
   has already filled.
   */
  lemma SlotFilledTwiceHappens() returns (t: Tracked)
    ensures Attained(t) && AboutToAdd(t) && Refills(t)
  {
    var t0, h, boundary, peak := FirstAddon();
    var t1 := FillForgotten(t0, h, boundary, peak);
    hide Attained, Below, Folded, OnDaily, SeedAdapter, Enabled, AdapterRuns.Next, OnTheRise, WithUnit, Aging;
    var peak2 := AddonAsks(t1.e.process.a, h, 210.0, boundary, 1, peak, Highest);
    BarAsks(t1.e, Highest, Enter(1, 1, CampaignId(T1, 1)));
    AttainedOneMore(t1, BarArrives(Daily(Highest), false, true));
    t := Track(t1, BarArrives(Daily(Highest), false, true));
  }

  lemma TrackIs(t: Tracked, act: AdapterRuns.Act)
    requires Enabled(t.e, act)
    ensures Track(t, act).e == AdapterRuns.Next(t.e, act)
  {
    hide Enabled, AdapterRuns.Next;
  }

  function RisenTo200(): seq<DailyCandle> { QuietDays(N) + [Jump] }

  /** The adapter that has just modelled the first add-on. */
  predicate Asked(a: Adapter, h: seq<DailyCandle>, boundary: real, peak: real) {
    && a == SeedAdapter().(machine := a.machine)
    && a.machine.campaign == Some(WithUnit(Aging(boundary, 1, peak), T2, Slip(210.0, 1)))
    && OnTheRise(a.machine.(campaign := Some(Aging(boundary, 1, peak))), h, boundary, 1, peak, Highest.ts)
  }

  /** A funded parent, in a tracked run. */
  lemma FundedTracked() returns (t: Tracked, boundary: real)
    ensures Attained(t) && InPhase(t.e, Idle) && t.e.owned == HELD && t.e.process.mirror == HELD
    ensures t.e.process.cfg == Settings && Below(RisenTo200(), 200.0)
    ensures var a := t.e.process.a;
      a == SeedAdapter().(machine := a.machine) && OnTheRise(a.machine, RisenTo200(), boundary, 0, 0.0, Higher.ts)
  {
    QuietBelow();
    RisingDay(QuietDays(N), 101.0, Jump);
    hide Below, Folded, QuietDays, Seeded;
    var e;
    e, boundary := Funded();
    var script :| AdapterRuns.Follows(AdapterRuns.Initial, script, e);
    hide AdapterRuns.Follows, Tracks;
    t := TrackedRun(Beginning, script, e);
    assert Attained(t);
    assert FundedCampaign(boundary) == Aging(boundary, 0, 0.0);
  }

  lemma FirstAsk(a: Adapter, boundary: real) returns (h: seq<DailyCandle>, peak: real)
    requires a == SeedAdapter().(machine := a.machine) && Below(RisenTo200(), 200.0)
    requires OnTheRise(a.machine, RisenTo200(), boundary, 0, 0.0, Higher.ts)
    ensures var r := OnDaily(a, Higher, false, HELD, Settings);
      r.Acted? && r.intents == [Enter(1, 1, CampaignId(T1, 1))] && Asked(r.a, h, boundary, peak)
    ensures Below(h, 210.0)
  {
    hide Below, OnDaily, SeedAdapter, OnTheRise, WithUnit, Aging, RisenTo200, CandidateOn;
    var h0 := RisenTo200();
    RisingDay(h0, 200.0, Higher);
    h := h0 + [Higher];
    peak := AddonAsks(a, h0, 200.0, boundary, 0, 0.0, Higher);
    assert Highest.ts == Higher.ts + DAY && T2 == Higher.ts + DAY && 0 + 1 == 1;
  }

  /** The second day after the jump: the add-on order is about to be submitted. */
  lemma FirstAddon() returns (t: Tracked, h: seq<DailyCandle>, boundary: real, peak: real)
    ensures Attained(t) && AboutToAdd(t) && t.e.process.phase.intents[0] == Enter(1, 1, CampaignId(T1, 1))
    ensures t.e.owned == HELD && Below(h, 210.0)
    ensures Asked(t.e.process.a, h, boundary, peak)
  {
    hide Attained, Below, OnDaily, SeedAdapter, Enabled, Track, AdapterRuns.Next, OnTheRise, Asked;
    var t0;
    t0, boundary := FundedTracked();
    h, peak := FirstAsk(t0.e.process.a, boundary);
    BarAsks(t0.e, Higher, Enter(1, 1, CampaignId(T1, 1)));
    AttainedOneMore(t0, BarArrives(Daily(Higher), false, true));
    t := Track(t0, BarArrives(Daily(Higher), false, true));
    TrackIs(t0, BarArrives(Daily(Higher), false, true));
  }

  /** Filled far away, its exit done, a crash, a start: the campaign is as before the add-on. */
  lemma FillForgotten(t: Tracked, h: seq<DailyCandle>, boundary: real, peak: real) returns (t1: Tracked)
    requires Attained(t) && AboutToAdd(t) && t.e.process.phase.intents[0] == Enter(1, 1, CampaignId(T1, 1))
    requires t.e.owned == HELD
    requires Asked(t.e.process.a, h, boundary, peak)
    ensures Attained(t1) && InPhase(t1.e, Idle) && t1.e.process.mirror == HELD && t1.e.process.cfg == Settings
    ensures t1.e.process.a == SeedAdapter().(machine := t1.e.process.a.machine)
    ensures OnTheRise(t1.e.process.a.machine, h, boundary, 1, peak, Highest.ts)
    ensures AddonSlot(CampaignId(T1, 1), 1) in t1.filled
  {
    hide Attained, AdapterFills.Inv, Seeded, Folded, Fresh, StartsAs, Forgotten;
    AttainedInv(t);
    var a := t.e.process.a;
    assert FarFrom(a.machine, FAR);
    SeedIsFresh();
    hide FarFrom;
    t1 := FarFillIsForgotten(t, FAR, T2, SeedAdapter(), Settings);
    AddonTakenBack(a, Aging(boundary, 1, peak), T2, Slip(210.0, 1), t1.e.process.a);
    AttainedThen(t, FarFillRun(FAR, T2, SeedAdapter(), Settings), t1);
  }

  lemma AttainedThen(t: Tracked, more: seq<AdapterRuns.Act>, end: Tracked)
    requires Attained(t) && Tracks(t, more, end)
    ensures Attained(end)
  {
    hide Tracks;
    var script :| Tracks(Beginning, script, t);
    TracksThen(Beginning, script, t, more, end);
  }

  lemma SeedIsFresh()
    ensures Fresh(SeedAdapter())
  {
    SeedFollows();
    hide Seeded, Restorable;
  }
}
