/**
 A run that reaches the failing start: a quiet history, a breakout day that funds a parent,
 a day that ends its range, a close that fails, and a venue closure just before a crash.
 */
module AdapterWitness {
  import opened Common
  import opened CloseRange
  import opened CloseRangeProperties
  import opened CloseRangeWindows
  import opened Adapter
  import opened AdapterRuns
  import opened AdapterHooks
  import opened AdapterStartup
  import opened AdapterGuarantees

  // ---- a quiet history ----

  /** Days without a range that alternate between two prices. */
  function Quiet(i: nat): DailyCandle {
    var p := if i % 2 == 0 then 100.0 else 101.0;
    Candle(i * DAY, p, p, p, p)
  }

  function QuietDays(n: nat): (h: seq<DailyCandle>)
    ensures |h| == n && Contiguous(h)
  {
    seq(n, i requires 0 <= i < n => Quiet(i))
  }

  lemma {:induction false} ClosesAt(h: seq<DailyCandle>, i: nat)
    requires i < |h|
    ensures Closes(h)[i] == h[i].close
  {
    if i < |h| - 1 {
      ClosesAt(h[..|h| - 1], i);
    }
  }

  lemma {:induction false} RangesAt(h: seq<DailyCandle>, i: nat)
    requires i + 1 < |h|
    ensures TrueRanges(h)[i] == TrueRange(h[i + 1], h[i].close)
  {
    if i + 2 < |h| {
      RangesAt(h[..|h| - 1], i);
    }
  }

  lemma {:induction false} EmaStays(n: nat)
    requires n > 0
    ensures 100.0 <= Ema(QuietDays(n)).value <= 101.0
  {
    assert QuietDays(n)[..n - 1] == QuietDays(n - 1);
    if n > 1 {
      EmaStays(n - 1);
    }
  }

  lemma {:induction false} Extremes(xs: seq<real>, x: real)
    requires x in xs
    ensures MinOf(xs) <= x <= MaxOf(xs)
  {
    if |xs| > 1 && x in xs[1..] {
      Extremes(xs[1..], x);
    }
  }

  lemma {:induction false} MaxIsMember(xs: seq<real>)
    requires xs != []
    ensures MaxOf(xs) in xs
  {
    if |xs| > 1 {
      MaxIsMember(xs[1..]);
    }
  }

  lemma {:induction false} SumOfOnes(xs: seq<real>)
    requires forall i :: 0 <= i < |xs| ==> xs[i] == 1.0
    ensures Sum(xs) == |xs| as real
  {
    if xs != [] {
      SumOfOnes(xs[1..]);
    }
  }

  lemma {:induction false} NoOverlap(cs: seq<DailyCandle>)
    requires forall i :: 0 <= i && i + 1 < |cs| ==> Overlap(cs[i], cs[i + 1]) == 0.0
    ensures OverlapSum(cs) == 0.0
  {
    if |cs| > 1 {
      NoOverlap(cs[1..]);
    }
  }

  const N: nat := 120
  const T1: int := 121 * 86400
  const T2: int := 122 * 86400

  /** A day far above everything before it. */
  const Jump: DailyCandle := Candle(120 * 86400, 200.0, 200.0, 200.0, 200.0)

  /** A day back inside the old range. */
  const Back: DailyCandle := Candle(121 * 86400, 100.0, 100.0, 100.0, 100.0)

  lemma QuietWindows()
    ensures var h := QuietDays(N);
      && (forall x :: x in LastN(Closes(h), 20) ==> 100.0 <= x <= 101.0)
      && 100.0 in LastN(Closes(h), 20) && |LastN(TrueRanges(h), 14)| == 14
      && (forall i :: 0 <= i < 14 ==> LastN(TrueRanges(h), 14)[i] == 1.0)
  {
    var h := QuietDays(N);
    var closes, ranges := LastN(Closes(h), 20), LastN(TrueRanges(h), 14);
    forall i | 0 <= i < 20 ensures closes[i] == h[100 + i].close { ClosesAt(h, 100 + i); }
    forall i | 0 <= i < 14 ensures ranges[i] == 1.0 { RangesAt(h, 105 + i); }
    assert closes[0] == 100.0;
  }

  /** The jump is a breakout with structure, its boundary at the top of the quiet range. */
  lemma JumpBreaksOut() returns (c: Candidate)
    ensures CandidateOn(QuietDays(N), Jump) == Some(c)
    ensures c.side == 1 && c.structurePass && 100.0 <= c.boundary <= 101.0
  {
    var h := QuietDays(N);
    QuietWindows();
    EmaStays(N);
    SumOfOnes(LastN(TrueRanges(h), 14));
    MaxIsMember(LastN(Closes(h), 20));
    var last10 := LastN(h, 10);
    forall i | 0 <= i && i + 1 < |last10| ensures Overlap(last10[i], last10[i + 1]) == 0.0 {
      assert last10[i] == Quiet(110 + i) && last10[i + 1] == Quiet(111 + i);
    }
    NoOverlap(last10);
    hide MaxOf, MinOf, Sum, OverlapSum, Ema, Closes, TrueRanges, LastN, QuietDays, Overlap;
    c := CandidateOn(h, Jump).value;
  }

  /** Coming back is no breakout. */
  lemma BackIsQuiet()
    ensures CandidateOn(QuietDays(N) + [Jump], Back) == None
  {
    var h := QuietDays(N) + [Jump];
    var closes := LastN(Closes(h), 20);
    ClosesAt(h, 118);
    ClosesAt(h, 120);
    assert closes[17] == 100.0 && closes[19] == 200.0;
    Extremes(closes, 100.0);
    Extremes(closes, 200.0);
  }

  // ---- the machine over the three days ----

  function Seeded(): Machine { Warmup(Blank, QuietDays(N)).m }

  lemma SeedFollows()
    ensures var m := Seeded();
      && BuiltFrom(m, QuietDays(N)) && m.campaign == None && Restorable(m) && m.lastBarTs == Some(119 * DAY)
      && m.pendingExit == None && m.modelComplete && m.fundingAvailable
  {
    hide QuietDays;
    WarmupIs(QuietDays(N));
    FollowerIsRestorable(Seeded(), QuietDays(N));
    QuietEnds();
    hide Restorable, Folded;
    WarmupKeepsFlags(Blank, QuietDays(N));
  }

  lemma QuietEnds()
    ensures QuietDays(N)[N - 1].ts == 119 * DAY
  {
  }

  lemma {:induction false} WarmupKeepsFlags(m: Machine, h: seq<DailyCandle>)
    ensures var w := WarmupFrom(m, h).m;
      w.pendingExit == m.pendingExit && w.modelComplete == m.modelComplete && w.fundingAvailable == m.fundingAvailable
    decreases |h|
  {
    hide AppendIndicators, CandidateOf;
    if h != [] && IsNext(m, h[0].ts) {
      WarmupKeepsFlags(
        m.(pendingCandidate := CandidateOf(m.ind, h[0]), ind := AppendIndicators(m.ind, h[0]),
            lastBarTs := Some(h[0].ts)),
        h[1..]);
    }
  }

  /** The jump opens a modelled parent at the next open. */
  lemma JumpDay() returns (c: Candidate)
    ensures var s := CompleteAndApplyNextOpen(Seeded(), Jump, T1, 200.0, 0, Both);
      && s.out.Ok? && |s.out.value| == 2 && s.out.value[0].kind == Signal
      && var d := s.out.value[1];
      && d.kind == PaperParent && d.k == Some(0) && d.side == Some(1) && d.campaign == Some(CampaignId(T1, 1))
      && s.m == Seeded().(ind := AppendIndicators(Seeded().ind, Jump), lastBarTs := Some(120 * DAY),
                          campaign := s.m.campaign, pendingCandidate := None)
      && s.m.campaign == Some(Campaign(
           CampaignId(T1, 1), 1, c.boundary, T1, 0, 0.0, Paper, 1, [NewUnit(0, T1, Slip(200.0, 1), Paper)]))
    ensures 100.0 <= c.boundary <= 101.0
  {
    SeedFollows();
    c := JumpBreaksOut();
    CandidateRefines(QuietDays(N), Jump);
    hide Seeded, QuietDays, AppendIndicators, CandidateOf, Folded, CandidateOn, Restorable;
    assert IsNext(Seeded(), Jump.ts);
  }

  /** The day back ends the funded campaign at the next open, and opens nothing. */
  lemma BackDay(m: Machine, boundary: real, price: Price)
    requires m.ind == Folded(QuietDays(N) + [Jump]) && m.lastBarTs == Some(120 * DAY) && 100.0 <= boundary
    requires m.campaign == Some(Campaign(
               CampaignId(T1, 1), 1, boundary, T1, 0, 0.0, Live, 1, [Unit(0, T1, price, Live, None)]))
    ensures var s := CompleteAndApplyNextOpen(m, Back, T2, 100.0, 0, Both);
      && s.out.Ok? && |s.out.value| == 1 && s.out.value[0].kind == CampaignExit
      && s.m.campaign == None
  {
    BackIsQuiet();
    CandidateRefines(QuietDays(N) + [Jump], Back);
    hide QuietDays, AppendIndicators, CandidateOf, Folded, CandidateOn;
  }

  // ---- the engine ----

  lemma {:induction false} FollowsOneMore(e: Engine, script: seq<AdapterRuns.Act>, mid: Engine, act: AdapterRuns.Act)
    requires AdapterRuns.Follows(e, script, mid) && Enabled(mid, act)
    ensures AdapterRuns.Follows(e, script + [act], AdapterRuns.Next(mid, act))
    decreases |script|
  {
    hide Enabled, AdapterRuns.Next;
    if script == [] {
      assert (script + [act])[1..] == [];
    } else {
      assert (script + [act])[1..] == script[1..] + [act];
      FollowsOneMore(AdapterRuns.Next(e, script[0]), script[1..], mid, act);
    }
  }

  lemma OneMore(e: Engine, act: AdapterRuns.Act)
    requires Reachable(e) && Enabled(e, act)
    ensures Reachable(AdapterRuns.Next(e, act))
  {
    hide Enabled, AdapterRuns.Next;
    var script :| AdapterRuns.Follows(AdapterRuns.Initial, script, e);
    FollowsOneMore(AdapterRuns.Initial, script, e, act);
  }

  const Settings: Config := Config(true, Both)

  function SeedAdapter(): Adapter { Adapter(Seeded(), 0, None, {}, {}, None, []) }

  /** The first start of a seeded process that owns nothing. */
  lemma Started() returns (e: Engine)
    ensures Reachable(e) && e == Engine(Up(SeedAdapter(), map[], false, Settings, Idle), map[], {}, [], None)
  {
    SeedFollows();
    hide Seeded, Restorable, BuiltFrom;
    var act := Start(SeedAdapter(), Settings);
    assert AdapterRuns.Follows(AdapterRuns.Initial, [], AdapterRuns.Initial);
    assert Enabled(AdapterRuns.Initial, act);
    OneMore(AdapterRuns.Initial, act);
    e := AdapterRuns.Next(AdapterRuns.Initial, act);
    NothingToSettle(SeedAdapter());
  }

  lemma NothingToSettle(a: Adapter)
    requires a.machine.campaign == None && a.closing == {} && a.aborting == {} && a.pending == None && a.urgent == []
    requires a.closingCampaign == None
    ensures Reconciled(a, map[], []) == Acted(a, []) && OnStartup(a, map[]) == Acted(a, [])
  {
    var none: map<int, Held> := map[];
    assert {} * none.Keys == {};
  }

  /** Nothing waits, so a live day goes straight to its decisions. */
  lemma PlainDay(a: Adapter, c: DailyCandle, mirror: Owned)
    requires a.pending == None && a.urgent == [] && a.machine.lastBarTs == Some(c.ts - DAY)
    ensures var s := CompleteAndApplyNextOpen(a.machine, c, c.ts + DAY, c.close, a.activation, Both);
      OnDaily(a, c, false, mirror, Settings) ==
      if s.out.Err? then Raised(s.out.error) else Intents(a.(machine := s.m), s.out.value, mirror, Settings)
  {
    hide CompleteAndApplyNextOpen, Intents;
    assert a.(urgent := []) == a;
    assert Waiting(Controls(a, Settings), c.ts + DAY, mirror) == a;
    var s := CompleteAndApplyNextOpen(a.machine, c, c.ts + DAY, c.close, a.activation, Both);
    if s.out.Ok? {
      var r := Intents(a.(machine := s.m), s.out.value, mirror, Settings);
      assert r.Acted? ==> [] + r.intents == r.intents;
    }
  }

  const FILLED: Price := 200.0

  function FundedCampaign(boundary: real): Campaign {
    Campaign(CampaignId(T1, 1), 1, boundary, T1, 0, 0.0, Live, 1, [Unit(0, T1, FILLED, Live, None)])
  }

  /** The jump asks for the parent. */
  lemma JumpAsks() returns (c: Candidate)
    ensures 100.0 <= c.boundary <= 101.0
    ensures var r := OnDaily(SeedAdapter(), Jump, false, map[], Settings);
      && r.Acted? && r.intents == [Enter(0, 1, CampaignId(T1, 1))]
      && r.a == SeedAdapter().(machine := r.a.machine)
      && r.a.machine == Seeded().(ind := Folded(QuietDays(N) + [Jump]), lastBarTs := Some(120 * DAY),
                                  campaign := r.a.machine.campaign, pendingCandidate := None)
      && r.a.machine.campaign == Some(Campaign(
           CampaignId(T1, 1), 1, c.boundary, T1, 0, 0.0, Paper, 1, [NewUnit(0, T1, Slip(200.0, 1), Paper)]))
  {
    c := JumpDay();
    SeedFollows();
    FoldedAppend(QuietDays(N), Jump);
    hide Seeded, QuietDays, AppendIndicators, CandidateOf, Folded, CandidateOn, Restorable, CompleteAndApplyNextOpen;
    PlainDay(SeedAdapter(), Jump, map[]);
    var s := CompleteAndApplyNextOpen(Seeded(), Jump, T1, 200.0, 0, Both);
    TwoDecisions(SeedAdapter().(machine := s.m), s.out.value, map[], Settings);
  }

  lemma OneDecisionOnly(a: Adapter, ds: seq<Decision>, mirror: Owned, cfg: Config)
    requires |ds| == 1
    ensures Intents(a, ds, mirror, cfg) == IntentOf(a, ds[0], mirror, cfg)
  {
    hide EntryIntent;
    assert ds[1..] == [];
    var r := IntentOf(a, ds[0], mirror, cfg);
    assert r.Acted? ==> r.intents + [] == r.intents;
  }

  lemma TwoDecisions(a: Adapter, ds: seq<Decision>, mirror: Owned, cfg: Config)
    requires |ds| == 2 && ds[0].kind == Signal
    ensures Intents(a, ds, mirror, cfg) == IntentOf(a, ds[1], mirror, cfg)
  {
    OneDecisionOnly(a, ds[1..], mirror, cfg);
    hide EntryIntent;
    var rest := Intents(a, ds[1..], mirror, cfg);
    assert IntentOf(a, ds[0], mirror, cfg) == Acted(a, []);
    assert rest.Acted? ==> [] + rest.intents == rest.intents;
  }

  /** The fill makes the campaign live. */
  lemma FillFunds(a: Adapter, boundary: real)
    requires a.machine.campaign == Some(Campaign(
               CampaignId(T1, 1), 1, boundary, T1, 0, 0.0, Paper, 1, [NewUnit(0, T1, Slip(200.0, 1), Paper)]))
    requires a.pending == None
    ensures OnEntered(a, 0, FILLED) == Acted(a.(machine := a.machine.(campaign := Some(FundedCampaign(boundary)))), [])
  {
    var units := a.machine.campaign.value.units;
    assert units[0].k == 0 && HasK(units, 0) && FindK(units, 0) == units[0];
    assert Confirm(units, 0, T1, FILLED) == [Unit(0, T1, FILLED, Live, None)];
  }

  /** Whatever is listed and owned stays as it is at the end of a bar. */
  lemma BarEnds(a: Adapter, owned: Owned)
    requires a.aborting == {} && a.closing <= owned.Keys && (a.closing == {} ==> a.closingCampaign == None)
    ensures Reconcile(a, owned) == Acted(a, [])
  {
    assert a.closing * owned.Keys == a.closing;
  }

  const HELD: Owned := map[0 := Held(1, FILLED, T1)]

  /** A bar that asks for one thing leaves the engine submitting it. */
  lemma BarAsks(e: Engine, c: DailyCandle, i: Intent)
    requires InPhase(e, Idle)
    requires var r := OnDaily(e.process.a, c, false, e.process.mirror, e.process.cfg); r.Acted? && r.intents == [i]
    ensures Enabled(e, BarArrives(Daily(c), false, true))
    ensures var after := AdapterRuns.Next(e, BarArrives(Daily(c), false, true));
      var a := OnDaily(e.process.a, c, false, e.process.mirror, e.process.cfg).a;
      && after.process == Up(a, e.process.mirror, true, e.process.cfg, Submitting([i], true))
      && after.owned == e.owned && after.undelivered == e.undelivered && after.exits == e.exits
  {
    hide OnDaily, Persist;
  }

  /** The parent's fill. */
  lemma ParentFills(e: Engine, boundary: real)
    requires e.process.Up? && e.process.phase == Submitting([Enter(0, 1, CampaignId(T1, 1))], true) && e.owned == map[]
    requires e.process.a.pending == None && e.process.a.machine.campaign == Some(Campaign(
               CampaignId(T1, 1), 1, boundary, T1, 0, 0.0, Paper, 1, [NewUnit(0, T1, Slip(200.0, 1), Paper)]))
    ensures Enabled(e, Fill(FILLED, T1))
    ensures var after := AdapterRuns.Next(e, Fill(FILLED, T1));
      var a := e.process.a.(machine := e.process.a.machine.(campaign := Some(FundedCampaign(boundary))));
      && after.process == e.process.(a := a, phase := Submitting([], true))
      && after.owned == HELD && after.undelivered == e.undelivered && after.exits == e.exits
  {
    FillFunds(e.process.a, boundary);
    hide OnEntered;
    var intents := e.process.phase.intents;
    assert intents[1..] == [] && intents[1..] + [] == [];
  }

  /** The end of a bar that settled nothing. */
  lemma BarSaves(e: Engine)
    requires e.process.Up? && e.process.phase == Submitting([], true) && e.process.a.aborting == {}
    requires e.process.a.closing <= e.owned.Keys && (e.process.a.closing == {} ==> e.process.a.closingCampaign == None)
    ensures Enabled(e, AdapterRuns.Act.EndBar)
    ensures var after := AdapterRuns.Next(e, AdapterRuns.Act.EndBar);
      after == e.(process := e.process.(mirror := e.owned, phase := Idle), saved := Some(Persist(e.process.a)))
  {
    BarEnds(e.process.a, e.owned);
    hide Reconcile, Persist;
  }

  /** A funded parent, between two bars. */
  lemma Funded() returns (e: Engine, boundary: real)
    ensures Reachable(e) && InPhase(e, Idle) && e.owned == HELD && e.exits == {} && e.undelivered == []
    ensures e.process.mirror == HELD && e.process.cfg == Settings && 100.0 <= boundary <= 101.0
    ensures var a := e.process.a;
      && a == SeedAdapter().(machine := a.machine) && a.machine.campaign == Some(FundedCampaign(boundary))
      && a.machine.ind == Folded(QuietDays(N) + [Jump]) && a.machine.lastBarTs == Some(120 * DAY)
      && a.machine.pendingExit == None && a.machine.modelComplete && a.machine.fundingAvailable
  {
    var e0 := Started();
    SeedFollows();
    var c := JumpAsks();
    boundary := c.boundary;
    hide Reachable, Seeded, QuietDays, Folded, OnDaily, Enabled, AdapterRuns.Next, Persist, NewUnit;
    BarAsks(e0, Jump, Enter(0, 1, CampaignId(T1, 1)));
    OneMore(e0, BarArrives(Daily(Jump), false, true));
    var e1 := AdapterRuns.Next(e0, BarArrives(Daily(Jump), false, true));
    ParentFills(e1, boundary);
    OneMore(e1, Fill(FILLED, T1));
    var e2 := AdapterRuns.Next(e1, Fill(FILLED, T1));
    BarSaves(e2);
    OneMore(e2, AdapterRuns.Act.EndBar);
    e := AdapterRuns.Next(e2, AdapterRuns.Act.EndBar);
  }

  /** The day back lists the funded slot as closing. */
  lemma BackCloses(a: Adapter, boundary: real)
    requires a == SeedAdapter().(machine := a.machine) && a.machine.campaign == Some(FundedCampaign(boundary))
    requires a.machine.ind == Folded(QuietDays(N) + [Jump]) && a.machine.lastBarTs == Some(120 * DAY)
    requires 100.0 <= boundary
    ensures var r := OnDaily(a, Back, false, HELD, Settings);
      && r.Acted? && r.intents == [Leave(0, false)] && r.a.closing == {0} && r.a.aborting == {} && r.a.urgent == []
  {
    BackDay(a.machine, boundary, FILLED);
    hide Seeded, QuietDays, Folded, CompleteAndApplyNextOpen;
    PlainDay(a, Back, HELD);
    var s := CompleteAndApplyNextOpen(a.machine, Back, T2, 100.0, 0, Both);
    OneDecisionOnly(a.(machine := s.m), s.out.value, HELD, Settings);
    assert HELD.Keys == {0};
    assert Leaves({0}, false) == [Leave(0, false)];
  }

  /** The day back, and a close that fails. */
  lemma CloseFailed() returns (e: Engine)
    ensures Reachable(e) && e.process.Up? && e.process.phase == Submitting([], true) && e.owned == HELD
    ensures e.process.a.closing == {0} && e.process.a.aborting == {} && e.process.a.urgent == [] && e.undelivered == []
  {
    var e3, boundary := Funded();
    BackCloses(e3.process.a, boundary);
    hide Reachable, Seeded, QuietDays, Folded, OnDaily, Enabled, AdapterRuns.Next;
    BarAsks(e3, Back, Leave(0, false));
    OneMore(e3, BarArrives(Daily(Back), false, true));
    var e4 := AdapterRuns.Next(e3, BarArrives(Daily(Back), false, true));
    ExitFails(e4);
    OneMore(e4, NotExited(true));
    e := AdapterRuns.Next(e4, NotExited(true));
  }

  lemma ExitFails(e: Engine)
    requires e.process.Up? && e.process.phase == Submitting([Leave(0, false)], true) && 0 in e.owned
    ensures Enabled(e, NotExited(true))
    ensures var after := AdapterRuns.Next(e, NotExited(true));
      && after.owned == e.owned && after.undelivered == e.undelivered
      && after.process == e.process.(phase := Submitting([], true))
  {
    assert [Leave(0, false)][1..] == [];
  }

  /** A reachable idle engine whose snapshot lists a funded slot as closing: its close failed. */
  lemma ListedSlot() returns (e: Engine)
    ensures Reachable(e) && InPhase(e, Idle) && 0 in e.owned && e.saved.Some? && e.undelivered == []
    ensures StartingPoint(e, e.process.a).closing == {0}
  {
    var e5 := CloseFailed();
    hide Reachable, Persist, Enabled, AdapterRuns.Next;
    BarSaves(e5);
    OneMore(e5, AdapterRuns.Act.EndBar);
    e := AdapterRuns.Next(e5, AdapterRuns.Act.EndBar);
    SavedListed(e, e5.process.a);
  }

  lemma SavedListed(e: Engine, a: Adapter)
    requires Reachable(e) && e.saved == Some(Persist(a)) && e.process.Up? && e.process.a == a && a.urgent == []
    requires InPhase(e, Idle)
    ensures StartingPoint(e, a) == a
  {
    hide Reachable, Persist, Restored, Resumable;
    ReachableInv(e);
    SettledRestorable(a, e.owned, e.exits);
    BoundsOf(a, e.owned, e.exits);
    SavedBack(a);
    assert a.(urgent := []) == a;
  }

  lemma BoundsOf(a: Adapter, owned: Owned, exits: set<int>)
    requires Settled(a, owned, exits)
    ensures Restorable(a.machine) && a.closing <= SLOTS && a.aborting <= CHILDREN
  {
    hide Restorable;
  }

  /**
   The failing start happens: this run leads to a stopped process that no start, and nothing
   else, ever brings back.
   */
  lemma FatalStartHappens(ts: int, price: real) returns (e: Engine)
    ensures Reachable(e) && e.process.Down? && e.undelivered == [Event(0, ts, price, false)]
    ensures forall script, end :: AdapterRuns.Follows(e, script, end) ==> end == e
  {
    var idle := ListedSlot();
    var event := Event(0, ts, price, false);
    hide Reachable, Restored, Persist;
    assert EventKs([event]) == {0};
    assert Enabled(idle, VenueCloses([event]));
    OneMore(idle, VenueCloses([event]));
    var closed := AdapterRuns.Next(idle, VenueCloses([event]));
    OneMore(closed, AdapterRuns.Act.Crash);
    e := AdapterRuns.Next(closed, AdapterRuns.Act.Crash);
    assert [] + [event] == [event];
    forall script, end | AdapterRuns.Follows(e, script, end) ensures end == e {
      ClosureOfListedSlotIsFatal(idle, event, script, end);
    }
  }
}
