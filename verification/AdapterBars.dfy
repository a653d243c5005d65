/** What a bar does to the ownership of funded slots. */
module AdapterBars {
  import opened Common
  import opened CloseRange
  import opened CloseRangeProperties
  import Liquidation
  import opened Adapter
  import opened AdapterRuns
  import opened AdapterHooks

  // ---- what is left of the machine ----

  /** The campaign is the same but for its age. */
  predicate SameStack(m: Machine, m1: Machine) {
    if m.campaign.None? then m1.campaign.None?
    else
      && m1.campaign.Some?
      && m1.campaign.value == m.campaign.value.(heldDays := m1.campaign.value.heldDays,
                                                peakFavorable := m1.campaign.value.peakFavorable)
  }

  /** A closing observation changes an unowned campaign's age only; a historical one may shrink or end. */
  predicate Observed(m: Machine, m1: Machine) {
    && (!HasOrigin(m, Historical) ==> SameStack(m, m1))
    && (HasOrigin(m, Historical) ==> m1.campaign.None? || HasOrigin(m1, Historical))
  }

  lemma PricesObserve(m: Machine, ts: int, opening: real, low: real, high: real)
    requires Restorable(m)
    ensures var s := ObservePrices(m, ts, opening, low, high);
      Restorable(s.m) && Observed(m, s.m) && s.m.lastBarTs == m.lastBarTs
      && (!HasOrigin(m, Historical) ==> s == Step(m, Ok([])))
  {
    PricesShrink(m, ts, opening, low, high);
  }

  /** Signals and the exits of unowned units: nothing that an adapter acts on. */
  predicate Quiet(ds: seq<Decision>) {
    forall d :: d in ds ==> d.kind !in {PaperParent, PaperAddon, CampaignExit}
  }

  lemma {:induction false} CloseChildrenQuiet(m: Machine, units: seq<Unit>, ts: int, price: real, opening: real)
    requires Evidenced(units)
    ensures var s := CloseChildren(m, units, ts, price, opening); s.out.Ok? ==> Quiet(s.out.value)
    decreases |units|
  {
    if units != [] {
      if units[0].k == 0 {
        CloseChildrenQuiet(m, units[1..], ts, price, opening);
      } else if m.campaign.Some? {
        CloseChildrenQuiet(ForgetClosedChild(m, units[0].k).m, units[1..], ts, price, opening);
      }
    }
  }

  lemma {:induction false} CascadeQuiet(m: Machine, hits: seq<HitAt>, ts: int, opening: real)
    requires m.campaign.Some? && Evidenced(m.campaign.value.units)
    ensures var s := Cascade(m, hits, ts, opening); s.out.Ok? ==> Quiet(s.out.value)
    decreases |hits|
  {
    if hits != [] {
      if hits[0].k == 0 {
        CloseChildrenQuiet(m, m.campaign.value.units, ts, hits[0].price, opening);
      } else {
        var s := ForgetClosedChild(m, hits[0].k);
        if s.out.Ok? {
          RemoveKeeps(m.campaign.value.units, hits[0].k);
          CascadeQuiet(s.m, hits[1..], ts, opening);
        }
      }
    }
  }

  lemma CloseObserves(m: Machine, c: DailyCandle)
    requires Restorable(m) && ObserveClose(m, c).out.Ok?
    ensures var s := ObserveClose(m, c);
      Restorable(s.m) && Observed(m, s.m) && Quiet(s.out.value) && s.m.lastBarTs == Some(c.ts)
      && s.m.modelComplete == m.modelComplete && s.m.fundingAvailable == m.fundingAvailable
  {
    ObserveCloseKeeps(m, c);
    PricesShrink(m, c.ts, c.open, c.low, c.high);
    PricesObserve(m, c.ts, c.open, c.low, c.high);
    if Observes(m, c.ts) && Evidenced(m.campaign.value.units) {
      var side := m.campaign.value.side;
      CascadeQuiet(
        m.(lastPriceTs := Some(c.ts)),
        Sorted(side, HitsOf(side, m.campaign.value.units, c.open, Adverse(side, c.low, c.high))), c.ts, c.open);
    }
    hide AppendIndicators, CandidateOf, Cascade;
  }

  // ---- intents over a list of decisions ----

  lemma {:induction false} QuietIntents(a: Adapter, quiet: seq<Decision>, ds: seq<Decision>, mirror: Owned, cfg: Config)
    requires Quiet(quiet)
    ensures Intents(a, quiet + ds, mirror, cfg) == Intents(a, ds, mirror, cfg)
    ensures WarmupDecisions(a, quiet + ds, mirror) == WarmupDecisions(a, ds, mirror)
    decreases |quiet|
  {
    if quiet == [] {
      assert quiet + ds == ds;
    } else {
      assert (quiet + ds)[1..] == quiet[1..] + ds;
      assert quiet[0] in quiet;
      QuietIntents(a, quiet[1..], ds, mirror, cfg);
    }
  }

  // ---- what an open can do ----

  predicate OpenedParent(m: Machine, d: Decision, ts: int) {
    && d.kind == PaperParent && d.k == Some(0) && WholeParent(d) && d.ts == ts && FreshParent(m)
    && d.campaign == Some(m.campaign.value.id) && d.side == Some(m.campaign.value.side)
    && m.campaign.value.id.openTs == ts
  }

  /** The campaign before the add-on decision, which appended one modelled unit. */
  predicate OpenedAddon(c: Campaign, m: Machine, d: Decision) {
    && d.kind == PaperAddon && d.k == Some(c.lifetimeUnits) && d.campaign == Some(c.id) && d.side == Some(c.side)
    && m.campaign.Some? && |m.campaign.value.units| == |c.units| + 1
    && m.campaign.value == c.(lifetimeUnits := c.lifetimeUnits + 1, units := m.campaign.value.units)
    && m.campaign.value.units[..|c.units|] == c.units
    && m.campaign.value.units[|c.units|].k == c.lifetimeUnits && m.campaign.value.units[|c.units|].origin == Paper
  }

  /** What follows the exit at an open: nothing the adapter acts on, a parent, or an add-on. */
  predicate OpenOutcome(before: Option<Campaign>, m: Machine, ds: seq<Decision>, ts: int, activation: int) {
    || (Quiet(ds) && (m.campaign == before || (before.None? && HasOrigin(m, Historical) && ts < activation)
                      || (before.Some? && before.value.origin == Historical && HasOrigin(m, Historical))))
    || (|ds| == 1 && before.None? && ts >= activation && OpenedParent(m, ds[0], ts))
    || (|ds| == 1 && before.Some? && before.value.origin != Historical && OpenedAddon(before.value, m, ds[0]))
  }

  function AfterExit(m: Machine): Option<Campaign> {
    if m.pendingExit.Some? then None else m.campaign
  }

  function ExitDs(m: Machine, ts: int, open: Price): seq<Decision>
    requires ExitAtOpen(m, ts, open).out.Ok?
  {
    ExitAtOpen(m, ts, open).out.value
  }

  /** The decisions of an open: the exit's, then those of the candidate. */
  lemma OpenSplits(m: Machine, ts: int, open: Price, activation: int, mode: DirectionMode) returns (ds: seq<Decision>)
    requires Restorable(m) && ApplyOpen(m, ts, open, activation, mode).out.Ok?
    ensures var o := ApplyOpen(m, ts, open, activation, mode);
      && o.out.value == ExitDs(m, ts, open) + ds
      && OpenOutcome(AfterExit(m), o.m, ds, ts, activation)
      && Restorable(o.m) && o.m.lastBarTs == m.lastBarTs
      && o.m.modelComplete == m.modelComplete && o.m.fundingAvailable == m.fundingAvailable
  {
    hide Restorable;
    ApplyOpenKeeps(m, ts, open, activation, mode);
    var exit := ExitAtOpen(m, ts, open);
    var m1 := exit.m.(pendingCandidate := None);
    if m.pendingCandidate.None? {
      ds := [];
    } else if m1.campaign.None? {
      ds := OpenParent(m1, m.pendingCandidate.value, RecoveredSide(m), ts, open, activation, mode).out.value;
    } else {
      ds := OpenAddon(m1, m.pendingCandidate.value, ts, open, mode).out.value;
    }
  }

  // ---- acting on the decisions ----

  function Flat(a: Adapter): Adapter {
    a.(machine := a.machine.(campaign := None))
  }

  predicate InMirror(owned: Owned, mirror: Owned) {
    forall k :: k in owned ==> k in mirror && mirror[k] == owned[k]
  }

  /** A new parent is entered only when nothing is owned or being closed; otherwise it waits or is dropped. */
  lemma ParentIntents(a: Adapter, d: Decision, ts: int, mirror: Owned, cfg: Config, owned: Owned, exits: set<int>)
    requires OpenedParent(a.machine, d, ts) && Restorable(a.machine) && Settled(Flat(a), owned, exits)
    requires a.pending == None && a.urgent == [] && InMirror(owned, mirror)
    requires mirror.Keys <= owned.Keys + a.closing + a.aborting
    requires a.machine.lastBarTs == Some(ts - DAY) && ts >= a.activation
    ensures var r := EntryIntent(a, d, mirror, cfg);
      && r.Acted? && r.a.urgent == [] && r.a.closing == a.closing && r.a.aborting == a.aborting
      && if r.intents == [] then Settled(r.a, owned, exits) && !HasOrigin(r.a.machine, Paper)
         else |r.intents| == 1 && Entering(r.a, owned, exits, r.intents[0]) && owned == map[]
  {
    hide Restorable, TooFar, KsOf;
    assert owned.Keys <= a.closing;
    if a.closing == {} {
      assert owned == map[];
      assert a.aborting == {} ==> mirror.Keys == {};
    }
  }

  lemma ParentTakenBack(a: Adapter, d: Decision, ts: int, owned: Owned, exits: set<int>)
    requires OpenedParent(a.machine, d, ts) && Settled(Flat(a), owned, exits)
    ensures var r := TakeBack(a, d);
      r.Acted? && Settled(r.a, owned, exits) && !HasOrigin(r.a.machine, Paper) && r.intents == []
  {
    hide Restorable, TooFar, KsOf;
  }

  /** The state in which the machine has just modelled an add-on of a live campaign. */
  predicate WithAddon(a: Adapter, before: Adapter, d: Decision, owned: Owned, exits: set<int>) {
    && Settled(before, owned, exits) && HasOrigin(before.machine, Live) && Restorable(a.machine)
    && OpenedAddon(before.machine.campaign.value, a.machine, d)
    && a == before.(machine := a.machine)
    && a.machine.lastBarTs == before.machine.lastBarTs
  }

  lemma AddonShape(a: Adapter, before: Adapter, d: Decision, owned: Owned, exits: set<int>)
    requires WithAddon(a, before, d, owned, exits)
    ensures d.k.Some? && d.k.value > 0 && PaperLast(a.machine, d.k.value) && LiveButLast(a.machine)
    ensures Ks(a.machine) == Ks(before.machine) + {d.k.value} && d.k.value !in Ks(before.machine)
  {
    hide TooFar, KsOf;
    var c, units := before.machine.campaign.value, Units(a.machine);
    LiveUnitsAreKs(before.machine);
    LiveUnitsAreKs(a.machine);
    forall x ensures x in KsOf(units) <==> x in KsOf(c.units) || x == d.k.value {
      KsAt(units, x);
      KsAt(c.units, x);
      if i :| 0 <= i < |c.units| && c.units[i].k == x {
        assert units[i].k == x;
      }
    }
    KsAt(c.units, d.k.value);
    forall i | 0 <= i < |units| ensures units[i].origin == Live || PaperLast(a.machine, units[i].k) {
      if i < |c.units| {
        assert units[i] == c.units[i] && c.units[i] in c.units;
      }
    }
  }

  lemma AddonDropped(a: Adapter, before: Adapter, d: Decision, owned: Owned, exits: set<int>)
    requires WithAddon(a, before, d, owned, exits)
    ensures var r := DropAddon(a, d.k.value);
      r.Acted? && Settled(r.a, owned, exits) && r.a.urgent == a.urgent && HasOrigin(r.a.machine, Live)
          && r.intents == []
  {
    hide TooFar, KsOf;
    AddonShape(a, before, d, owned, exits);
    DiscardedUnits(a.machine, d.k.value);
    var r := DropAddon(a, d.k.value);
    hide Restorable, DiscardUnfilledAddon, LiveButLast, PaperLast, OpenedAddon, AllLive;
    assert Ks(r.a.machine) == Ks(before.machine);
    assert SidesAgree(r.a.machine, owned);
    LiveSettled(r.a, owned, exits);
  }

  lemma AddonIntents(a: Adapter, before: Adapter, d: Decision, mirror: Owned, cfg: Config, owned: Owned,
      exits: set<int>)
    requires WithAddon(a, before, d, owned, exits) && before.urgent == []
    requires InMirror(owned, mirror) && mirror.Keys <= owned.Keys + a.closing + a.aborting
    ensures var r := EntryIntent(a, d, mirror, cfg);
      && r.Acted? && r.a.urgent == [] && r.a.closing == a.closing && r.a.aborting == a.aborting
      && if r.intents == [] then Settled(r.a, owned, exits) && HasOrigin(r.a.machine, Live)
         else |r.intents| == 1 && Entering(r.a, owned, exits, r.intents[0]) && r.a.aborting == {}
  {
    hide TooFar, KsOf;
    AddonShape(a, before, d, owned, exits);
    AddonDropped(a, before, d, owned, exits);
    hide Restorable, DropAddon, LiveButLast;
    if a.aborting == {} {
      assert mirror.Keys == owned.Keys;
      assert Ks(before.machine) == owned.Keys;
    }
  }

  // ---- a completed day ----

  /** A live bar leaves a settled adapter, or one that is about to enter with its last intent. */
  predicate LiveBarOk(a: Adapter, intents: seq<Intent>, owned: Owned, exits: set<int>) {
    && a.urgent == [] && LeavesOk(a, owned, intents)
    && if NoEntry(intents) then Settled(a, owned, exits)
       else NoEntry(intents[..|intents| - 1]) && Entering(a, owned, exits, intents[|intents| - 1])
  }

  lemma ObservedSettles(a: Adapter, m1: Machine, owned: Owned, exits: set<int>)
    requires Settled(a, owned, exits) && Restorable(m1) && Observed(a.machine, m1) && m1.lastBarTs.Some?
    requires a.machine.lastBarTs.Some? ==> a.machine.lastBarTs.value <= m1.lastBarTs.value
    ensures Settled(a.(machine := m1), owned, exits)
    ensures HasOrigin(m1, Paper) ==> HasOrigin(a.machine, Paper)
  {
    hide Restorable, TooFar, KsOf;
  }

  /** The state after the exit decision, before the candidate's. */
  function Exited(a: Adapter, m1: Machine, mirror: Owned): Adapter {
    if m1.campaign.Some? && m1.pendingExit.Some? && m1.campaign.value.origin != Historical
    then a.(closingCampaign := Some(m1.campaign.value.id), closing := a.closing + mirror.Keys) else a
  }

  function ExitLeaves(m1: Machine, mirror: Owned): seq<Intent> {
    if m1.campaign.Some? && m1.pendingExit.Some? && m1.campaign.value.origin != Historical
    then Leaves(mirror.Keys, false) else []
  }

  lemma ExitIntents(a: Adapter, m1: Machine, ts: int, open: Price, ds: seq<Decision>, mirror: Owned, cfg: Config)
    requires ExitAtOpen(m1, ts, open).out.Ok?
    ensures var rest := Intents(Exited(a, m1, mirror), ds, mirror, cfg);
      Intents(a, ExitDs(m1, ts, open) + ds, mirror, cfg)
      == if rest.Raised? then rest else Acted(rest.a, ExitLeaves(m1, mirror) + rest.intents)
  {
    hide EntryIntent, Leaves;
    var xs := ExitDs(m1, ts, open);
    if xs == [] {
      assert xs + ds == ds;
    } else {
      assert (xs + ds)[1..] == ds;
    }
    var rest := Intents(Exited(a, m1, mirror), ds, mirror, cfg);
    if rest.Acted? {
      assert [] + rest.intents == rest.intents;
    }
  }

  lemma FlatSettles(a: Adapter, m1: Machine, m2: Machine, mirror: Owned, owned: Owned, exits: set<int>)
    requires Settled(a.(machine := m1), owned, exits) && InMirror(owned, mirror)
    requires mirror.Keys <= owned.Keys + a.closing + a.aborting
    requires AfterExit(m1).None? && Restorable(m2) && m2.lastBarTs == m1.lastBarTs
    ensures Settled(Flat(Exited(a.(machine := m2), m1, mirror)), owned, exits)
    ensures mirror.Keys <= owned.Keys + Exited(a, m1, mirror).closing + a.aborting
  {
    hide Restorable, TooFar, KsOf;
    assert Restorable(m2.(campaign := None)) by {
      FlatRestorable(m2);
    }
  }

  lemma FlatRestorable(m: Machine)
    requires Restorable(m)
    ensures Restorable(m.(campaign := None))
  {
  }

  lemma OneIntent(a: Adapter, d: Decision, mirror: Owned, cfg: Config)
    ensures Intents(a, [d], mirror, cfg) == IntentOf(a, d, mirror, cfg)
    ensures WarmupDecisions(a, [d], mirror).Raised? == WarmupDecision(a, d, mirror).Raised?
    ensures WarmupDecision(a, d, mirror).Acted? ==>
        WarmupDecisions(a, [d], mirror) == Acted(WarmupDecision(a, d, mirror).a, [])
  {
    hide EntryIntent, Leaves, TakeBack;
    var first := IntentOf(a, d, mirror, cfg);
    if first.Acted? {
      assert first.intents + [] == first.intents;
      assert [d][1..] == [];
    }
  }

  lemma SwapRestorable(m: Machine, m1: Machine)
    requires Restorable(m) && Restorable(m1)
    ensures Restorable(m.(campaign := m1.campaign))
  {
  }

  /** x is the adapter after the exit decision of an open, with the open's final machine. */
  predicate AfterExitState(x: Adapter, a: Adapter, m1: Machine, ts: int, owned: Owned, exits: set<int>) {
    && Settled(a.(machine := m1), owned, exits) && !HasOrigin(m1, Paper)
    && Restorable(x.machine) && x.machine.lastBarTs == m1.lastBarTs == Some(ts - DAY) && x.activation == a.activation
    && if AfterExit(m1).None? then Settled(Flat(x), owned, exits) else x == a.(machine := x.machine)
  }

  /** No candidate, a refusal, or modelled history: the exit alone decides. */
  lemma QuietOpenSettles(
    x: Adapter, a: Adapter, m1: Machine, ts: int, owned: Owned, exits: set<int>, ds: seq<Decision>)
    requires AfterExitState(x, a, m1, ts, owned, exits)
    requires Quiet(ds) && OpenOutcome(AfterExit(m1), x.machine, ds, ts, a.activation)
    ensures Settled(x, owned, exits) && !HasOrigin(x.machine, Paper)
  {
    hide Restorable, TooFar, KsOf;
    assert ds != [] ==> ds[0] in ds;
    if AfterExit(m1).None? && x.machine.campaign.None? {
      assert Flat(x) == x;
    }
  }

  lemma LoudOpenActs(
    x: Adapter, a: Adapter, m1: Machine, ts: int, mirror: Owned, owned: Owned, exits: set<int>, d: Decision,
        cfg: Config)
    requires AfterExitState(x, a, m1, ts, owned, exits) && InMirror(owned, mirror)
    requires x.pending == None && x.urgent == [] && mirror.Keys <= owned.Keys + x.closing + x.aborting
    requires OpenOutcome(AfterExit(m1), x.machine, [d], ts, a.activation) && !Quiet([d])
    ensures var r := IntentOf(x, d, mirror, cfg);
      && r.Acted? && r.a.urgent == [] && r.a.closing == x.closing && r.a.aborting == x.aborting
      && (if r.intents == [] then Settled(r.a, owned, exits)
          else |r.intents| == 1 && Entering(r.a, owned, exits, r.intents[0]))
  {
    hide Restorable, TooFar, KsOf;
    if AfterExit(m1).None? {
      hide Settled, Entering;
      ParentIntents(x, d, ts, mirror, cfg, owned, exits);
    } else {
      BeforeAddon(x, a, m1, ts, owned, exits);
      hide Settled, Entering;
      AddonIntents(x, x.(machine := x.machine.(campaign := m1.campaign)), d, mirror, cfg, owned, exits);
    }
  }

  lemma BeforeAddon(x: Adapter, a: Adapter, m1: Machine, ts: int, owned: Owned, exits: set<int>)
    requires AfterExitState(x, a, m1, ts, owned, exits) && AfterExit(m1).Some?
    ensures Settled(x.(machine := x.machine.(campaign := m1.campaign)), owned, exits)
  {
    SwapRestorable(x.machine, m1);
    hide Restorable, TooFar, KsOf;
  }

  lemma LoudOpenTakenBack(
    x: Adapter, a: Adapter, m1: Machine, ts: int, mirror: Owned, owned: Owned, exits: set<int>, d: Decision)
    requires AfterExitState(x, a, m1, ts, owned, exits)
    requires OpenOutcome(AfterExit(m1), x.machine, [d], ts, a.activation) && !Quiet([d])
    ensures var r := WarmupDecision(x, d, mirror);
      r.Acted? && Settled(r.a, owned, exits) && !HasOrigin(r.a.machine, Paper)
  {
    hide Restorable, TooFar, KsOf;
    if AfterExit(m1).None? {
      hide Settled;
      ParentTakenBack(x, d, ts, owned, exits);
    } else {
      BeforeAddon(x, a, m1, ts, owned, exits);
      hide Settled;
      AddonDropped(x, x.(machine := x.machine.(campaign := m1.campaign)), d, owned, exits);
    }
  }

  /** The live decisions of one completed day. */
  lemma OpenActs(
    a: Adapter, m1: Machine, ts: int, open: Price, mirror: Owned, cfg: Config, owned: Owned, exits: set<int>)
    requires Settled(a.(machine := m1), owned, exits) && !HasOrigin(m1, Paper) && a.pending == None && a.urgent == []
    requires InMirror(owned, mirror) && mirror.Keys <= owned.Keys + a.closing + a.aborting
    requires m1.lastBarTs == Some(ts - DAY) && ApplyOpen(m1, ts, open, a.activation, cfg.mode).out.Ok?
    ensures var o := ApplyOpen(m1, ts, open, a.activation, cfg.mode);
      var r := Intents(a.(machine := o.m), o.out.value, mirror, cfg);
      r.Acted? && LiveBarOk(r.a, r.intents, owned, exits) && a.closing <= r.a.closing && a.aborting == r.a.aborting
  {
    var o := ApplyOpen(m1, ts, open, a.activation, cfg.mode);
    var ds := OpenSplits(m1, ts, open, a.activation, cfg.mode);
    var x := Exited(a.(machine := o.m), m1, mirror);
    if AfterExit(m1).None? {
      FlatSettles(a, m1, o.m, mirror, owned, exits);
    }
    assert AfterExitState(x, a, m1, ts, owned, exits);
    ExitIntents(a.(machine := o.m), m1, ts, open, ds, mirror, cfg);
    assert LeavesOk(x, owned, ExitLeaves(m1, mirror)) && NoEntry(ExitLeaves(m1, mirror)) by {
      MirrorInSlots(a.(machine := m1), owned, exits, mirror);
      LeavesMembers(mirror.Keys, false);
    }
    assert a.closing <= x.closing;
    assert mirror.Keys <= owned.Keys + x.closing + x.aborting;
    hide Settled, Entering, ApplyOpen, ExitDs, Exited, ExitLeaves, OpenOutcome, AfterExitState, Flat;
    if Quiet(ds) {
      QuietOpenSettles(x, a, m1, ts, owned, exits, ds);
      QuietIntents(x, ds, [], mirror, cfg);
      assert ds + [] == ds;
    } else {
      OneDecision(AfterExit(m1), o.m, ds, ts, a.activation);
      LoudOpenActs(x, a, m1, ts, mirror, owned, exits, ds[0], cfg);
      OneIntent(x, ds[0], mirror, cfg);
    }
    AppendEntry(x, ExitLeaves(m1, mirror), Intents(x, ds, mirror, cfg), owned, exits);
  }

  lemma OneDecision(before: Option<Campaign>, m: Machine, ds: seq<Decision>, ts: int, activation: int)
    requires OpenOutcome(before, m, ds, ts, activation) && !Quiet(ds)
    ensures ds == [ds[0]]
  {
  }

  lemma MirrorInSlots(a: Adapter, owned: Owned, exits: set<int>, mirror: Owned)
    requires Settled(a, owned, exits) && mirror.Keys <= owned.Keys + a.closing + a.aborting
    ensures mirror.Keys <= SLOTS
  {
  }

  /** Exits followed by at most one entry. */
  lemma AppendEntry(x: Adapter, leaves: seq<Intent>, r: Acted, owned: Owned, exits: set<int>)
    requires LeavesOk(x, owned, leaves) && NoEntry(leaves) && r.Acted? && r.a.urgent == []
    requires r.a.closing == x.closing && r.a.aborting == x.aborting
    requires if r.intents == [] then Settled(r.a, owned, exits)
             else |r.intents| == 1 && Entering(r.a, owned, exits, r.intents[0])
    ensures LiveBarOk(r.a, leaves + r.intents, owned, exits)
  {
    hide Settled;
    var all := leaves + r.intents;
    if r.intents == [] {
      assert all == leaves;
    } else {
      assert all[..|all| - 1] == leaves && all[|all| - 1] == r.intents[0] && r.intents[0] in all;
      assert r.intents[0].Enter?;
    }
  }

  // ---- a waiting reversal ----

  lemma AbandonSettles(a: Adapter, owned: Owned, exits: set<int>)
    requires Settled(a, owned, exits)
    ensures Settled(AbandonReversal(a), owned, exits) && AbandonReversal(a).pending == None
    ensures !HasOrigin(AbandonReversal(a).machine, Paper)
    ensures AbandonReversal(a) == a.(machine := AbandonReversal(a).machine, pending := None)
    ensures AbandonReversal(a).machine == a.machine.(campaign := AbandonReversal(a).machine.campaign)
  {
    FlatRestorable(a.machine);
    hide Restorable, TooFar, KsOf;
  }

  lemma WaitingSettles(a: Adapter, ts: int, mirror: Owned, owned: Owned, exits: set<int>)
    requires Settled(a, owned, exits) && InMirror(owned, mirror)
    ensures var w := Waiting(a, ts, mirror);
      && Settled(w, owned, exits) && w == a.(machine := w.machine, pending := w.pending)
      && w.machine == a.machine.(campaign := w.machine.campaign)
      && (ReversalExpired(a, ts) ==> w.pending == None)
      && (ReversalDue(a, ts, mirror) && a.urgent == [] ==>
            && w.pending == a.pending && a.pending.Some?
            && Entering(w, owned, exits, Enter(0, a.pending.value.side, a.pending.value.id)))
  {
    AbandonSettles(a, owned, exits);
    if ReversalDue(a, ts, mirror) {
      assert owned == map[];
      RestoredReversal(a);
    }
    hide Restorable, TooFar, KsOf;
  }

  lemma RestoredReversal(a: Adapter)
    requires a.pending.Some? && Restorable(a.machine)
    ensures Restorable(RestoreReversal(a).machine)
  {
  }

  lemma ControlsSettle(a: Adapter, cfg: Config, owned: Owned, exits: set<int>)
    requires Settled(a, owned, exits)
    ensures var w := Controls(a, cfg);
      && Settled(w, owned, exits) && w == a.(machine := w.machine, pending := w.pending)
      && w.machine == a.machine.(campaign := w.machine.campaign)
  {
    hide Settled, AbandonReversal;
    AbandonSettles(a, owned, exits);
    if !cfg.entriesEnabled {
      AbandonSettles(AbandonReversal(a), owned, exits);
    }
  }

  lemma UrgentLeaves(a: Adapter, owned: Owned)
    requires UrgentOk(a, owned)
    ensures LeavesOk(a, owned, a.urgent) && NoEntry(a.urgent)
    ensures UrgentOk(a.(urgent := []), owned)
  {
  }

  lemma PrependLeaves(a: Adapter, leaves: seq<Intent>, intents: seq<Intent>, owned: Owned, exits: set<int>)
    requires LiveBarOk(a, intents, owned, exits) && NoEntry(leaves) && LeavesOk(a, owned, leaves)
    ensures LiveBarOk(a, leaves + intents, owned, exits)
  {
    hide Settled, Entering;
    var all := leaves + intents;
    assert forall i :: i in all <==> i in leaves || i in intents;
    if !NoEntry(intents) {
      assert intents != [];
      assert all[..|all| - 1] == leaves + intents[..|intents| - 1];
      assert all[|all| - 1] == intents[|intents| - 1];
    }
  }

  // ---- bars ----

  /** A live minute: exits that are due, and a reversal when everything is flat. */
  lemma MinuteActs(a: Adapter, b: Bar, mirror: Owned, cfg: Config, owned: Owned, exits: set<int>)
    requires Settled(a, owned, exits) && MirrorOk(a, mirror, owned) && b.Minute?
    ensures var r := OnMinute(a, b, false, mirror, cfg);
      r.Acted? ==> LiveBarOk(r.a, r.intents, owned, exits)
  {
    var s := ObservePrices(a.machine, b.ts, b.open, b.low, b.high);
    PricesObserve(a.machine, b.ts, b.open, b.low, b.high);
    var a0 := a.(machine := s.m, urgent := []);
    assert Settled(a0, owned, exits) by {
      MinuteSettles(a, s.m, owned, exits);
    }
    UrgentLeaves(a, owned);
    hide ObservePrices;
    ControlsSettle(a0, cfg, owned, exits);
    var a1 := Controls(a0, cfg);
    WaitingSettles(a1, b.ts, mirror, owned, exits);
    var a2 := Waiting(a1, b.ts, mirror);
    var aborts := Leaves(a1.aborting * mirror.Keys - a1.closing, true);
    LeavesMembers(a1.aborting * mirror.Keys - a1.closing, true);
    hide Controls, Waiting, Leaves, Settled, Entering, ReversalDue;
    if s.out.Ok? {
      var notes := Notes(|s.out.value|);
      var leaves := a.urgent + notes + aborts;
      MinuteLeaves(a2, owned, a.urgent, notes, aborts);
      if ReversalDue(a1, b.ts, mirror) {
        AppendEntry(a2, leaves, Acted(a2, [Enter(0, a1.pending.value.side, a1.pending.value.id)]), owned, exits);
      } else {
        AppendEntry(a2, leaves, Acted(a2, []), owned, exits);
        assert leaves + [] == leaves;
      }
    }
  }

  lemma MinuteLeaves(a: Adapter, owned: Owned, urgent: seq<Intent>, notes: seq<Intent>, aborts: seq<Intent>)
    requires NoEntry(urgent) && LeavesOk(a, owned, urgent)
    requires forall i :: i in notes ==> i == Note
    requires forall i :: i in aborts ==> i.Leave? && i.abort && i.k in a.aborting
    ensures NoEntry(urgent + notes + aborts) && LeavesOk(a, owned, urgent + notes + aborts)
  {
  }

  lemma MinuteSettles(a: Adapter, m1: Machine, owned: Owned, exits: set<int>)
    requires Settled(a, owned, exits) && Restorable(m1) && Observed(a.machine, m1)
    requires m1.lastBarTs == a.machine.lastBarTs
    ensures Settled(a.(machine := m1, urgent := []), owned, exits) && Settled(a.(machine := m1), owned, exits)
    ensures HasOrigin(m1, Paper) ==> HasOrigin(a.machine, Paper)
  {
    hide Restorable, TooFar, KsOf;
  }

  /** By the next completed day a waiting reversal has expired. */
  lemma ExpiredByNextDay(a: Adapter, c: DailyCandle, owned: Owned, exits: set<int>)
    requires Settled(a, owned, exits) && a.pending.Some? && IsNext(a.machine, c.ts)
    ensures ReversalExpired(a, c.ts + DAY)
  {
    hide Restorable, TooFar, KsOf;
  }

  /** Before a live day's decisions: urgent exits are taken along, and a waiting reversal is gone. */
  lemma DayServed(a: Adapter, c: DailyCandle, mirror: Owned, cfg: Config, owned: Owned, exits: set<int>)
    requires Settled(a, owned, exits) && MirrorOk(a, mirror, owned)
    ensures var a1 := Waiting(Controls(a.(urgent := []), cfg), c.ts + DAY, mirror);
      && Settled(a1, owned, exits) && MirrorOk(a1, mirror, owned) && a1.urgent == []
      && LeavesOk(a1, owned, a.urgent) && NoEntry(a.urgent)
      && (IsNext(a1.machine, c.ts) ==> a1.pending == None)
  {
    hide Restorable, TooFar, KsOf, Settled, Controls, Waiting;
    var a0 := a.(urgent := []);
    SettledUrgent(a, owned, exits);
    UrgentLeaves(a, owned);
    UrgentDropped(a, owned, exits);
    ControlsSettle(a0, cfg, owned, exits);
    var w := Controls(a0, cfg);
    WaitingSettles(w, c.ts + DAY, mirror, owned, exits);
    if w.pending.Some? && IsNext(w.machine, c.ts) {
      ExpiredByNextDay(w, c, owned, exits);
    }
    WaitingKeepsNone(w, c.ts + DAY, mirror);
  }

  lemma WaitingKeepsNone(a: Adapter, ts: int, mirror: Owned)
    ensures a.pending == None ==> Waiting(a, ts, mirror).pending == None
  {
  }

  lemma SettledUrgent(a: Adapter, owned: Owned, exits: set<int>)
    requires Settled(a, owned, exits)
    ensures UrgentOk(a, owned)
  {
    hide Restorable, UrgentOk;
  }

  /** A completed day, live: exits, at most one entry, or a parent that waits for the closes. */
  lemma DailyActs(a: Adapter, c: DailyCandle, mirror: Owned, cfg: Config, owned: Owned, exits: set<int>)
    requires Settled(a, owned, exits) && MirrorOk(a, mirror, owned)
    ensures var r := OnDaily(a, c, false, mirror, cfg);
      r.Acted? ==> LiveBarOk(r.a, r.intents, owned, exits)
  {
    hide Restorable, Settled, MirrorOk, Intents, Controls, Waiting;
    var ts := c.ts + DAY;
    DayServed(a, c, mirror, cfg, owned, exits);
    var a1 := Waiting(Controls(a.(urgent := []), cfg), ts, mirror);
    if a1.machine.lastBarTs.Some? && c.ts <= a1.machine.lastBarTs.value {
      PrependLeaves(a1, a.urgent, [], owned, exits);
      assert a.urgent + [] == a.urgent;
    } else {
      var s := CompleteAndApplyNextOpen(a1.machine, c, ts, c.close, a1.activation, cfg.mode);
      if s.out.Ok? {
        DayActs(a1, c, mirror, cfg, owned, exits);
        var r := Intents(a1.(machine := s.m), s.out.value, mirror, cfg);
        hide CompleteAndApplyNextOpen;
        assert LeavesOk(r.a, owned, a.urgent);
        PrependLeaves(r.a, a.urgent, r.intents, owned, exits);
      }
    }
  }

  lemma UrgentDropped(a: Adapter, owned: Owned, exits: set<int>)
    requires Settled(a, owned, exits)
    ensures Settled(a.(urgent := []), owned, exits)
  {
    hide Restorable, TooFar, KsOf;
  }

  lemma DayObserved(a: Adapter, c: DailyCandle, owned: Owned, exits: set<int>)
    requires Settled(a, owned, exits) && ObserveClose(a.machine, c).out.Ok?
    requires a.machine.lastBarTs.Some? ==> c.ts > a.machine.lastBarTs.value
    ensures var m1 := ObserveClose(a.machine, c).m;
      && Settled(a.(machine := m1), owned, exits) && Quiet(ObserveClose(a.machine, c).out.value)
      && m1.lastBarTs == Some(c.ts) && (HasOrigin(m1, Paper) ==> HasOrigin(a.machine, Paper))
  {
    CloseObserves(a.machine, c);
    hide ObserveClose, Restorable;
    ObservedSettles(a, ObserveClose(a.machine, c).m, owned, exits);
  }

  lemma DayActs(a: Adapter, c: DailyCandle, mirror: Owned, cfg: Config, owned: Owned, exits: set<int>)
    requires Settled(a, owned, exits) && MirrorOk(a, mirror, owned) && a.pending == None && a.urgent == []
    requires a.machine.lastBarTs.Some? ==> c.ts > a.machine.lastBarTs.value
    requires CompleteAndApplyNextOpen(a.machine, c, c.ts + DAY, c.close, a.activation, cfg.mode).out.Ok?
    ensures var s := CompleteAndApplyNextOpen(a.machine, c, c.ts + DAY, c.close, a.activation, cfg.mode);
      var r := Intents(a.(machine := s.m), s.out.value, mirror, cfg);
      r.Acted? && LiveBarOk(r.a, r.intents, owned, exits) && a.closing <= r.a.closing && a.aborting == r.a.aborting
  {
    var closed := ObserveClose(a.machine, c);
    DayObserved(a, c, owned, exits);
    assert !HasOrigin(closed.m, Paper);
    var o := ApplyOpen(closed.m, c.ts + DAY, c.close, a.activation, cfg.mode);
    hide ObserveClose, ApplyOpen, Intents, Settled, LiveBarOk;
    OpenActs(a, closed.m, c.ts + DAY, c.close, mirror, cfg, owned, exits);
    QuietIntents(a.(machine := o.m), closed.out.value, o.out.value, mirror, cfg);
  }

  // ---- warm-up ----

  function WarmExited(a: Adapter, m1: Machine, mirror: Owned): Adapter {
    if ExitLeaves(m1, mirror) == [] then a
    else Exited(a, m1, mirror).(urgent := a.urgent + Leaves(mirror.Keys, false))
  }

  lemma WarmExitDecision(a: Adapter, m1: Machine, ts: int, open: Price, ds: seq<Decision>, mirror: Owned)
    requires ExitAtOpen(m1, ts, open).out.Ok? && mirror.Keys <= SLOTS
    ensures WarmupDecisions(a, ExitDs(m1, ts, open) + ds, mirror)
        == WarmupDecisions(WarmExited(a, m1, mirror), ds, mirror)
  {
    hide TakeBack;
    var xs := ExitDs(m1, ts, open);
    if xs == [] {
      assert xs + ds == ds;
    } else {
      assert (xs + ds)[1..] == ds;
      if mirror.Keys != {} {
        SomeLeave(mirror);
      } else {
        assert mirror == map[];
      }
    }
  }

  lemma SomeLeave(mirror: Owned)
    requires mirror.Keys <= SLOTS && mirror.Keys != {}
    ensures Leaves(mirror.Keys, false) != []
  {
    var k :| k in mirror.Keys;
    LeavesMembers(mirror.Keys, false);
    assert Leave(k, false) in Leaves(mirror.Keys, false);
  }

  lemma WarmFlatSettles(a: Adapter, m1: Machine, m2: Machine, mirror: Owned, owned: Owned, exits: set<int>)
    requires Settled(a.(machine := m1), owned, exits) && InMirror(owned, mirror)
    requires mirror.Keys <= owned.Keys + a.closing + a.aborting
    requires AfterExit(m1).None? && Restorable(m2) && m2.lastBarTs == m1.lastBarTs
    ensures Settled(Flat(WarmExited(a.(machine := m2), m1, mirror)), owned, exits)
  {
    FlatSettles(a, m1, m2, mirror, owned, exits);
    MirrorInSlots(a.(machine := m1), owned, exits, mirror);
    LeavesMembers(mirror.Keys, false);
    hide Restorable, TooFar, KsOf, Leaves;
    if m1.campaign.Some? && m1.campaign.value.origin != Historical && Leaves(mirror.Keys, false) == [] {
      assert mirror.Keys == {} by {
        if mirror.Keys != {} {
          SomeLeave(mirror);
        }
      }
    }
  }

  /** Replayed days: a missed exit stays actionable, a missed entry leaves no trace. */
  lemma WarmDay(a: Adapter, c: DailyCandle, mirror: Owned, cfg: Config, owned: Owned, exits: set<int>)
    requires Settled(a, owned, exits) && MirrorOk(a, mirror, owned) && !HasOrigin(a.machine, Paper)
    requires a.machine.lastBarTs.Some? ==> c.ts > a.machine.lastBarTs.value
    requires CompleteAndApplyNextOpen(a.machine, c, c.ts + DAY, c.close, a.activation, cfg.mode).out.Ok?
    ensures var s := CompleteAndApplyNextOpen(a.machine, c, c.ts + DAY, c.close, a.activation, cfg.mode);
      var r := WarmupDecisions(a.(machine := s.m), s.out.value, mirror);
      r.Acted? && Settled(r.a, owned, exits) && !HasOrigin(r.a.machine, Paper) && r.intents == []
  {
    var ts := c.ts + DAY;
    var closed := ObserveClose(a.machine, c);
    DayObserved(a, c, owned, exits);
    var o := ApplyOpen(closed.m, ts, c.close, a.activation, cfg.mode);
    QuietIntents(a.(machine := o.m), closed.out.value, o.out.value, mirror, cfg);
    MirrorInSlots(a, owned, exits, mirror);
    hide ObserveClose, Settled;
    WarmOpen(a, closed.m, ts, c.close, mirror, cfg, owned, exits);
  }

  lemma WarmOpen(a: Adapter, m1: Machine, ts: int, open: Price, mirror: Owned, cfg: Config, owned: Owned,
      exits: set<int>)
    requires Settled(a.(machine := m1), owned, exits) && !HasOrigin(m1, Paper) && mirror.Keys <= SLOTS
    requires InMirror(owned, mirror) && mirror.Keys <= owned.Keys + a.closing + a.aborting
    requires m1.lastBarTs == Some(ts - DAY) && ApplyOpen(m1, ts, open, a.activation, cfg.mode).out.Ok?
    ensures var o := ApplyOpen(m1, ts, open, a.activation, cfg.mode);
      var r := WarmupDecisions(a.(machine := o.m), o.out.value, mirror);
      r.Acted? && Settled(r.a, owned, exits) && !HasOrigin(r.a.machine, Paper) && r.intents == []
  {
    var o := ApplyOpen(m1, ts, open, a.activation, cfg.mode);
    var ds := OpenSplits(m1, ts, open, a.activation, cfg.mode);
    var x := WarmExited(a.(machine := o.m), m1, mirror);
    if AfterExit(m1).None? {
      WarmFlatSettles(a, m1, o.m, mirror, owned, exits);
    }
    assert AfterExitState(x, a, m1, ts, owned, exits);
    WarmExitDecision(a.(machine := o.m), m1, ts, open, ds, mirror);
    hide Settled, ApplyOpen, ExitDs, WarmExited, OpenOutcome, AfterExitState, Flat, TakeBack;
    if Quiet(ds) {
      QuietOpenSettles(x, a, m1, ts, owned, exits, ds);
      QuietIntents(x, ds, [], mirror, cfg);
      assert ds + [] == ds;
    } else {
      OneDecision(AfterExit(m1), o.m, ds, ts, a.activation);
      LoudOpenTakenBack(x, a, m1, ts, mirror, owned, exits, ds[0]);
      OneIntent(x, ds[0], mirror, cfg);
    }
  }

  /** Warm-up emits no intent and never leaves an unfunded parent behind. */
  lemma WarmupSettles(a: Adapter, b: Bar, mirror: Owned, cfg: Config, owned: Owned, exits: set<int>)
    requires Settled(a, owned, exits) && MirrorOk(a, mirror, owned) && !HasOrigin(a.machine, Paper)
    ensures var r := OnBar(a, b, true, mirror, cfg);
      r.Acted? ==> r.intents == [] && Settled(r.a, owned, exits) && !HasOrigin(r.a.machine, Paper)
  {
    hide Settled, MirrorOk, OnMinute, OnDaily, HasOrigin;
    if b.Minute? {
      WarmMinute(a, b, mirror, cfg, owned, exits);
    } else {
      WarmDaily(a, b.candle, mirror, cfg, owned, exits);
    }
  }

  lemma SettledIsRestorable(a: Adapter, owned: Owned, exits: set<int>)
    requires Settled(a, owned, exits)
    ensures Restorable(a.machine)
  {
    hide Restorable;
  }

  lemma WarmMinute(a: Adapter, b: Bar, mirror: Owned, cfg: Config, owned: Owned, exits: set<int>)
    requires Settled(a, owned, exits) && !HasOrigin(a.machine, Paper) && b.Minute?
    ensures var r := OnMinute(a, b, true, mirror, cfg);
      r.Acted? ==> r.intents == [] && Settled(r.a, owned, exits) && !HasOrigin(r.a.machine, Paper)
  {
    SettledIsRestorable(a, owned, exits);
    hide Settled, ObservePrices, Controls, Waiting, Restorable;
    PricesObserve(a.machine, b.ts, b.open, b.low, b.high);
    MinuteSettles(a, ObservePrices(a.machine, b.ts, b.open, b.low, b.high).m, owned, exits);
  }

  lemma WarmDaily(a: Adapter, c: DailyCandle, mirror: Owned, cfg: Config, owned: Owned, exits: set<int>)
    requires Settled(a, owned, exits) && MirrorOk(a, mirror, owned) && !HasOrigin(a.machine, Paper)
    ensures var r := OnDaily(a, c, true, mirror, cfg);
      r.Acted? ==> r.intents == [] && Settled(r.a, owned, exits) && !HasOrigin(r.a.machine, Paper)
  {
    hide Settled, MirrorOk, WarmupDecisions, CompleteAndApplyNextOpen, Controls, Waiting, HasOrigin;
    if !(a.machine.lastBarTs.Some? && c.ts <= a.machine.lastBarTs.value)
       && CompleteAndApplyNextOpen(a.machine, c, c.ts + DAY, c.close, a.activation, cfg.mode).out.Ok? {
      WarmDay(a, c, mirror, cfg, owned, exits);
    }
  }

  /** A live bar: afterwards the adapter is settled, or enters with its last intent. */
  lemma LiveBarActs(a: Adapter, b: Bar, mirror: Owned, cfg: Config, owned: Owned, exits: set<int>)
    requires Settled(a, owned, exits) && MirrorOk(a, mirror, owned)
    ensures var r := OnBar(a, b, false, mirror, cfg);
      r.Acted? ==> LiveBarOk(r.a, r.intents, owned, exits)
  {
    hide Settled, LiveBarOk, OnMinute, OnDaily;
    if b.Minute? {
      MinuteActs(a, b, mirror, cfg, owned, exits);
    } else {
      DailyActs(a, b.candle, mirror, cfg, owned, exits);
    }
  }

  // ---- when a bar raises ----

  /** The machine refuses a day: not the next candle, or a modelled unit without collateral evidence. */
  predicate DayRefused(a: Adapter, c: DailyCandle, cfg: Config) {
    && !(a.machine.lastBarTs.Some? && c.ts <= a.machine.lastBarTs.value)
    && CompleteAndApplyNextOpen(a.machine, c, c.ts + DAY, c.close, a.activation, cfg.mode).out.Err?
  }

  /** The machine refuses a bar. */
  predicate BarRefused(a: Adapter, b: Bar, warmup: bool, mirror: Owned, cfg: Config) {
    match b
    case Minute(ts, opening, low, high) => ObservePrices(a.machine, ts, opening, low, high).out.Err?
    case Daily(c) =>
      DayRefused(if warmup then a else Waiting(Controls(a.(urgent := []), cfg), c.ts + DAY, mirror), c, cfg)
  }

  lemma LiveDayRaises(a: Adapter, c: DailyCandle, mirror: Owned, cfg: Config, owned: Owned, exits: set<int>)
    requires Settled(a, owned, exits) && MirrorOk(a, mirror, owned)
    ensures OnDaily(a, c, false, mirror, cfg).Raised? <==> BarRefused(a, Daily(c), false, mirror, cfg)
  {
    hide Restorable, Settled, MirrorOk, Intents, Controls, Waiting, LiveBarOk;
    DayServed(a, c, mirror, cfg, owned, exits);
    var a1 := Waiting(Controls(a.(urgent := []), cfg), c.ts + DAY, mirror);
    if !(a1.machine.lastBarTs.Some? && c.ts <= a1.machine.lastBarTs.value) && !DayRefused(a1, c, cfg) {
      DayActs(a1, c, mirror, cfg, owned, exits);
    }
  }

  lemma WarmDayRaises(a: Adapter, c: DailyCandle, mirror: Owned, cfg: Config, owned: Owned, exits: set<int>)
    requires Settled(a, owned, exits) && MirrorOk(a, mirror, owned) && !HasOrigin(a.machine, Paper)
    ensures OnDaily(a, c, true, mirror, cfg).Raised? <==> BarRefused(a, Daily(c), true, mirror, cfg)
  {
    hide Settled, MirrorOk, WarmupDecisions, CompleteAndApplyNextOpen, Controls, Waiting, HasOrigin;
    if !(a.machine.lastBarTs.Some? && c.ts <= a.machine.lastBarTs.value) && !DayRefused(a, c, cfg) {
      WarmDay(a, c, mirror, cfg, owned, exits);
    }
  }

  /** No decision of a day and no handling of it raises: a bar raises exactly when the machine refuses it. */
  lemma BarRaisesExactly(a: Adapter, b: Bar, warmup: bool, mirror: Owned, cfg: Config, owned: Owned, exits: set<int>)
    requires Settled(a, owned, exits) && MirrorOk(a, mirror, owned) && (warmup ==> !HasOrigin(a.machine, Paper))
    ensures OnBar(a, b, warmup, mirror, cfg).Raised? <==> BarRefused(a, b, warmup, mirror, cfg)
  {
    if b.Daily? {
      hide Settled, MirrorOk, BarRefused, OnDaily, HasOrigin;
      if warmup {
        WarmDayRaises(a, b.candle, mirror, cfg, owned, exits);
      } else {
        LiveDayRaises(a, b.candle, mirror, cfg, owned, exits);
      }
    } else {
      hide Settled, MirrorOk, ObservePrices, Controls, Waiting, HasOrigin;
    }
  }
}
