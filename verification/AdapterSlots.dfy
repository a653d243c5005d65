/**
 Which add-on slots a campaign has used up: what every hook keeps of that, and the one
 way in which a slot that was filled becomes free again.
 */
module AdapterSlots {
  import opened Common
  import opened CloseRange
  import opened CloseRangeProperties
  import opened Adapter
  import opened AdapterRuns
  import opened AdapterHooks
  import opened AdapterBars
  import opened AdapterStartup
  import opened AdapterGuarantees

  /** The machine has no trace of a fill in add-on slot k: it is not opened yet, or modelled only. */
  predicate Vacant(m: Machine, k: int) {
    k > 0 && HasOrigin(m, Live) && (k >= m.campaign.value.lifetimeUnits || PaperLast(m, k))
  }

  /** A campaign that is not funded yet: the modelled parent, or a reversal that waits. */
  predicate Waits(a: Adapter, id: CampaignId) {
    || (HasOrigin(a.machine, Paper) && a.machine.campaign.value.id == id)
    || (a.pending.Some? && a.pending.value.id == id)
  }

  /** Opened after everything a knows and no later than what b knows. */
  predicate OpenedSince(a: Adapter, b: Adapter, id: CampaignId) {
    && b.machine.lastBarTs.Some? && id.openTs <= b.machine.lastBarTs.value + DAY
    && (a.machine.lastBarTs.Some? ==> a.machine.lastBarTs.value + DAY < id.openTs)
  }

  predicate Later(a: Adapter, b: Adapter) {
    a.machine.lastBarTs.Some? ==>
      b.machine.lastBarTs.Some? && a.machine.lastBarTs.value <= b.machine.lastBarTs.value
  }

  /**
   From a to b no slot of a live campaign became vacant, and a campaign that b knows and a
   did not is a new one.
   */
  ghost predicate Carries(a: Adapter, b: Adapter) {
    && Later(a, b)
    && (forall id :: Waits(b, id) ==> Waits(a, id) || OpenedSince(a, b, id))
    && (HasOrigin(b.machine, Live) ==>
          var id := b.machine.campaign.value.id;
          Waits(a, id) || OpenedSince(a, b, id) || SameVacant(a.machine, b.machine))
  }

  ghost predicate SameVacant(m: Machine, m1: Machine)
    requires HasOrigin(m1, Live)
  {
    && HasOrigin(m, Live) && m.campaign.value.id == m1.campaign.value.id
    && forall k :: Vacant(m1, k) ==> Vacant(m, k)
  }

  lemma CarriesTrans(a: Adapter, b: Adapter, c: Adapter)
    requires Carries(a, b) && Carries(b, c)
    ensures Carries(a, c)
  {
    hide Vacant;
    forall id | Waits(c, id) ensures Waits(a, id) || OpenedSince(a, c, id) {
      assert Waits(b, id) || OpenedSince(b, c, id);
    }
  }

  /** A step that opens no campaign: what it knows it knew, and nothing became vacant. */
  ghost predicate Narrows(a: Adapter, b: Adapter) {
    && Later(a, b) && (b.pending.Some? ==> Waits(a, b.pending.value.id))
    && (b.machine.campaign.Some? && b.machine.campaign.value.origin != Historical ==>
          Waits(a, b.machine.campaign.value.id) || (HasOrigin(b.machine, Live) && SameVacant(a.machine, b.machine)))
  }

  lemma NarrowsCarries(a: Adapter, b: Adapter)
    requires Narrows(a, b)
    ensures Carries(a, b)
  {
    hide SameVacant, Later;
  }

  // ---- units that come and go ----

  lemma ForgetVacates(m: Machine, k: int)
    requires Restorable(m) && m.campaign.Some? && k > 0 && HasK(Units(m), k)
    ensures var m1 := ForgetClosedChild(m, k).m;
      && m1 == m.(campaign := m1.campaign) && m1.campaign.Some? && m1.campaign.value.id == m.campaign.value.id
      && m1.campaign.value.origin == m.campaign.value.origin
      && m1.campaign.value.lifetimeUnits == m.campaign.value.lifetimeUnits
      && forall j :: PaperLast(m1, j) <==> PaperLast(m, j) && j != k
  {
    hide ForgetClosedChild, HasK, RemoveK;
    ForgetRemoves(m, k);
    ForgottenUnits(m, k);
    var units, left := Units(m), Units(ForgetClosedChild(m, k).m);
    if units[|units| - 1].k == k {
      RemoveLast(units, k);
    } else {
      RemoveKKeepsLast(units, k);
    }
  }

  lemma ForgottenUnits(m: Machine, k: int)
    requires m.campaign.Some? && k > 0 && HasK(Units(m), k)
    ensures Units(ForgetClosedChild(m, k).m) == RemoveK(Units(m), k)
  {
  }

  lemma FinishAbortedCarries(a: Adapter, k: int)
    requires Restorable(a.machine) && k > 0
    ensures FinishAborted(a, k).Acted? ==>
      Carries(a, FinishAborted(a, k).a) && Restorable(FinishAborted(a, k).a.machine)
  {
    hide Restorable, PaperLast;
    if a.machine.campaign.Some? && HasK(Units(a.machine), k) {
      ForgetVacates(a.machine, k);
      ForgetRemoves(a.machine, k);
      hide ForgetClosedChild, HasK;
      NarrowsCarries(a, FinishAborted(a, k).a);
    } else {
      CarriesSame(a, FinishAborted(a, k).a);
    }
  }

  /** The lists of slots are no part of what is carried. */
  lemma CarriesSame(a: Adapter, b: Adapter)
    requires a.machine == b.machine && a.pending == b.pending
    ensures Carries(a, b)
  {
    hide Vacant;
    NarrowsCarries(a, b);
  }

  lemma ConfirmVacates(a: Adapter, k: int, ts: int, price: Price)
    requires Restorable(a.machine) && a.machine.campaign.Some? && k in Ks(a.machine)
    requires HasOrigin(a.machine, Paper) || (HasOrigin(a.machine, Live) && k > 0)
    ensures var m1 := ConfirmOwnedFill(a.machine, k, ts, price).m;
      Carries(a, a.(machine := m1)) && Restorable(m1)
  {
    hide Restorable, KsOf;
    ConfirmFill(a.machine, k, ts, price);
    hide ConfirmOwnedFill;
    var b := a.(machine := ConfirmOwnedFill(a.machine, k, ts, price).m);
    NarrowsCarries(a, b);
  }

  lemma DiscardVacates(a: Adapter, k: int)
    requires Restorable(a.machine) && LiveButLast(a.machine) && PaperLast(a.machine, k)
    ensures var m1 := DiscardUnfilledAddon(a.machine, k).m;
      && Carries(a, a.(machine := m1)) && HasOrigin(m1, Live) && m1.campaign.value.id == a.machine.campaign.value.id
      && m1.campaign.value.lifetimeUnits == k && (forall j :: !PaperLast(m1, j))
      && m1 == a.machine.(campaign := m1.campaign)
  {
    DiscardedUnits(a.machine, k);
    var m1 := DiscardUnfilledAddon(a.machine, k).m;
    assert m1.campaign.value.lifetimeUnits == k;
    hide Restorable, LiveButLast, DiscardUnfilledAddon;
    forall j ensures !PaperLast(m1, j) {
      NotPaperLast(m1, j);
    }
    NarrowsCarries(a, a.(machine := m1));
  }

  lemma PendingDropped(a: Adapter)
    ensures Carries(a, a.(pending := None))
  {
    hide Vacant;
    NarrowsCarries(a, a.(pending := None));
  }

  lemma CampaignEnds(a: Adapter, m1: Machine)
    requires m1.lastBarTs == a.machine.lastBarTs && m1.campaign.None?
    ensures Carries(a, a.(machine := m1))
  {
    hide Vacant;
    NarrowsCarries(a, a.(machine := m1));
  }

  // ---- hooks ----

  lemma FinishFlatCarries(a: Adapter, k: int, owned: Owned)
    requires Restorable(a.machine) && k > 0
    ensures FinishFlat(a, k, owned).Acted? ==>
      Carries(a, FinishFlat(a, k, owned).a) && Restorable(FinishFlat(a, k, owned).a.machine)
  {
    hide Restorable, Carries, FinishAborted;
    FinishAbortedCarries(a, k);
    CarriesSame(a, a);
  }

  lemma ReconcileCarries(a: Adapter, owned: Owned)
    requires Restorable(a.machine)
    ensures Reconcile(a, owned).Acted? ==>
      Carries(a, Reconcile(a, owned).a) && Restorable(Reconcile(a, owned).a.machine)
  {
    hide Restorable, Carries, FinishFlat;
    FinishFlatCarries(a, 1, owned);
    var r1 := FinishFlat(a, 1, owned);
    if r1.Acted? {
      FinishFlatCarries(r1.a, 2, owned);
      var r2 := FinishFlat(r1.a, 2, owned);
      if r2.Acted? {
        FinishFlatCarries(r2.a, 3, owned);
        var r3 := FinishFlat(r2.a, 3, owned);
        CarriesTrans(a, r1.a, r2.a);
        if r3.Acted? {
          CarriesTrans(a, r2.a, r3.a);
          CarriesSame(r3.a, Reconcile(a, owned).a);
          CarriesTrans(a, r3.a, Reconcile(a, owned).a);
        }
      }
    }
  }

  lemma ExternalCarries(a: Adapter, e: Event, owned: Owned)
    requires Restorable(a.machine) && e.k >= 0
    ensures OnExternal(a, e, owned).Acted? ==>
      Carries(a, OnExternal(a, e, owned).a) && Restorable(OnExternal(a, e, owned).a.machine)
  {
    ParentGoneRestorable(a.machine, e.ts, e.price, e.liquidated);
    if a.machine.campaign.Some? && e.k > 0 && HasK(Units(a.machine), e.k) {
      ForgetVacates(a.machine, e.k);
      ForgetRemoves(a.machine, e.k);
      hide ForgetClosedChild, HasK, Restorable, PaperLast;
      NarrowsCarries(a, OnExternal(a, e, owned).a);
    } else {
      hide Restorable, Vacant;
      if OnExternal(a, e, owned).Acted? {
        NarrowsCarries(a, OnExternal(a, e, owned).a);
      }
    }
  }

  lemma {:induction false} ExternalsCarry(a: Adapter, events: seq<Event>, owned: Owned)
    requires Restorable(a.machine) && forall e :: e in events ==> e.k >= 0
    ensures OnExternals(a, events, owned).Acted? ==>
      Carries(a, OnExternals(a, events, owned).a) && Restorable(OnExternals(a, events, owned).a.machine)
    decreases |events|
  {
    hide Restorable, Carries, OnExternal;
    if events == [] {
      CarriesSame(a, a);
    } else {
      assert events[0] in events;
      ExternalCarries(a, events[0], owned);
      var r := OnExternal(a, events[0], owned);
      if r.Acted? {
        ExternalsCarry(r.a, events[1..], owned);
        if OnExternals(r.a, events[1..], owned).Acted? {
          CarriesTrans(a, r.a, OnExternals(r.a, events[1..], owned).a);
        }
      }
    }
  }

  lemma ExitedCarries(a: Adapter, k: int, abort: bool)
    requires Restorable(a.machine) && (abort ==> k > 0)
    ensures OnExited(a, k, abort).Acted? ==> Carries(a, OnExited(a, k, abort).a)
  {
    hide Restorable, Carries, FinishAborted;
    CarriesSame(a, Unlist(a, k));
    if abort && FinishAborted(Unlist(a, k), k).Acted? {
      FinishAbortedCarries(Unlist(a, k), k);
      CarriesTrans(a, Unlist(a, k), FinishAborted(Unlist(a, k), k).a);
    }
  }

  lemma EnteredCarries(a: Adapter, owned: Owned, exits: set<int>, i: Intent, price: Price)
    requires Entering(a, owned, exits, i)
    ensures OnEntered(a, i.k, price).Acted? ==> Carries(a, OnEntered(a, i.k, price).a)
  {
    hide Restorable, Carries, TooFar, KsOf, FarSlots, PaperLast, LiveButLast, ConfirmOwnedFill;
    if HasK(Units(a.machine), i.k) {
      EnteringSlot(a, owned, exits, i);
      var ts := FindK(Units(a.machine), i.k).entryTs;
      ConfirmVacates(a, i.k, ts, price);
      var b := a.(machine := ConfirmOwnedFill(a.machine, i.k, ts, price).m);
      if i.k == 0 {
        PendingDropped(b);
        CarriesTrans(a, b, b.(pending := None));
      } else {
        CarriesSame(b, MarkFar(b));
        CarriesTrans(a, b, MarkFar(b));
      }
    }
  }

  lemma EnteringSlot(a: Adapter, owned: Owned, exits: set<int>, i: Intent)
    requires Entering(a, owned, exits, i)
    ensures i.k in Ks(a.machine) && Restorable(a.machine)
    ensures i.k == 0 ==> HasOrigin(a.machine, Paper)
    ensures i.k != 0 ==> HasOrigin(a.machine, Live) && i.k > 0 && PaperLast(a.machine, i.k) && LiveButLast(a.machine)
  {
    LiveUnitsAreKs(a.machine);
  }

  lemma NotEnteredCarries(a: Adapter, owned: Owned, exits: set<int>, i: Intent)
    requires Entering(a, owned, exits, i)
    ensures OnNotEntered(a, i.k, i.campaign).Acted? ==> Carries(a, OnNotEntered(a, i.k, i.campaign).a)
  {
    hide Restorable, Carries, TooFar, KsOf, FarSlots, PaperLast, LiveButLast, DiscardUnfilledAddon;
    EnteringSlot(a, owned, exits, i);
    if i.k == 0 {
      AbandonCarries(a, i.campaign);
    } else {
      DiscardVacates(a, i.k);
    }
  }

  lemma AbandonCarries(a: Adapter, id: CampaignId)
    ensures Carries(a, AbandonParent(a, id))
  {
    hide Vacant;
    NarrowsCarries(a, AbandonParent(a, id));
  }

  // ---- bars ----

  lemma ObservedCarries(a: Adapter, m1: Machine)
    requires Observed(a.machine, m1) && Later(a, a.(machine := m1))
    ensures Carries(a, a.(machine := m1))
  {
    NarrowsCarries(a, a.(machine := m1));
  }

  lemma ReversalCarries(a: Adapter)
    ensures Carries(a, AbandonReversal(a)) && (a.pending.Some? ==> Carries(a, RestoreReversal(a)))
  {
    hide Vacant;
    CarriesSame(a, a);
    if a.pending.Some? {
      AbandonCarries(a, a.pending.value.id);
      NarrowsCarries(a, RestoreReversal(a));
    }
  }

  lemma ControlsCarry(a: Adapter, cfg: Config)
    ensures Carries(a, Controls(a, cfg))
  {
    hide Carries, AbandonReversal, RestoreReversal;
    CarriesSame(a, a);
    ReversalCarries(a);
    ReversalCarries(AbandonReversal(a));
    CarriesTrans(a, AbandonReversal(a), AbandonReversal(AbandonReversal(a)));
  }

  lemma WaitingCarries(a: Adapter, ts: int, mirror: Owned)
    ensures Carries(a, Waiting(a, ts, mirror))
  {
    hide Carries, AbandonReversal, RestoreReversal;
    CarriesSame(a, a);
    ReversalCarries(a);
  }

  lemma MinuteCarries(a: Adapter, b: Bar, warmup: bool, mirror: Owned, cfg: Config)
    requires b.Minute? && Restorable(a.machine)
    ensures OnMinute(a, b, warmup, mirror, cfg).Acted? ==> Carries(a, OnMinute(a, b, warmup, mirror, cfg).a)
  {
    hide Carries, Controls, Waiting, ObservePrices, Restorable, ReversalDue, Leaves;
    PricesObserve(a.machine, b.ts, b.open, b.low, b.high);
    var a0 := a.(machine := ObservePrices(a.machine, b.ts, b.open, b.low, b.high).m);
    ObservedCarries(a, a0.machine);
    CarriesSame(a0, a0.(urgent := []));
    CarriesTrans(a, a0, a0.(urgent := []));
    ControlsCarry(a0.(urgent := []), cfg);
    var a1 := Controls(a0.(urgent := []), cfg);
    CarriesTrans(a, a0.(urgent := []), a1);
    WaitingCarries(a1, b.ts, mirror);
    CarriesTrans(a, a1, Waiting(a1, b.ts, mirror));
  }

  /** A completed day up to its decision: the campaign is the old one, ended, or a new one of this open. */
  lemma OpenedCarries(a: Adapter, m1: Machine, x: Adapter, ts: int, ds: seq<Decision>)
    requires Observed(a.machine, m1) && m1.lastBarTs == Some(ts - DAY) && x.machine.lastBarTs == m1.lastBarTs
    requires a.machine.lastBarTs.Some? ==> a.machine.lastBarTs.value < ts - DAY
    requires x.pending == a.pending && !HasOrigin(m1, Paper) && Restorable(x.machine)
    requires OpenOutcome(AfterExit(m1), x.machine, ds, ts, a.activation)
    ensures Carries(a, x)
  {
    hide Restorable;
    if HasOrigin(x.machine, Live) {
      if ds != [] && AfterExit(m1).Some? && OpenedAddon(AfterExit(m1).value, x.machine, ds[0]) {
        AddonVacates(m1, x.machine, ds[0]);
      }
      assert forall k :: Vacant(x.machine, k) ==> Vacant(a.machine, k);
    }
  }

  /** The slot that an add-on is opened in was the next vacant one, and stays vacant until it is filled. */
  lemma AddonVacates(m: Machine, m1: Machine, d: Decision)
    requires HasOrigin(m, Live) && OpenedAddon(m.campaign.value, m1, d)
    ensures HasOrigin(m1, Live) && m1.campaign.value.id == m.campaign.value.id
    ensures forall k :: Vacant(m1, k) ==> Vacant(m, k)
  {
  }

  lemma TakeBackCarries(a: Adapter, d: Decision)
    requires d.kind == PaperAddon && d.k.Some? && Restorable(a.machine)
    requires LiveButLast(a.machine) && PaperLast(a.machine, d.k.value)
    ensures TakeBack(a, d).Acted? ==> Carries(a, TakeBack(a, d).a)
  {
    hide Restorable, Carries, DiscardUnfilledAddon;
    DiscardVacates(a, d.k.value);
  }

  /** The decision of an open, taken or taken back. */
  lemma DecisionCarries(
    x: Adapter, a: Adapter, m1: Machine, ts: int, mirror: Owned, owned: Owned, exits: set<int>, d: Decision,
    cfg: Config)
    requires AfterExitState(x, a, m1, ts, owned, exits)
    requires OpenOutcome(AfterExit(m1), x.machine, [d], ts, a.activation) && !Quiet([d])
    ensures IntentOf(x, d, mirror, cfg).Acted? ==> Carries(x, IntentOf(x, d, mirror, cfg).a)
    ensures WarmupDecision(x, d, mirror).Acted? ==> Carries(x, WarmupDecision(x, d, mirror).a)
  {
    hide Settled, Restorable, TooFar, KsOf;
    if AfterExit(m1).None? {
      ParentDecisionCarries(x, d, ts, mirror, cfg);
    } else {
      BeforeAddon(x, a, m1, ts, owned, exits);
      var before := x.(machine := x.machine.(campaign := m1.campaign));
      assert WithAddon(x, before, d, owned, exits) by {
        assert HasOrigin(before.machine, Live) by {
          NotHistorical(a.(machine := m1), owned, exits);
        }
      }
      AddonShape(x, before, d, owned, exits);
      hide Carries, TakeBack, LiveButLast, PaperLast, OpenedAddon, WithAddon, OpenOutcome, AfterExitState;
      TakeBackCarries(x, d);
      CarriesSame(x, x);
    }
  }

  lemma NotHistorical(a: Adapter, owned: Owned, exits: set<int>)
    requires Settled(a, owned, exits) && a.machine.campaign.Some? && !HasOrigin(a.machine, Paper)
    ensures HasOrigin(a.machine, Live) || HasOrigin(a.machine, Historical)
  {
    hide Settled;
  }

  lemma ParentDecisionCarries(x: Adapter, d: Decision, ts: int, mirror: Owned, cfg: Config)
    requires OpenedParent(x.machine, d, ts)
    ensures IntentOf(x, d, mirror, cfg).Acted? ==> Carries(x, IntentOf(x, d, mirror, cfg).a)
    ensures WarmupDecision(x, d, mirror).Acted? ==> Carries(x, WarmupDecision(x, d, mirror).a)
  {
    AbandonCarries(x, d.campaign.value);
    hide Vacant, AbandonParent;
    CarriesSame(x, x);
    var ended := x.(machine := x.machine.(campaign := None));
    CampaignEnds(x, ended.machine);
    NarrowsCarries(x, ended.(pending := Some(ReversalOf(d))));
  }

  predicate FollowsDay(a: Adapter, m1: Machine, ts: int) {
    && Observed(a.machine, m1) && m1.lastBarTs == Some(ts - DAY) && !HasOrigin(m1, Paper)
    && (a.machine.lastBarTs.Some? ==> a.machine.lastBarTs.value < ts - DAY)
  }

  lemma LiveOpenCarries(
    a: Adapter, m1: Machine, ts: int, open: Price, mirror: Owned, cfg: Config, owned: Owned, exits: set<int>)
    requires Settled(a.(machine := m1), owned, exits) && FollowsDay(a, m1, ts) && InMirror(owned, mirror)
    requires mirror.Keys <= owned.Keys + a.closing + a.aborting
    requires ApplyOpen(m1, ts, open, a.activation, cfg.mode).out.Ok?
    ensures var o := ApplyOpen(m1, ts, open, a.activation, cfg.mode);
      var r := Intents(a.(machine := o.m), o.out.value, mirror, cfg);
      r.Acted? ==> Carries(a, r.a)
  {
    SettledRestorable(a.(machine := m1), owned, exits);
    var o := ApplyOpen(m1, ts, open, a.activation, cfg.mode);
    var ds := OpenSplits(m1, ts, open, a.activation, cfg.mode);
    var x := AdapterBars.Exited(a.(machine := o.m), m1, mirror);
    if AfterExit(m1).None? {
      FlatSettles(a, m1, o.m, mirror, owned, exits);
    }
    assert AfterExitState(x, a, m1, ts, owned, exits);
    assert x.machine == o.m && x.pending == a.pending;
    ExitIntents(a.(machine := o.m), m1, ts, open, ds, mirror, cfg);
    OpenedCarries(a, m1, x, ts, ds);
    hide Settled, ApplyOpen, ExitDs, AdapterBars.Exited, OpenOutcome, AfterExitState, Flat, Carries, ExitLeaves;
    if Quiet(ds) {
      QuietIntents(x, ds, [], mirror, cfg);
      assert ds + [] == ds;
    } else {
      OneDecision(AfterExit(m1), o.m, ds, ts, a.activation);
      DecisionCarries(x, a, m1, ts, mirror, owned, exits, ds[0], cfg);
      OneIntent(x, ds[0], mirror, cfg);
      var r := IntentOf(x, ds[0], mirror, cfg);
      if r.Acted? {
        CarriesTrans(a, x, r.a);
      }
    }
  }

  lemma WarmOpenCarries(
    a: Adapter, m1: Machine, ts: int, open: Price, mirror: Owned, cfg: Config, owned: Owned, exits: set<int>)
    requires Settled(a.(machine := m1), owned, exits) && FollowsDay(a, m1, ts) && InMirror(owned, mirror)
    requires mirror.Keys <= owned.Keys + a.closing + a.aborting && mirror.Keys <= SLOTS
    requires ApplyOpen(m1, ts, open, a.activation, cfg.mode).out.Ok?
    ensures var o := ApplyOpen(m1, ts, open, a.activation, cfg.mode);
      var r := WarmupDecisions(a.(machine := o.m), o.out.value, mirror);
      r.Acted? ==> Carries(a, r.a)
  {
    SettledRestorable(a.(machine := m1), owned, exits);
    var o := ApplyOpen(m1, ts, open, a.activation, cfg.mode);
    var ds := OpenSplits(m1, ts, open, a.activation, cfg.mode);
    var x := WarmExited(a.(machine := o.m), m1, mirror);
    if AfterExit(m1).None? {
      WarmFlatSettles(a, m1, o.m, mirror, owned, exits);
    }
    assert AfterExitState(x, a, m1, ts, owned, exits);
    assert x.machine == o.m && x.pending == a.pending;
    WarmExitDecision(a.(machine := o.m), m1, ts, open, ds, mirror);
    OpenedCarries(a, m1, x, ts, ds);
    hide Settled, ApplyOpen, ExitDs, WarmExited, OpenOutcome, AfterExitState, Flat, Carries;
    if Quiet(ds) {
      QuietIntents(x, ds, [], mirror, cfg);
      assert ds + [] == ds;
    } else {
      OneDecision(AfterExit(m1), o.m, ds, ts, a.activation);
      DecisionCarries(x, a, m1, ts, mirror, owned, exits, ds[0], cfg);
      OneIntent(x, ds[0], mirror, cfg);
      var r := WarmupDecision(x, ds[0], mirror);
      if r.Acted? {
        CarriesTrans(a, x, r.a);
      }
    }
  }

  lemma LiveDayCarries(a: Adapter, c: DailyCandle, mirror: Owned, cfg: Config, owned: Owned, exits: set<int>)
    requires Settled(a, owned, exits) && MirrorOk(a, mirror, owned) && a.pending == None
    requires a.machine.lastBarTs.Some? ==> c.ts > a.machine.lastBarTs.value
    requires CompleteAndApplyNextOpen(a.machine, c, c.ts + DAY, c.close, a.activation, cfg.mode).out.Ok?
    ensures var s := CompleteAndApplyNextOpen(a.machine, c, c.ts + DAY, c.close, a.activation, cfg.mode);
      var r := Intents(a.(machine := s.m), s.out.value, mirror, cfg);
      r.Acted? ==> Carries(a, r.a)
  {
    var closed := ObserveClose(a.machine, c);
    DayObserved(a, c, owned, exits);
    SettledRestorable(a, owned, exits);
    CloseObserves(a.machine, c);
    assert !HasOrigin(closed.m, Paper) by {
      NoPaperWithoutReversal(a, owned, exits);
    }
    var o := ApplyOpen(closed.m, c.ts + DAY, c.close, a.activation, cfg.mode);
    hide ObserveClose, ApplyOpen, Intents, Settled, Carries, Observed;
    LiveOpenCarries(a, closed.m, c.ts + DAY, c.close, mirror, cfg, owned, exits);
    QuietIntents(a.(machine := o.m), closed.out.value, o.out.value, mirror, cfg);
  }

  lemma NoPaperWithoutReversal(a: Adapter, owned: Owned, exits: set<int>)
    requires Settled(a, owned, exits) && a.pending == None
    ensures !HasOrigin(a.machine, Paper)
  {
    hide Restorable, TooFar, KsOf;
  }

  lemma WarmDayCarries(a: Adapter, c: DailyCandle, mirror: Owned, cfg: Config, owned: Owned, exits: set<int>)
    requires Settled(a, owned, exits) && MirrorOk(a, mirror, owned) && !HasOrigin(a.machine, Paper)
    requires a.machine.lastBarTs.Some? ==> c.ts > a.machine.lastBarTs.value
    requires CompleteAndApplyNextOpen(a.machine, c, c.ts + DAY, c.close, a.activation, cfg.mode).out.Ok?
    ensures var s := CompleteAndApplyNextOpen(a.machine, c, c.ts + DAY, c.close, a.activation, cfg.mode);
      var r := WarmupDecisions(a.(machine := s.m), s.out.value, mirror);
      r.Acted? ==> Carries(a, r.a)
  {
    var closed := ObserveClose(a.machine, c);
    DayObserved(a, c, owned, exits);
    SettledRestorable(a, owned, exits);
    CloseObserves(a.machine, c);
    var o := ApplyOpen(closed.m, c.ts + DAY, c.close, a.activation, cfg.mode);
    MirrorInSlots(a, owned, exits, mirror);
    hide ObserveClose, ApplyOpen, WarmupDecisions, Settled, Carries, Observed;
    WarmOpenCarries(a, closed.m, c.ts + DAY, c.close, mirror, cfg, owned, exits);
    QuietIntents(a.(machine := o.m), closed.out.value, o.out.value, mirror, cfg);
  }

  lemma DailyCarries(
    a: Adapter, c: DailyCandle, warmup: bool, mirror: Owned, cfg: Config, owned: Owned, exits: set<int>)
    requires Settled(a, owned, exits) && MirrorOk(a, mirror, owned) && (warmup ==> !HasOrigin(a.machine, Paper))
    ensures OnDaily(a, c, warmup, mirror, cfg).Acted? ==> Carries(a, OnDaily(a, c, warmup, mirror, cfg).a)
  {
    hide Restorable, Settled, MirrorOk, Intents, WarmupDecisions, Controls, Waiting, CompleteAndApplyNextOpen, Carries;
    hide HasOrigin;
    var r := OnDaily(a, c, warmup, mirror, cfg);
    CarriesSame(a, a);
    if warmup {
      if r.Acted? && !(a.machine.lastBarTs.Some? && c.ts <= a.machine.lastBarTs.value) {
        WarmDayCarries(a, c, mirror, cfg, owned, exits);
      }
    } else {
      DayServed(a, c, mirror, cfg, owned, exits);
      var a0 := a.(urgent := []);
      CarriesSame(a, a0);
      ControlsCarry(a0, cfg);
      WaitingCarries(Controls(a0, cfg), c.ts + DAY, mirror);
      var a1 := Waiting(Controls(a0, cfg), c.ts + DAY, mirror);
      CarriesTrans(a, a0, Controls(a0, cfg));
      CarriesTrans(a, Controls(a0, cfg), a1);
      if r.Acted? && !(a1.machine.lastBarTs.Some? && c.ts <= a1.machine.lastBarTs.value) {
        DayNeedsNext(a1, c, cfg);
        LiveDayCarries(a1, c, mirror, cfg, owned, exits);
        CarriesTrans(a, a1, r.a);
      }
    }
  }

  lemma DayNeedsNext(a: Adapter, c: DailyCandle, cfg: Config)
    ensures CompleteAndApplyNextOpen(a.machine, c, c.ts + DAY, c.close, a.activation, cfg.mode).out.Ok? ==>
      IsNext(a.machine, c.ts)
  {
    hide ObserveClose, ApplyOpen;
  }

  /** A bar never makes a slot vacant, whatever is decided and taken back during it. */
  lemma BarCarries(a: Adapter, b: Bar, warmup: bool, mirror: Owned, cfg: Config, owned: Owned, exits: set<int>)
    requires Settled(a, owned, exits) && MirrorOk(a, mirror, owned) && (warmup ==> !HasOrigin(a.machine, Paper))
    ensures OnBar(a, b, warmup, mirror, cfg).Acted? ==> Carries(a, OnBar(a, b, warmup, mirror, cfg).a)
  {
    hide Settled, MirrorOk, OnMinute, OnDaily, HasOrigin, Carries;
    if b.Minute? {
      SettledIsRestorable(a, owned, exits);
      MinuteCarries(a, b, warmup, mirror, cfg);
    } else {
      DailyCarries(a, b.candle, warmup, mirror, cfg, owned, exits);
    }
  }

  // ---- starting again ----

  predicate SameLife(m: Machine, m1: Machine) {
    && m.campaign.Some? && m1.campaign.Some? && m1.campaign.value.id == m.campaign.value.id
    && m1.campaign.value.origin == m.campaign.value.origin
    && m1.campaign.value.lifetimeUnits == m.campaign.value.lifetimeUnits
  }

  /** Everything about the campaign's slots is as before, except that the units in gone have left. */
  ghost predicate Without(m: Machine, m1: Machine, gone: set<int>) {
    SameLife(m, m1) && forall j :: PaperLast(m1, j) <==> PaperLast(m, j) && j !in gone
  }

  lemma WithoutTrans(m: Machine, m1: Machine, m2: Machine, gone: set<int>, gone1: set<int>)
    requires Without(m, m1, gone) && Without(m1, m2, gone1)
    ensures Without(m, m2, gone + gone1)
  {
    hide PaperLast;
  }

  lemma FinishFlatLife(a: Adapter, k: int, owned: Owned)
    requires Restorable(a.machine) && a.machine.campaign.Some? && k > 0 && FinishFlat(a, k, owned).Acted?
    ensures var r := FinishFlat(a, k, owned);
      && Without(a.machine, r.a.machine, (a.aborting - owned.Keys) * {k}) && Restorable(r.a.machine)
      && r.a.aborting == a.aborting - ({k} - owned.Keys)
  {
    hide Restorable;
    if k in a.aborting && k !in owned {
      if HasK(Units(a.machine), k) {
        ForgetVacates(a.machine, k);
        ForgetRemoves(a.machine, k);
        hide PaperLast, ForgetClosedChild, HasK;
      } else if PaperLast(a.machine, k) {
        LastHasK(a.machine, k);
      }
    }
  }

  lemma LastHasK(m: Machine, k: int)
    requires PaperLast(m, k)
    ensures HasK(Units(m), k)
  {
    assert Units(m)[|Units(m)| - 1].k == k;
  }

  lemma ReconcileLife(a: Adapter, owned: Owned)
    requires Restorable(a.machine) && a.machine.campaign.Some? && a.aborting <= CHILDREN && Reconcile(a, owned).Acted?
    ensures var r := Reconcile(a, owned);
      && Without(a.machine, r.a.machine, a.aborting - owned.Keys) && Restorable(r.a.machine)
  {
    hide Restorable, Without, FinishFlat, SameLife;
    FinishFlatLife(a, 1, owned);
    var a1 := FinishFlat(a, 1, owned).a;
    WithoutSome(a.machine, a1.machine, (a.aborting - owned.Keys) * {1});
    FinishFlatLife(a1, 2, owned);
    var a2 := FinishFlat(a1, 2, owned).a;
    WithoutSome(a1.machine, a2.machine, (a1.aborting - owned.Keys) * {2});
    FinishFlatLife(a2, 3, owned);
    var a3 := FinishFlat(a2, 3, owned).a;
    WithoutTrans(a.machine, a1.machine, a2.machine, (a.aborting - owned.Keys) * {1}, (a1.aborting - owned.Keys) * {2});
    WithoutTrans(a.machine, a2.machine, a3.machine,
                 (a.aborting - owned.Keys) * {1} + (a1.aborting - owned.Keys) * {2}, (a2.aborting - owned.Keys) * {3});
    assert (a.aborting - owned.Keys) * {1} + (a1.aborting - owned.Keys) * {2} + (a2.aborting - owned.Keys) * {3}
      == a.aborting - owned.Keys;
  }

  lemma WithoutSome(m: Machine, m1: Machine, gone: set<int>)
    requires Without(m, m1, gone)
    ensures m1.campaign.Some?
  {
  }

  lemma {:induction false} ExternalsLife(a: Adapter, events: seq<Event>, owned: Owned)
    requires Restorable(a.machine) && a.machine.campaign.Some? && forall e :: e in events ==> e.k > 0
    requires OnExternals(a, events, owned).Acted?
    ensures var r := OnExternals(a, events, owned);
      Without(a.machine, r.a.machine, EventKs(events)) && Restorable(r.a.machine)
    decreases |events|
  {
    if events == [] {
      assert EventKs(events) == {};
    } else {
      hide Restorable, PaperLast, Without, OnExternal;
      var e := events[0];
      assert e in events;
      ExternalLife(a, e, owned);
      var a1 := OnExternal(a, e, owned).a;
      WithoutSome(a.machine, a1.machine, {e.k});
      ExternalsLife(a1, events[1..], owned);
      WithoutTrans(a.machine, a1.machine, OnExternals(a, events, owned).a.machine, {e.k}, EventKs(events[1..]));
      assert EventKs(events) == {e.k} + EventKs(events[1..]) by {
        assert events == [e] + events[1..];
      }
    }
  }

  lemma ExternalLife(a: Adapter, e: Event, owned: Owned)
    requires Restorable(a.machine) && a.machine.campaign.Some? && e.k > 0 && OnExternal(a, e, owned).Acted?
    ensures var r := OnExternal(a, e, owned);
      Without(a.machine, r.a.machine, {e.k}) && Restorable(r.a.machine)
  {
    hide Restorable, PaperLast, HasK, ForgetClosedChild, ParentLiquidated;
    ForgetNeedsUnit(a.machine, e.k);
    ForgetVacates(a.machine, e.k);
    ForgetRemoves(a.machine, e.k);
  }

  lemma ForgetNeedsUnit(m: Machine, k: int)
    ensures ForgetClosedChild(m, k).out.Ok? ==> m.campaign.Some? && HasK(Units(m), k)
  {
  }

  /** A batch that ends with the parent ends the campaign. */
  lemma {:induction false} ParentEnds(a: Adapter, events: seq<Event>, owned: Owned)
    requires events != [] && events[|events| - 1].k == 0 && OnExternals(a, events, owned).Acted?
    ensures OnExternals(a, events, owned).a.machine.campaign.None?
    decreases |events|
  {
    var r := OnExternal(a, events[0], owned);
    if |events| == 1 {
      assert events[1..] == [];
      assert r.a.machine.campaign.None?;
    } else {
      hide OnExternal;
      ParentEnds(r.a, events[1..], owned);
    }
  }

  // ---- what a start makes of a live campaign ----

  /** What a start will find closed before it settles add-ons. */
  function Gone(a: Adapter, owned: Owned, events: seq<Event>): set<int> {
    (a.aborting - owned.Keys) + EventKs(events)
  }

  lemma ReconciledLife(a: Adapter, owned: Owned, events: seq<Event>)
    requires Restorable(a.machine) && HasOrigin(a.machine, Live) && a.aborting <= CHILDREN
    requires Distinct(events) && 0 !in EventKs(events) && (forall e :: e in events ==> e.k >= 0)
    requires Reconciled(a, owned, events).Acted?
    ensures Without(a.machine, Reconciled(a, owned, events).a.machine, Gone(a, owned, events))
  {
    hide Restorable, Without, SameLife, Reconcile, OnExternals;
    ReconcileLife(a, owned);
    var a1 := Reconcile(a, owned).a;
    WithoutSome(a.machine, a1.machine, a.aborting - owned.Keys);
    if events == [] {
      NoEventKs(events);
      assert Gone(a, owned, events) == a.aborting - owned.Keys;
    } else {
      ChildrenFirstOrders(events);
      var ordered := ChildrenFirst(events);
      forall e | e in ordered ensures e.k > 0 {
        assert e.k in EventKs(ordered);
        var e1 :| e1 in events && e1.k == e.k;
      }
      ExternalsLife(a1, ordered, owned);
      WithoutTrans(a.machine, a1.machine, OnExternals(a1, ordered, owned).a.machine, a.aborting - owned.Keys,
                   EventKs(ordered));
    }
  }

  /** What taking ownership makes of the slots of a live campaign. */
  ghost predicate TakenOver(m: Machine, m1: Machine, owned: Owned) {
    && HasOrigin(m, Live) && HasOrigin(m1, Live) && m1.campaign.value.id == m.campaign.value.id
    && forall j :: Vacant(m1, j) <==> Vacant(m, j) && !(PaperLast(m, j) && j in owned)
  }

  lemma StartupLife(a: Adapter, owned: Owned, exits: set<int>)
    requires Cleared(a, owned, {}, exits) && HasOrigin(a.machine, Live)
    ensures OnStartup(a, owned).Acted? && TakenOver(a.machine, OnStartup(a, owned).a.machine, owned)
  {
    hide OnStartup, Settled, Cleared, AllLive, TakenOver;
    LiveStartup(a, owned, exits);
    StartedAllLive(OnStartup(a, owned).a, owned, exits);
    ClearedIs(a, owned, exits);
    if AllLive(Units(a.machine)) {
      KnownTakenOver(a, owned);
    } else {
      NewestAddonStarts(a, owned, exits);
      ResolvedTakenOver(a, owned);
    }
  }

  lemma ClearedIs(a: Adapter, owned: Owned, exits: set<int>)
    requires Cleared(a, owned, {}, exits) && HasOrigin(a.machine, Live)
    ensures Restorable(a.machine) && LiveButLast(a.machine) && Units(a.machine) != [] && a.pending == None
  {
    hide Restorable, TooFar, KsOf;
  }

  lemma KnownTakenOver(a: Adapter, owned: Owned)
    requires AllLive(Units(a.machine)) && HasOrigin(a.machine, Live) && OnStartup(a, owned).Acted?
    requires AllLive(Units(OnStartup(a, owned).a.machine)) && a.pending == None && Units(a.machine) != []
    ensures TakenOver(a.machine, OnStartup(a, owned).a.machine, owned)
  {
    LiveAddonsStay(a, Units(a.machine)[1..], owned);
    hide SettleAddons, AllLive, FarSlots;
    var m1 := OnStartup(a, owned).a.machine;
    assert m1 == a.machine;
    forall j ensures !PaperLast(m1, j) {
      NotPaperLast(m1, j);
    }
  }

  lemma ResolvedTakenOver(a: Adapter, owned: Owned)
    requires Restorable(a.machine) && LiveButLast(a.machine) && !AllLive(Units(a.machine)) && Units(a.machine) != []
    requires var m1 := Resolved(a.machine, Units(a.machine)[|Units(a.machine)| - 1], owned);
      HasOrigin(m1, Live) && AllLive(Units(m1))
    ensures TakenOver(a.machine, Resolved(a.machine, Units(a.machine)[|Units(a.machine)| - 1], owned), owned)
  {
    hide AllLive, Restorable, LiveButLast, KsOf;
    var m, units := a.machine, Units(a.machine);
    LastPaperIs(m);
    var u := units[|units| - 1];
    var m1 := Resolved(m, u, owned);
    forall j ensures !PaperLast(m1, j) {
      NotPaperLast(m1, j);
    }
    if u.k in owned {
      LastIsSlot(m, u.k);
      ConfirmFill(m, u.k, owned[u.k].ts, owned[u.k].price);
    } else {
      DiscardVacates(a, u.k);
    }
    hide ConfirmOwnedFill, DiscardUnfilledAddon;
  }

  lemma StartedAllLive(a: Adapter, owned: Owned, exits: set<int>)
    requires Settled(a, owned, exits) && HasOrigin(a.machine, Live)
    ensures AllLive(Units(a.machine))
  {
    hide Restorable;
  }
}
