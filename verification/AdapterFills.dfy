/**
 Over whole runs with crashes: when a slot that a campaign has already filled can be
 filled a second time.
 */
module AdapterFills {
  import opened Common
  import opened CloseRange
  import opened CloseRangeProperties
  import opened Adapter
  import opened AdapterRuns
  import opened AdapterHooks
  import opened AdapterBars
  import opened AdapterStartup
  import opened AdapterGuarantees
  import opened AdapterSlots

  /** An add-on slot of one campaign. */
  datatype AddonSlot = AddonSlot(campaign: CampaignId, k: int)

  /** The engine, and every add-on slot that an order ever filled. */
  datatype Tracked = Tracked(e: Engine, filled: set<AddonSlot>)

  const Beginning := Tracked(AdapterRuns.Initial, {})

  function Track(t: Tracked, act: AdapterRuns.Act): Tracked
    requires Enabled(t.e, act)
  {
    Tracked(Next(t.e, act),
            if act.Fill? && t.e.process.phase.intents[0].k > 0
            then t.filled + {AddonSlot(t.e.process.phase.intents[0].campaign, t.e.process.phase.intents[0].k)}
            else t.filled)
  }

  ghost predicate Tracks(t: Tracked, script: seq<AdapterRuns.Act>, end: Tracked)
    decreases |script|
  {
    if script == [] then t == end else Enabled(t.e, script[0]) && Tracks(Track(t, script[0]), script[1..], end)
  }

  ghost predicate Attained(t: Tracked) {
    exists script :: Tracks(Beginning, script, t)
  }

  /** Slot k of the running campaign was filled, and the machine has no trace of it: the next add-on may take it. */
  predicate Forgotten(a: Adapter, filled: set<AddonSlot>, k: int) {
    HasOrigin(a.machine, Live) && AddonSlot(a.machine.campaign.value.id, k) in filled && Vacant(a.machine, k)
  }

  // ---- what is known of campaigns ----

  predicate Opened(a: Adapter, id: CampaignId) {
    a.machine.lastBarTs.Some? && id.openTs <= a.machine.lastBarTs.value + DAY
  }

  predicate NeverFilled(id: CampaignId, filled: set<AddonSlot>) {
    forall s :: s in filled ==> s.campaign != id
  }

  /** Every campaign ever filled was opened by now, and one that still waits has no filled add-on. */
  ghost predicate Known(a: Adapter, filled: set<AddonSlot>) {
    && (forall s :: s in filled ==> Opened(a, s.campaign))
    && (forall id :: Waits(a, id) ==> Opened(a, id) && NeverFilled(id, filled))
    && (HasOrigin(a.machine, Live) ==> Opened(a, a.machine.campaign.value.id))
  }

  lemma KnownCarries(a: Adapter, b: Adapter, filled: set<AddonSlot>)
    requires Known(a, filled) && Carries(a, b)
    ensures Known(b, filled) && forall k :: Forgotten(b, filled, k) ==> Forgotten(a, filled, k)
  {
    hide Vacant, Waits;
    forall id | Waits(b, id) || (HasOrigin(b.machine, Live) && b.machine.campaign.value.id == id)
      ensures Opened(b, id) {
    }
    forall id | Waits(a, id) || OpenedSince(a, b, id) ensures NeverFilled(id, filled) {
    }
  }

  lemma KnownSame(a: Adapter, b: Adapter, filled: set<AddonSlot>)
    requires Known(a, filled) && a.machine == b.machine && a.pending == b.pending
    ensures Known(b, filled)
  {
    CarriesSame(a, b);
    KnownCarries(a, b, filled);
  }

  // ---- the invariant ----

  ghost predicate SavedKnown(e: Engine, filled: set<AddonSlot>) {
    match e.saved
    case None => filled == {}
    case Some(s) => Restored(s).Acted? && Known(Restored(s).a, filled)
  }

  ghost predicate Inv(t: Tracked) {
    && AdapterRuns.Inv(t.e) && SavedKnown(t.e, t.filled)
    && (t.e.process.Up? ==> Known(t.e.process.a, t.filled))
  }

  lemma RunningBounds(e: Engine)
    requires AdapterRuns.Inv(e) && e.process.Up?
    ensures Restorable(e.process.a.machine) && e.process.a.closing <= SLOTS && e.process.a.aborting <= CHILDREN
  {
    hide Settled, Entering, Restored, Resumable, MirrorOk;
    var a, phase := e.process.a, e.process.phase;
    match phase {
      case Idle => SettledRestorable(a, e.owned, e.exits);
      case Delivering(before) => SettledRestorable(a, before, e.exits);
      case Submitting(intents, _) =>
        if NoEntry(intents) {
          SettledRestorable(a, e.owned, e.exits);
        } else {
          EnteringBounds(a, e.owned, e.exits, intents[|intents| - 1]);
        }
    }
  }

  lemma EnteringBounds(a: Adapter, owned: Owned, exits: set<int>, i: Intent)
    requires Entering(a, owned, exits, i)
    ensures Restorable(a.machine) && a.closing <= SLOTS && a.aborting <= CHILDREN
  {
    hide Restorable;
  }

  /** What a step other than a start does to the adapter and to the snapshot. */
  ghost predicate StepCarries(e: Engine, e1: Engine) {
    && (e1.process.Up? ==> e.process.Up? && Carries(e.process.a, e1.process.a))
    && (e1.saved == e.saved || (e1.process.Up? && e1.saved == Some(Persist(e1.process.a))))
  }

  lemma CarriedInv(t: Tracked, e1: Engine)
    requires Inv(t) && AdapterRuns.Inv(e1) && StepCarries(t.e, e1)
    ensures Inv(Tracked(e1, t.filled))
    ensures e1.process.Up? ==>
      forall k :: Forgotten(e1.process.a, t.filled, k) ==> Forgotten(t.e.process.a, t.filled, k)
  {
    hide AdapterRuns.Inv, Restored, Persist, Known, Carries, Forgotten;
    if e1.process.Up? {
      KnownCarries(t.e.process.a, e1.process.a, t.filled);
      RunningBounds(e1);
      SavedBack(e1.process.a);
      KnownSame(e1.process.a, e1.process.a.(urgent := []), t.filled);
    }
  }

  lemma ModelCarries(e: Engine, act: AdapterRuns.Act)
    requires AdapterRuns.Inv(e) && Enabled(e, act) && (act.Funding? || act.Evidence?)
    ensures StepCarries(e, Next(e, act))
  {
    hide Carries, SavedOk, Settled, MirrorOk, InBar;
    var m, a1 := e.process.a.machine, Next(e, act).process.a;
    if act.Funding? {
      FundingObserved(m, act.ts, act.rate, act.fixing);
    }
    hide ApplyFunding;
    ObservedCarries(e.process.a, a1.machine);
  }

  lemma FundingObserved(m: Machine, ts: int, rate: real, fixing: real)
    ensures var m1 := ApplyFunding(m, ts, rate, fixing).m; Observed(m, m1) && m1.lastBarTs == m.lastBarTs
  {
  }

  lemma DeliverCarries(e: Engine)
    requires AdapterRuns.Inv(e) && Enabled(e, Deliver)
    ensures StepCarries(e, Next(e, Deliver))
  {
    hide Carries, Settled, Restored, Resumable, OnExternals, Persist, ChildrenFirst, Attained;
    DeliverKeeps(e);
    RunningBounds(e);
    ChildrenFirstOrders(e.undelivered);
    forall event | event in ChildrenFirst(e.undelivered) ensures event.k >= 0 {
      assert event.k in EventKs(ChildrenFirst(e.undelivered));
      assert event.k in e.process.phase.before;
      SettledRestorable(e.process.a, e.process.phase.before, e.exits);
    }
    ExternalsCarry(e.process.a, ChildrenFirst(e.undelivered), e.owned);
  }

  lemma BarArrivesCarries(e: Engine, b: Bar, warmup: bool, due: bool)
    requires AdapterRuns.Inv(e) && Enabled(e, BarArrives(b, warmup, due))
    ensures StepCarries(e, Next(e, BarArrives(b, warmup, due)))
  {
    hide Carries, Settled, Restored, Resumable, OnBar, Persist, MirrorOk, SavedOk, HasOrigin;
    BarCarries(e.process.a, b, warmup, e.process.mirror, e.process.cfg, e.owned, e.exits);
  }

  lemma OutcomeCarries(e: Engine, act: AdapterRuns.Act)
    requires AdapterRuns.Inv(e) && Enabled(e, act) && (act.NoFill? || act.Exited? || act.EndBar?)
    ensures StepCarries(e, Next(e, act))
  {
    hide Carries, Settled, Restored, Resumable, Persist, MirrorOk, SavedOk, Entering;
    hide OnNotEntered, OnExited, Reconcile;
    RunningBounds(e);
    if act.NoFill? {
      EntryHead(e);
      NotEnteredCarries(e.process.a, e.owned, e.exits, e.process.phase.intents[0]);
    } else if act.Exited? {
      var i := e.process.phase.intents[0];
      assert i in e.process.phase.intents;
      ExitedCarries(e.process.a, i.k, i.abort);
    } else {
      ReconcileCarries(e.process.a, e.owned);
    }
  }

  lemma QuietCarries(e: Engine, act: AdapterRuns.Act)
    requires Enabled(e, act)
    requires act.Crash? || act.VenueCloses? || act.Retry? || act.BarWithheld? || act.NotExited? || act.Noted?
    ensures StepCarries(e, Next(e, act))
  {
    hide Carries, Persist;
    if e.process.Up? {
      CarriesSame(e.process.a, e.process.a);
    }
  }

  // ---- a fill ----

  /** An add-on fill is recorded in the machine at once, but not in the snapshot saved before it. */
  lemma AddonFillKnown(
    a: Adapter, owned: Owned, exits: set<int>, i: Intent, price: Price, ts: int, filled: set<AddonSlot>)
    requires Entering(a, owned, exits, i) && i.k > 0 && Known(a, filled)
    ensures var r := OnEntered(a, i.k, price);
      var filled1 := filled + {AddonSlot(i.campaign, i.k)};
      && r.Acted? && Known(r.a, filled1) && Known(a, filled1)
      && forall k :: Forgotten(r.a, filled1, k) ==> Forgotten(a, filled, k)
  {
    hide Restorable, TooFar, KsOf, OnEntered, Settled, PaperLast, LiveButLast;
    EnteredCarries(a, owned, exits, i, price);
    FillSettlesAddon(a, owned, exits, i, price, ts);
    AddonStays(a, owned, exits, i, price);
    var b := OnEntered(a, i.k, price).a;
    KnownCarries(a, b, filled);
    SettledLive(b, owned[i.k := Held(i.side, price, ts)], exits);
    EnteringSlot(a, owned, exits, i);
    hide Carries, Known;
    SlotAdded(a, filled, AddonSlot(i.campaign, i.k));
    SlotAdded(b, filled, AddonSlot(i.campaign, i.k));
  }

  lemma SlotAdded(a: Adapter, filled: set<AddonSlot>, s: AddonSlot)
    requires Known(a, filled) && HasOrigin(a.machine, Live) && a.machine.campaign.value.id == s.campaign
    requires a.pending == None
    ensures Known(a, filled + {s})
  {
  }

  lemma AddonStays(a: Adapter, owned: Owned, exits: set<int>, i: Intent, price: Price)
    requires Entering(a, owned, exits, i) && i.k > 0
    ensures var r := OnEntered(a, i.k, price);
      r.Acted? ==>
        && HasOrigin(r.a.machine, Live) && r.a.machine.campaign.value.id == i.campaign && r.a.pending == None
        && r.a.machine.campaign.value.lifetimeUnits == i.k + 1
  {
    hide Restorable, TooFar, KsOf, FarSlots, LiveButLast, ConfirmOwnedFill;
    EnteringSlot(a, owned, exits, i);
    ConfirmFill(a.machine, i.k, FindK(Units(a.machine), i.k).entryTs, price);
  }

  lemma SettledLive(a: Adapter, owned: Owned, exits: set<int>)
    requires Settled(a, owned, exits) && HasOrigin(a.machine, Live)
    ensures forall k :: !PaperLast(a.machine, k)
  {
    StartedAllLive(a, owned, exits);
    forall k ensures !PaperLast(a.machine, k) {
      NotPaperLast(a.machine, k);
    }
  }

  lemma FillTracked(t: Tracked, price: Price, ts: int)
    requires Inv(t) && Enabled(t.e, Fill(price, ts))
    ensures Inv(Track(t, Fill(price, ts)))
    ensures var t1 := Track(t, Fill(price, ts));
      t1.e.process.Up? &&
      forall k :: Forgotten(t1.e.process.a, t1.filled, k) ==> Forgotten(t.e.process.a, t.filled, k)
  {
    hide Restored, Resumable, Settled, MirrorOk, Entering, OnEntered, Known, Carries, Forgotten;
    FillKeeps(t.e, price, ts);
    EntryHead(t.e);
    var a, i := t.e.process.a, t.e.process.phase.intents[0];
    EntryKind(a, t.e.owned, t.e.exits, i);
    if i.k > 0 {
      AddonFillKnown(a, t.e.owned, t.e.exits, i, price, ts, t.filled);
    } else {
      EnteredCarries(a, t.e.owned, t.e.exits, i, price);
      KnownCarries(a, OnEntered(a, i.k, price).a, t.filled);
    }
  }

  lemma EntryKind(a: Adapter, owned: Owned, exits: set<int>, i: Intent)
    requires Entering(a, owned, exits, i)
    ensures i.Enter? && i.k >= 0
  {
  }

  // ---- a start ----

  lemma FreshKnown(a: Adapter)
    requires Fresh(a)
    ensures Known(a, {})
  {
    hide Restorable;
  }

  lemma ResumableBounds(a: Adapter, owned: Owned, undelivered: set<int>, exits: set<int>)
    requires Resumable(a, owned, undelivered, exits)
    ensures Restorable(a.machine) && a.closing <= SLOTS && a.aborting <= CHILDREN && undelivered <= SLOTS
  {
    hide Restorable, TooFar, KsOf;
  }

  lemma ReconciledCarries(a: Adapter, owned: Owned, events: seq<Event>, exits: set<int>)
    requires Resumable(a, owned, EventKs(events), exits) && Distinct(events) && Reconciled(a, owned, events).Acted?
    ensures Carries(a, Reconciled(a, owned, events).a)
  {
    hide Resumable, Restorable, Carries, Reconcile, OnExternals, ChildrenFirst;
    ResumableBounds(a, owned, EventKs(events), exits);
    ReconcileCarries(a, owned);
    if events != [] {
      ChildrenFirstOrders(events);
      forall event | event in ChildrenFirst(events) ensures event.k >= 0 {
        assert event.k in EventKs(ChildrenFirst(events));
      }
      ExternalsCarry(Reconcile(a, owned).a, ChildrenFirst(events), owned);
      CarriesTrans(a, Reconcile(a, owned).a, Reconciled(a, owned, events).a);
    }
  }

  lemma {:induction false} AddonsKeepClock(a: Adapter, units: seq<Unit>, owned: Owned)
    ensures var r := SettleAddons(a, units, owned);
      r.Acted? ==> r.a.machine.lastBarTs == a.machine.lastBarTs && r.a.pending == a.pending
    decreases |units|
  {
    if units != [] {
      var u, rest := units[|units| - 1], units[..|units| - 1];
      AddonsKeepClock(a, rest, owned);
      if u.k in owned {
        var m1 := ConfirmOwnedFill(a.machine, u.k, owned[u.k].ts, owned[u.k].price).m;
        AddonsKeepClock(a.(machine := m1), rest, owned);
      } else {
        AddonsKeepClock(a.(machine := DiscardUnfilledAddon(a.machine, u.k).m), rest, owned);
      }
      hide ConfirmOwnedFill, DiscardUnfilledAddon;
    }
  }

  lemma ConfirmKeepsClock(m: Machine, k: int, ts: int, price: Price)
    ensures ConfirmOwnedFill(m, k, ts, price).m.lastBarTs == m.lastBarTs
  {
  }

  lemma ParentKeepsClock(a: Adapter, owned: Owned)
    ensures var r := SettleParent(a, owned);
      r.Acted? ==> r.a.machine.lastBarTs == a.machine.lastBarTs && r.a.pending == a.pending
  {
  }

  lemma StartupKeepsClock(a: Adapter, owned: Owned)
    ensures var r := OnStartup(a, owned);
      r.Acted? ==> r.a.machine.lastBarTs == a.machine.lastBarTs && (r.a.pending == a.pending || r.a.pending == None)
  {
    hide SettleAddons, FarSlots, Leaves, Ks, SettleParent, ConfirmOwnedFill;
    ParentKeepsClock(a, owned);
    if a.machine.campaign.Some? && 0 in owned {
      ConfirmKeepsClock(a.machine, 0, a.machine.campaign.value.entryTs, owned[0].price);
    }
    var p := SettleParent(a, owned);
    if p.Acted? && Units(p.a.machine) != [] {
      AddonsKeepClock(p.a, Units(p.a.machine)[1..], owned);
    }
  }

  lemma StartupCarries(a: Adapter, owned: Owned, exits: set<int>)
    requires Cleared(a, owned, {}, exits)
    ensures OnStartup(a, owned).Acted? && Carries(a, OnStartup(a, owned).a)
    ensures a.machine.campaign.None? ==> OnStartup(a, owned).a.machine.campaign.None?
  {
    StartupSettles(a, owned, exits);
    StartupKeepsClock(a, owned);
    if HasOrigin(a.machine, Live) {
      StartupLife(a, owned, exits);
      hide Cleared, Settled, OnStartup, Vacant;
      NarrowsCarries(a, OnStartup(a, owned).a);
    } else {
      UnfundedStartup(a, owned);
      hide Cleared, Settled, OnStartup, Vacant;
      NarrowsCarries(a, OnStartup(a, owned).a);
    }
  }

  /** A campaign that is not live is confirmed, given up or left alone. */
  lemma UnfundedStartup(a: Adapter, owned: Owned)
    requires !HasOrigin(a.machine, Live) && OnStartup(a, owned).Acted?
    requires a.pending.Some? && a.machine.campaign.Some? ==> HasOrigin(a.machine, Paper)
    ensures var m1 := OnStartup(a, owned).a.machine;
      m1.campaign.Some? && m1.campaign.value.origin != Historical ==>
        HasOrigin(a.machine, Paper) && m1.campaign.value.id == a.machine.campaign.value.id
    ensures a.machine.campaign.None? ==> OnStartup(a, owned).a.machine.campaign.None?
  {
    hide TooFar, FarSlots, Leaves;
    var p := SettleParent(a, owned);
    if p.Acted? && HasOrigin(p.a.machine, Live) && Units(p.a.machine) != [] {
      AddonsKeepCampaign(p.a, Units(p.a.machine)[1..], owned);
    }
    hide SettleAddons, Confirm;
  }

  lemma {:induction false} AddonsKeepCampaign(a: Adapter, units: seq<Unit>, owned: Owned)
    requires HasOrigin(a.machine, Live)
    ensures var r := SettleAddons(a, units, owned);
      r.Acted? ==> HasOrigin(r.a.machine, Live) && r.a.machine.campaign.value.id == a.machine.campaign.value.id
    decreases |units|
  {
    hide Confirm, HasK;
    if units != [] {
      var u, rest := units[|units| - 1], units[..|units| - 1];
      AddonsKeepCampaign(a, rest, owned);
      if u.k in owned {
        var m1 := ConfirmOwnedFill(a.machine, u.k, owned[u.k].ts, owned[u.k].price).m;
        AddonsKeepCampaign(a.(machine := m1), rest, owned);
      } else {
        AddonsKeepCampaign(a.(machine := DiscardUnfilledAddon(a.machine, u.k).m), rest, owned);
      }
    }
  }

  /** Where a start begins, and that everything it needs holds there. */
  lemma StartBegins(t: Tracked, seed: Adapter, cfg: Config)
    requires Inv(t) && Enabled(t.e, Start(seed, cfg))
    ensures var a := StartingPoint(t.e, seed);
      && Resumable(a, t.e.owned, EventKs(t.e.undelivered), t.e.exits) && a.urgent == [] && Known(a, t.filled)
      && Distinct(t.e.undelivered)
  {
    hide Restored, Resumable, Known;
    if t.e.saved.None? {
      FreshSettles(seed);
      FreshKnown(seed);
      EventKsAppend([]);
    } else {
      RestoredHasNoUrgent(t.e.saved.value);
    }
  }

  lemma StartTracked(t: Tracked, seed: Adapter, cfg: Config)
    requires Inv(t) && Enabled(t.e, Start(seed, cfg))
    ensures Inv(Track(t, Start(seed, cfg)))
  {
    StartBegins(t, seed, cfg);
    StartKeeps(t.e, seed, cfg);
    var a, events := StartingPoint(t.e, seed), t.e.undelivered;
    hide Known, Restored, Persist, Resumable, AdapterRuns.Inv, Carries;
    if Conflicts(a, events) {
      ConflictRaises(a, t.e.owned, events, t.e.exits);
    } else {
      StartSettles(a, t.e.owned, events, t.e.exits);
      var d := Reconciled(a, t.e.owned, events).a;
      ReconciledCarries(a, t.e.owned, events, t.e.exits);
      KnownCarries(a, d, t.filled);
      StartupCarries(d, t.e.owned, t.e.exits);
      KnownCarries(d, OnStartup(d, t.e.owned).a, t.filled);
      ClearedSaves(d, t.e.owned, t.e.exits);
      KnownSame(d, d.(urgent := []), t.filled);
      hide Cleared, Settled, Reconciled, OnStartup;
    }
  }

  // ---- every step, every run ----

  lemma StepTracked(t: Tracked, act: AdapterRuns.Act)
    requires Inv(t) && Enabled(t.e, act)
    ensures Inv(Track(t, act))
    ensures !act.Start? && Next(t.e, act).process.Up? ==>
      && t.e.process.Up?
      && forall k :: Forgotten(Track(t, act).e.process.a, Track(t, act).filled, k) ==>
           Forgotten(t.e.process.a, t.filled, k)
  {
    if act.Start? {
      StartTracked(t, act.seed, act.cfg);
    } else if act.Fill? {
      FillTracked(t, act.price, act.ts);
    } else {
      hide AdapterRuns.Inv, StepCarries, Forgotten, Known, Restored;
      StepKeeps(t.e, act);
      OtherStepCarries(t.e, act);
      hide Next;
      CarriedInv(t, Next(t.e, act));
      assert StepCarries(t.e, Next(t.e, act));
    }
  }

  lemma OtherStepCarries(e: Engine, act: AdapterRuns.Act)
    requires AdapterRuns.Inv(e) && Enabled(e, act) && !act.Start? && !act.Fill?
    ensures StepCarries(e, Next(e, act))
  {
    hide AdapterRuns.Inv, StepCarries, Next, Enabled;
    match act
    case Funding(_, _, _) => ModelCarries(e, act);
    case Evidence(_, _) => ModelCarries(e, act);
    case Deliver => DeliverCarries(e);
    case BarArrives(b, warmup, due) => BarArrivesCarries(e, b, warmup, due);
    case NoFill => OutcomeCarries(e, act);
    case Exited => OutcomeCarries(e, act);
    case EndBar => OutcomeCarries(e, act);
    case _ => QuietCarries(e, act);
  }

  lemma {:induction false} RunTracked(t: Tracked, script: seq<AdapterRuns.Act>, end: Tracked)
    requires Inv(t) && Tracks(t, script, end)
    ensures Inv(end)
    decreases |script|
  {
    if script != [] {
      hide Inv, Enabled, Track;
      StepTracked(t, script[0]);
      RunTracked(Track(t, script[0]), script[1..], end);
    }
  }

  lemma AttainedInv(t: Tracked)
    requires Attained(t)
    ensures Inv(t)
  {
    var script :| Tracks(Beginning, script, t);
    EventKsAppend([]);
    RunTracked(Beginning, script, t);
  }

  // ---- what a start forgets ----

  /**
   Slot k was filled in the campaign of the snapshot, the snapshot has no trace of it, and nothing
   that a start looks at does: the slot is not funded, not being aborted, and no closure of it or of
   the parent waits to be delivered.
   */
  predicate Lost(t: Tracked, k: int) {
    && t.e.saved.Some? && Restored(t.e.saved.value).Acted?
    && var a := Restored(t.e.saved.value).a;
    && Forgotten(a, t.filled, k) && 0 !in EventKs(t.e.undelivered)
    && (PaperLast(a.machine, k) ==> k !in t.e.owned.Keys + a.aborting + EventKs(t.e.undelivered))
  }

  /** The slots of a live campaign after a start. */
  lemma StartLife(a: Adapter, owned: Owned, events: seq<Event>, exits: set<int>)
    requires Resumable(a, owned, EventKs(events), exits) && Distinct(events) && a.urgent == []
    requires !Conflicts(a, events) && HasOrigin(a.machine, Live)
    ensures Started(a, owned, events).Acted?
    ensures var m1 := Started(a, owned, events).a.machine;
      if 0 in EventKs(events) then m1.campaign.None?
      else
        && HasOrigin(m1, Live) && m1.campaign.value.id == a.machine.campaign.value.id && Restorable(m1)
        && (forall k :: !PaperLast(m1, k))
        && forall k :: Vacant(m1, k) <==>
             Vacant(a.machine, k) && !(PaperLast(a.machine, k) && k in owned.Keys + a.aborting + EventKs(events))
  {
    StartSettles(a, owned, events, exits);
    ResumableBounds(a, owned, EventKs(events), exits);
    hide Resumable, Restorable, Cleared, Settled, Reconciled, OnStartup, PaperLast, Conflicts;
    var d := Reconciled(a, owned, events).a;
    StartupCarries(d, owned, exits);
    if 0 in EventKs(events) {
      ParentReconciled(a, owned, events);
    } else {
      EventKsAreSlots(events);
      ReconciledLife(a, owned, events);
      StartupLife(d, owned, exits);
      StartedShape(OnStartup(d, owned).a, owned, exits);
    }
  }

  lemma StartedShape(a: Adapter, owned: Owned, exits: set<int>)
    requires Settled(a, owned, exits) && HasOrigin(a.machine, Live)
    ensures Restorable(a.machine) && forall k :: !PaperLast(a.machine, k)
  {
    SettledRestorable(a, owned, exits);
    SettledLive(a, owned, exits);
  }

  lemma EventKsAreSlots(events: seq<Event>)
    requires EventKs(events) <= SLOTS
    ensures forall e :: e in events ==> e.k >= 0
  {
    forall e | e in events ensures e.k >= 0 {
      assert e.k in EventKs(events);
    }
  }

  lemma ParentReconciled(a: Adapter, owned: Owned, events: seq<Event>)
    requires Distinct(events) && 0 in EventKs(events) && Reconciled(a, owned, events).Acted?
    ensures Reconciled(a, owned, events).a.machine.campaign.None?
  {
    hide Reconcile, OnExternals, ChildrenFirst;
    ChildrenFirstOrders(events);
    var ordered := ChildrenFirst(events);
    var e :| e in ordered && e.k == 0;
    var i :| 0 <= i < |ordered| && ordered[i] == e;
    ParentEnds(Reconcile(a, owned).a, ordered, owned);
  }

  /**
   A start forgets a filled slot exactly when the snapshot, the funded slots, the aborted ones and the
   closures to be delivered all fail to tell of it.
   */
  lemma StartForgetsExactly(t: Tracked, seed: Adapter, cfg: Config, k: int)
    requires Attained(t) && Enabled(t.e, Start(seed, cfg)) && Next(t.e, Start(seed, cfg)).process.Up?
    ensures Forgotten(Next(t.e, Start(seed, cfg)).process.a, t.filled, k) <==> Lost(t, k)
  {
    AttainedInv(t);
    StartForgets(t, seed, cfg, k);
  }

  lemma StartForgets(t: Tracked, seed: Adapter, cfg: Config, k: int)
    requires Inv(t) && Enabled(t.e, Start(seed, cfg)) && Next(t.e, Start(seed, cfg)).process.Up?
    ensures Forgotten(Next(t.e, Start(seed, cfg)).process.a, t.filled, k) <==> Lost(t, k)
  {
    StartBegins(t, seed, cfg);
    var a, events, owned := StartingPoint(t.e, seed), t.e.undelivered, t.e.owned;
    hide Restored, Persist, Resumable, Carries;
    if Conflicts(a, events) {
      ConflictRaises(a, owned, events, t.e.exits);
    } else {
      StartSettles(a, owned, events, t.e.exits);
      hide Known, Reconciled, OnStartup, Vacant, PaperLast, Cleared, Settled, AdapterRuns.Inv;
      assert Next(t.e, Start(seed, cfg)).process.a == Started(a, owned, events).a;
      if HasOrigin(a.machine, Live) {
        StartLife(a, owned, events, t.e.exits);
      } else {
        NothingToForget(a, owned, events, t.e.exits, t.filled);
      }
    }
  }

  /** A campaign that was not live before a start has no filled add-on. */
  lemma NothingToForget(a: Adapter, owned: Owned, events: seq<Event>, exits: set<int>, filled: set<AddonSlot>)
    requires Resumable(a, owned, EventKs(events), exits) && Distinct(events) && a.urgent == []
    requires !Conflicts(a, events) && !HasOrigin(a.machine, Live) && Known(a, filled)
    ensures Started(a, owned, events).Acted?
    ensures forall k :: !Forgotten(Started(a, owned, events).a, filled, k)
  {
    StartSettles(a, owned, events, exits);
    var d := Reconciled(a, owned, events).a;
    hide Known, Resumable, Carries, Cleared, Settled, Reconciled, OnStartup, Conflicts;
    ReconciledCarries(a, owned, events, exits);
    StartupCarries(d, owned, exits);
    CarriesTrans(a, d, OnStartup(d, owned).a);
    KnownCarries(a, OnStartup(d, owned).a, filled);
  }

  // ---- over whole runs ----

  ghost predicate SomethingForgotten(t: Tracked) {
    t.e.process.Up? && exists k :: Forgotten(t.e.process.a, t.filled, k)
  }

  ghost predicate ForgettingStart(t: Tracked, act: AdapterRuns.Act)
    requires Enabled(t.e, act)
  {
    act.Start? && Next(t.e, act).process.Up? && exists k :: Lost(t, k)
  }

  /** At some point of the run the next add-on may take a slot that was filled. */
  ghost predicate EverForgets(t: Tracked, script: seq<AdapterRuns.Act>, end: Tracked)
    requires Tracks(t, script, end)
    decreases |script|
  {
    SomethingForgotten(t) || (script != [] && EverForgets(Track(t, script[0]), script[1..], end))
  }

  /** Some start of the run begins where a filled slot is lost. */
  ghost predicate StartsForget(t: Tracked, script: seq<AdapterRuns.Act>, end: Tracked)
    requires Tracks(t, script, end)
    decreases |script|
  {
    script != [] && (ForgettingStart(t, script[0]) || StartsForget(Track(t, script[0]), script[1..], end))
  }

  lemma StepForgets(t: Tracked, act: AdapterRuns.Act)
    requires Inv(t) && Enabled(t.e, act) && !SomethingForgotten(t)
    ensures SomethingForgotten(Track(t, act)) <==> ForgettingStart(t, act)
  {
    hide Inv, Forgotten, Lost, Enabled;
    StepTracked(t, act);
    if act.Start? && Next(t.e, act).process.Up? {
      forall k ensures Forgotten(Next(t.e, act).process.a, t.filled, k) <==> Lost(t, k) {
        StartForgets(t, act.seed, act.cfg, k);
      }
    }
  }

  /** A filled slot becomes free again in a run exactly when one of its starts loses it. */
  lemma {:induction false} ForgetsExactly(t: Tracked, script: seq<AdapterRuns.Act>, end: Tracked)
    requires Inv(t) && !SomethingForgotten(t) && Tracks(t, script, end)
    ensures EverForgets(t, script, end) <==> StartsForget(t, script, end)
    decreases |script|
  {
    if script != [] {
      hide Inv, SomethingForgotten, ForgettingStart, Enabled;
      var t1 := Track(t, script[0]);
      StepForgets(t, script[0]);
      StepTracked(t, script[0]);
      if SomethingForgotten(t1) {
        assert EverForgets(t1, script[1..], end);
      } else {
        ForgetsExactly(t1, script[1..], end);
      }
    }
  }

  lemma {:induction false} ForgottenAtEnd(t: Tracked, script: seq<AdapterRuns.Act>, end: Tracked)
    requires Tracks(t, script, end) && SomethingForgotten(end)
    ensures EverForgets(t, script, end)
    decreases |script|
  {
    hide SomethingForgotten, Enabled, Track;
    if script != [] {
      ForgottenAtEnd(Track(t, script[0]), script[1..], end);
    }
  }

  /** An add-on order is the next one to be submitted. */
  predicate AboutToAdd(t: Tracked) {
    Heads(t.e) && t.e.process.phase.intents[0].Enter? && t.e.process.phase.intents[0].k > 0
  }

  /** The slot that this order is for was filled before in the same campaign. */
  predicate Refills(t: Tracked)
    requires AboutToAdd(t)
  {
    AddonSlot(t.e.process.phase.intents[0].campaign, t.e.process.phase.intents[0].k) in t.filled
  }

  /** An entry for a slot that was filled before in this campaign is submitted only if the slot was forgotten. */
  lemma RefillWasForgotten(t: Tracked)
    requires Inv(t) && AboutToAdd(t) && Refills(t)
    ensures SomethingForgotten(t)
  {
    EntryHead(t.e);
    var i := t.e.process.phase.intents[0];
    EnteringSlot(t.e.process.a, t.e.owned, t.e.exits, i);
    EnteringCampaign(t.e.process.a, t.e.owned, t.e.exits, i);
    assert Forgotten(t.e.process.a, t.filled, i.k);
  }

  lemma EnteringCampaign(a: Adapter, owned: Owned, exits: set<int>, i: Intent)
    requires Entering(a, owned, exits, i)
    ensures a.machine.campaign.Some? && a.machine.campaign.value.id == i.campaign
  {
  }

  /**
   In every run in which no start loses a filled slot, crashes included, every add-on order goes to
   a slot that its campaign never filled before.
   */
  lemma NoSlotFilledTwice(script: seq<AdapterRuns.Act>, t: Tracked)
    requires Tracks(Beginning, script, t) && !StartsForget(Beginning, script, t)
    requires AboutToAdd(t)
    ensures !Refills(t)
  {
    EventKsAppend([]);
    assert Inv(Beginning) && !SomethingForgotten(Beginning);
    hide Inv, SomethingForgotten, StartsForget, EverForgets, Tracks;
    ForgetsExactly(Beginning, script, t);
    RunTracked(Beginning, script, t);
    if Refills(t) {
      RefillWasForgotten(t);
      ForgottenAtEnd(Beginning, script, t);
    }
  }

  // ---- the engine alone ----

  /**
   A snapshot with a modelled add-on in slot k, closures to be delivered and aborted slots included:
   a start that keeps the campaign takes the slot number back exactly when nothing tells of a fill.
   */
  lemma StartReturnsSlotExactly(e: Engine, seed: Adapter, cfg: Config, k: int)
    requires Reachable(e) && Enabled(e, Start(seed, cfg)) && Next(e, Start(seed, cfg)).process.Up?
    requires PaperLast(StartingPoint(e, seed).machine, k) && 0 !in EventKs(e.undelivered)
    ensures var a := StartingPoint(e, seed);
      var m1 := Next(e, Start(seed, cfg)).process.a.machine;
      && HasOrigin(m1, Live) && m1.campaign.value.id == a.machine.campaign.value.id
      && m1.campaign.value.lifetimeUnits
         == if k in e.owned.Keys + a.aborting + EventKs(e.undelivered) then k + 1 else k
  {
    ReachableInv(e);
    var a := StartingPoint(e, seed);
    if e.saved.None? {
      FreshSettles(seed);
      EventKsAppend([]);
    } else {
      RestoredHasNoUrgent(e.saved.value);
    }
    hide Restored, Persist, Resumable, Reachable;
    if Conflicts(a, e.undelivered) {
      ConflictRaises(a, e.owned, e.undelivered, e.exits);
    } else {
      StartSettles(a, e.owned, e.undelivered, e.exits);
      StartLife(a, e.owned, e.undelivered, e.exits);
      hide Reconciled, OnStartup, Cleared, Settled;
      LifeFromVacant(a.machine, Started(a, e.owned, e.undelivered).a.machine, k,
                     e.owned.Keys + a.aborting + EventKs(e.undelivered));
    }
  }

  lemma LifeFromVacant(m: Machine, m1: Machine, k: int, told: set<int>)
    requires PaperLast(m, k) && HasOrigin(m1, Live) && Restorable(m1) && forall j :: !PaperLast(m1, j)
    requires forall j :: Vacant(m1, j) <==> Vacant(m, j) && !(PaperLast(m, j) && j in told)
    ensures m1.campaign.value.lifetimeUnits == if k in told then k + 1 else k
  {
    var life := m1.campaign.value.lifetimeUnits;
    assert life > 0;
    assert Vacant(m1, life) && !Vacant(m1, life - 1);
    assert Vacant(m, life) && (Vacant(m, life - 1) ==> PaperLast(m, life - 1));
  }

  // ---- the run that loses a fill ----

  lemma {:induction false} TracksOneMore(
    t: Tracked, script: seq<AdapterRuns.Act>, mid: Tracked, act: AdapterRuns.Act)
    requires Tracks(t, script, mid) && Enabled(mid.e, act)
    ensures Tracks(t, script + [act], Track(mid, act))
    decreases |script|
  {
    hide Enabled, Track;
    if script == [] {
      assert (script + [act])[1..] == [];
    } else {
      assert (script + [act])[1..] == script[1..] + [act];
      TracksOneMore(Track(t, script[0]), script[1..], mid, act);
    }
  }

  lemma AttainedOneMore(t: Tracked, act: AdapterRuns.Act)
    requires Attained(t) && Enabled(t.e, act)
    ensures Attained(Track(t, act))
  {
    hide Enabled, Track;
    var script :| Tracks(Beginning, script, t);
    TracksOneMore(Beginning, script, t, act);
  }

  /** A fill beyond the distance cap asks for its own exit at once. */
  lemma FarFillExits(a: Adapter, owned: Owned, exits: set<int>, i: Intent, price: Price)
    requires Entering(a, owned, exits, i) && i.k > 0
    requires TooFar(a.machine.campaign.value.side, price, Units(a.machine)[0].entryPrice)
    ensures OnEntered(a, i.k, price).Acted? && OnEntered(a, i.k, price).intents == [Leave(i.k, true)]
  {
    hide Restorable, TooFar, KsOf, FarSlots, LiveButLast, ConfirmOwnedFill, ConfirmedUnits, HasK, FindK;
    EnteringSlot(a, owned, exits, i);
    SlotIsUnit(a.machine, i.k);
    var ts := FindK(Units(a.machine), i.k).entryTs;
    ConfirmFill(a.machine, i.k, ts, price);
    FarIfTooFar(a.machine, ConfirmOwnedFill(a.machine, i.k, ts, price).m, i.k, ts, price);
  }

  predicate FarFrom(m: Machine, price: Price) {
    m.campaign.Some? && Units(m) != [] && TooFar(m.campaign.value.side, price, Units(m)[0].entryPrice)
  }

  lemma FillLooks(t: Tracked, i: Intent, price: Price, ts: int)
    requires t.e.process.Up? && t.e.process.phase == Submitting([i], true) && i.Enter? && i.k > 0
    requires OnEntered(t.e.process.a, i.k, price).Acted?
    ensures Enabled(t.e, Fill(price, ts))
    ensures var r, t1 := OnEntered(t.e.process.a, i.k, price), Track(t, Fill(price, ts));
      && t1.e.process == t.e.process.(a := r.a, phase := Submitting(r.intents, true))
      && t1.e.owned == t.e.owned[i.k := Held(i.side, price, ts)] && t1.e.saved == t.e.saved
      && t1.e.undelivered == t.e.undelivered && t1.filled == t.filled + {AddonSlot(i.campaign, i.k)}
  {
    hide OnEntered;
    assert [i][1..] == [];
    var r := OnEntered(t.e.process.a, i.k, price);
    assert [] + r.intents == r.intents;
  }

  /** The order fills beyond the cap, and its exit is next. */
  lemma FarFillAsks(t: Tracked, price: Price, ts: int)
    requires Inv(t) && AboutToAdd(t) && FarFrom(t.e.process.a.machine, price)
    ensures Enabled(t.e, Fill(price, ts))
    ensures var i, t1 := t.e.process.phase.intents[0], Track(t, Fill(price, ts));
      && i.k !in t.e.owned && t1.e.process.Up? && t1.e.process.phase == Submitting([Leave(i.k, true)], true)
      && t1.e.owned == t.e.owned[i.k := Held(i.side, price, ts)] && t1.e.saved == t.e.saved
      && t1.e.undelivered == t.e.undelivered && t1.filled == t.filled + {AddonSlot(i.campaign, i.k)}
  {
    hide AdapterRuns.Inv, SavedKnown, Known, OnEntered, TooFar, Entering, Restored, Next;
    EntryHead(t.e);
    var i := t.e.process.phase.intents[0];
    assert t.e.process.phase.intents == [i];
    FarFillExits(t.e.process.a, t.e.owned, t.e.exits, i, price);
    FillLooks(t, i, price, ts);
  }

  /** The exit is done, and the process is gone before the bar ends. */
  lemma ExitThenCrash(t: Tracked, k: int)
    requires Inv(t) && t.e.process.Up? && t.e.process.phase == Submitting([Leave(k, true)], true) && k in t.e.owned
    ensures Enabled(t.e, AdapterRuns.Act.Exited) && Enabled(Track(t, AdapterRuns.Act.Exited).e, Crash)
    ensures var t1 := Track(Track(t, AdapterRuns.Act.Exited), Crash);
      && t1.e.process.Down? && t1.e.owned == t.e.owned - {k} && t1.e.saved == t.e.saved
      && t1.e.undelivered == t.e.undelivered && t1.filled == t.filled
  {
    ExitedKeeps(t.e);
    hide AdapterRuns.Inv, SavedKnown, Known, OnExited;
  }

  /** What the snapshot of a bar that asks for an add-on holds: the add-on, modelled only. */
  lemma SavedAddon(t: Tracked)
    requires Inv(t) && AboutToAdd(t)
    ensures var a, i := t.e.process.a, t.e.process.phase.intents[0];
      && t.e.saved.Some? && Restored(t.e.saved.value).Acted? && Restored(t.e.saved.value).a == a
      && PaperLast(a.machine, i.k) && a.machine.campaign.value.id == i.campaign && a.aborting == {}
      && t.e.undelivered == []
  {
    EntryHead(t.e);
    hide Restored, Resumable, Restorable, TooFar, KsOf, LiveButLast, Settled, MirrorOk;
  }

  /** The run: a fill beyond the cap, its exit, a crash, a start. */
  function FarFillRun(price: Price, ts: int, seed: Adapter, cfg: Config): seq<AdapterRuns.Act> {
    [Fill(price, ts), AdapterRuns.Act.Exited, Crash, Start(seed, cfg)]
  }

  lemma FourSteps(t: Tracked, a: AdapterRuns.Act, b: AdapterRuns.Act, c: AdapterRuns.Act, d: AdapterRuns.Act)
    requires Enabled(t.e, a) && Enabled(Track(t, a).e, b) && Enabled(Track(Track(t, a), b).e, c)
    requires Enabled(Track(Track(Track(t, a), b), c).e, d)
    ensures Tracks(t, [a, b, c, d], Track(Track(Track(Track(t, a), b), c), d))
  {
    hide Enabled, Track;
    var t1 := Track(t, a);
    var t2 := Track(t1, b);
    var t3 := Track(t2, c);
    var t4 := Track(t3, d);
    assert [d][1..] == [] && [c, d][1..] == [d] && [b, c, d][1..] == [c, d] && [a, b, c, d][1..] == [b, c, d];
    assert Tracks(t4, [], t4);
    assert Tracks(t3, [d], t4);
    assert Tracks(t2, [c, d], t4);
    assert Tracks(t1, [b, c, d], t4);
  }

  /** Up to the crash. */
  lemma FarFillLost(t: Tracked, price: Price, ts: int) returns (down: Tracked)
    requires Inv(t) && AboutToAdd(t) && FarFrom(t.e.process.a.machine, price)
    ensures Enabled(t.e, Fill(price, ts)) && Enabled(Track(t, Fill(price, ts)).e, AdapterRuns.Act.Exited)
    ensures Enabled(Track(Track(t, Fill(price, ts)), AdapterRuns.Act.Exited).e, Crash)
    ensures down == Track(Track(Track(t, Fill(price, ts)), AdapterRuns.Act.Exited), Crash)
    ensures Inv(down) && down.e.process.Down? && down.e.undelivered == [] && down.e.owned == t.e.owned
    ensures var i := t.e.process.phase.intents[0];
      && AddonSlot(i.campaign, i.k) in down.filled && Lost(down, i.k)
      && down.e.saved.Some? && Restored(down.e.saved.value).Acted? && Restored(down.e.saved.value).a == t.e.process.a
  {
    hide Enabled, Next, Inv, Restored, FarFrom, Lost, PaperLast;
    var i := t.e.process.phase.intents[0];
    FarFillAsks(t, price, ts);
    SavedAddon(t);
    var fill := Track(t, Fill(price, ts));
    StepTracked(t, Fill(price, ts));
    ExitThenCrash(fill, i.k);
    StepTracked(fill, AdapterRuns.Act.Exited);
    StepTracked(Track(fill, AdapterRuns.Act.Exited), Crash);
    down := Track(Track(fill, AdapterRuns.Act.Exited), Crash);
    assert down.e.owned == t.e.owned;
    LostAddon(down, Restored(t.e.saved.value).a, i.k);
  }

  /**
   Whenever an add-on order is about to be submitted: filled beyond the cap, its exit done, and the
   process gone before the end of the bar, the next start gives its slot number back to the campaign.
   */
  lemma FarFillIsForgotten(t: Tracked, price: Price, ts: int, seed: Adapter, cfg: Config) returns (t1: Tracked)
    requires Inv(t) && AboutToAdd(t) && FarFrom(t.e.process.a.machine, price) && Fresh(seed)
    ensures Tracks(t, FarFillRun(price, ts, seed, cfg), t1) && t1.e.owned == t.e.owned
    ensures t1.e.process.Up? && t1.e.process == Up(t1.e.process.a, t.e.owned, false, cfg, Idle)
    ensures var i := t.e.process.phase.intents[0];
      AddonSlot(i.campaign, i.k) in t1.filled && Forgotten(t1.e.process.a, t1.filled, i.k)
    ensures StartsAs(t.e.process.a, t.e.owned, t1.e.process.a)
  {
    hide Enabled, Next, Inv, Restored, FarFrom, Forgotten, Lost, PaperLast, StartsAs;
    var down := FarFillLost(t, price, ts);
    StartRuns(down, seed, cfg);
    assert StartingPoint(down.e, seed) == t.e.process.a;
    StartForgets(down, seed, cfg, t.e.process.phase.intents[0].k);
    t1 := Track(down, Start(seed, cfg));
    FourSteps(t, Fill(price, ts), AdapterRuns.Act.Exited, Crash, Start(seed, cfg));
  }

  lemma LostAddon(t: Tracked, a: Adapter, k: int)
    requires t.e.saved.Some? && Restored(t.e.saved.value).Acted? && Restored(t.e.saved.value).a == a
    requires PaperLast(a.machine, k) && a.aborting == {} && t.e.undelivered == [] && k !in t.e.owned
    requires AddonSlot(a.machine.campaign.value.id, k) in t.filled
    ensures Lost(t, k)
  {
    hide Restored;
    EventKsAppend([]);
  }

  /** What a start makes of a snapshot when nothing waits to be delivered. */
  predicate StartsAs(a: Adapter, owned: Owned, b: Adapter) {
    Started(a, owned, []).Acted? && Started(a, owned, []).a == b
  }

  /** With nothing to deliver, a start succeeds and shows the strategy what is funded. */
  lemma StartRuns(t: Tracked, seed: Adapter, cfg: Config)
    requires Inv(t) && t.e.process.Down? && t.e.undelivered == [] && Fresh(seed)
    ensures Enabled(t.e, Start(seed, cfg))
    ensures var e1 := Next(t.e, Start(seed, cfg));
      && e1.process.Up? && e1.process == Up(e1.process.a, t.e.owned, false, cfg, Idle) && e1.owned == t.e.owned
      && StartsAs(StartingPoint(t.e, seed), t.e.owned, e1.process.a)
  {
    StartBegins(t, seed, cfg);
    var a := StartingPoint(t.e, seed);
    EventKsAppend([]);
    hide Restored, Persist, Resumable, Known;
    StartSettles(a, t.e.owned, [], t.e.exits);
    hide Reconciled, OnStartup;
  }
}
