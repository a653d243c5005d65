/** In every run of the live loop no funded slot is orphaned, and a restart finds every owner. */
module AdapterGuarantees {
  import opened Common
  import opened CloseRange
  import opened CloseRangeProperties
  import opened Adapter
  import opened AdapterRuns
  import opened AdapterHooks
  import opened AdapterBars
  import opened AdapterStartup

  // ---- each step ----

  lemma CrashKeeps(e: Engine)
    requires Inv(e) && Enabled(e, Crash)
    ensures Inv(Next(e, Crash))
  {
    hide Restored, Resumable, Settled, MirrorOk;
  }

  lemma MachineMoves(e: Engine, m1: Machine)
    requires Inv(e) && InPhase(e, Idle) && Restorable(m1) && Observed(e.process.a.machine, m1)
    requires m1.lastBarTs == e.process.a.machine.lastBarTs
    ensures Inv(e.(process := e.process.(a := e.process.a.(machine := m1))))
  {
    hide Restored, Resumable, Restorable, Observed;
    MinuteSettles(e.process.a, m1, e.owned, e.exits);
    hide Settled;
  }

  lemma ModelKeeps(e: Engine, act: Act)
    requires Inv(e) && Enabled(e, act) && (act.Funding? || act.Evidence?)
    ensures Inv(Next(e, act))
  {
    hide SavedOk, Settled;
    var m := e.process.a.machine;
    assert Restorable(m) by {
      SettledRestorable(e.process.a, e.owned, e.exits);
    }
    if act.Funding? {
      FundingKeeps(m, act.ts, act.rate, act.fixing);
      MachineMoves(e, ApplyFunding(m, act.ts, act.rate, act.fixing).m);
    } else {
      MachineMoves(e, m.(modelComplete := act.complete, fundingAvailable := act.available));
    }
  }

  lemma SettledRestorable(a: Adapter, owned: Owned, exits: set<int>)
    requires Settled(a, owned, exits)
    ensures Restorable(a.machine) && a.closing <= SLOTS && a.aborting <= CHILDREN && exits <= owned.Keys
    ensures exits <= a.closing + a.aborting && owned.Keys <= SLOTS
  {
  }

  lemma EventKsAppend(events: seq<Event>)
    ensures EventKs([] + events) == EventKs(events) && [] + events == events && EventKs([]) == {}
  {
  }

  lemma VenueClosesKeeps(e: Engine, events: seq<Event>)
    requires Inv(e) && Enabled(e, VenueCloses(events))
    ensures Inv(Next(e, VenueCloses(events)))
  {
    EventKsAppend(events);
    var e1 := Next(e, VenueCloses(events));
    assert e1.undelivered == events;
    assert events[0] in events && events[0].k in EventKs(events) && events[0].k in e.owned;
    assert e.saved.Some?;
    hide Settled, Restored, Resumable, MirrorOk;
    var a0 := Restored(e.saved.value).a;
    ToUndelivered(a0, e.owned, {}, e.exits, EventKs(events));
    assert {} + EventKs(events) == EventKs(events);
    SettledWithFewerExits(e.process.a, e.owned, e.exits, e1.exits);
  }

  lemma SettledWithFewerExits(a: Adapter, owned: Owned, exits: set<int>, fewer: set<int>)
    requires Settled(a, owned, exits) && fewer <= exits
    ensures Settled(a, owned, fewer)
  {
    hide Restorable, TooFar, KsOf;
  }

  lemma DeliverKeeps(e: Engine)
    requires Inv(e) && Enabled(e, Deliver)
    ensures Inv(Next(e, Deliver)) && Next(e, Deliver).process.Up?
  {
    hide Settled, Restored, Resumable;
    var p := e.process;
    ChildrenFirstOrders(e.undelivered);
    SettledRestorable(p.a, p.phase.before, e.exits);
    assert e.exits !! EventKs(e.undelivered) by {
      ExitsAreOwned(e);
      assert e.owned.Keys == p.phase.before.Keys - EventKs(e.undelivered);
    }
    ExternalsSettle(p.a, p.phase.before, e.exits, ChildrenFirst(e.undelivered), e.owned);
    var a1 := OnExternals(p.a, ChildrenFirst(e.undelivered), e.owned).a;
    SavedSettled(a1, e.owned, e.exits);
    EventKsAppend([]);
  }

  lemma ExitsAreOwned(e: Engine)
    requires SavedOk(e)
    ensures e.exits <= e.owned.Keys && (e.owned != map[] ==> e.saved.Some?)
  {
  }

  lemma SavedSettled(a: Adapter, owned: Owned, exits: set<int>)
    requires Settled(a, owned, exits)
    ensures Restored(Persist(a)) == Acted(a.(urgent := []), [])
    ensures Resumable(a.(urgent := []), owned, {}, exits)
  {
    SettledRestorable(a, owned, exits);
    SavedBack(a);
    hide Restored, Persist;
    SettledResumes(a, owned, exits);
  }

  lemma RetryKeeps(e: Engine, k: int)
    requires Inv(e) && Enabled(e, Retry(k))
    ensures Inv(Next(e, Retry(k)))
  {
    hide Restored, Resumable, Settled, Entering, MayExit;
    ExitsAreOwned(e);
    EventKsAppend([]);
    var p := e.process;
    SettledRestorable(p.a, e.owned, e.exits);
    var a0 := Restored(e.saved.value).a;
    ResumableExits(a0, e.owned, {}, e.exits, k);
    LostOwned(a0, e.owned, {}, e.exits, k);
    RetrySettles(p.a, e.owned, e.exits, k);
  }

  lemma ResumableExits(a: Adapter, owned: Owned, undelivered: set<int>, exits: set<int>, k: int)
    requires Resumable(a, owned, undelivered, exits) && k in exits
    ensures MayExit(a, k, owned)
  {
  }

  /** A retried exit reports nothing to the adapter; the slot is closing or aborting already. */
  lemma RetrySettles(a: Adapter, owned: Owned, exits: set<int>, k: int)
    requires Settled(a, owned, exits) && k in exits
    ensures Settled(a, owned - {k}, exits - {k})
  {
    hide Restorable, TooFar, KsOf;
    assert (owned - {k}).Keys == owned.Keys - {k};
  }

  // ---- bars ----

  lemma LeavesMayExit(a: Adapter, owned: Owned, intents: seq<Intent>)
    requires LeavesOk(a, owned, intents) && (a.closing != {} ==> a.machine.campaign.None?)
    ensures forall i :: i in intents && i.Leave? && i.k in owned ==> MayExit(a, i.k, owned)
  {
  }

  lemma LiveBarLeaves(a: Adapter, intents: seq<Intent>, owned: Owned, exits: set<int>)
    requires LiveBarOk(a, intents, owned, exits)
    ensures LeavesOk(a, owned, intents)
  {
    hide LeavesOk, NoEntry, Settled, Entering;
  }

  lemma LiveBarSaves(a: Adapter, intents: seq<Intent>, owned: Owned, exits: set<int>)
    requires LiveBarOk(a, intents, owned, exits)
    ensures Restored(Persist(a)) == Acted(a, []) && Resumable(a, owned, {}, exits)
    ensures a.closing != {} ==> a.machine.campaign.None?
  {
    if NoEntry(intents) {
      SavedSettled(a, owned, exits);
      assert a.(urgent := []) == a;
    } else {
      SavedBack(a);
      EnteringResumes(a, owned, exits, intents[|intents| - 1]);
    }
  }

  lemma WarmupBarKeeps(e: Engine, b: Bar, due: bool)
    requires Inv(e) && Enabled(e, BarArrives(b, true, due))
    ensures Inv(Next(e, BarArrives(b, true, due)))
  {
    var p := e.process;
    hide OnBar, Restored, Persist, Resumable, Settled, MirrorOk, Entering;
    EventKsAppend([]);
    WarmupSettles(p.a, b, p.mirror, p.cfg, e.owned, e.exits);
  }

  lemma LiveBarKeeps(e: Engine, b: Bar, due: bool)
    requires Inv(e) && Enabled(e, BarArrives(b, false, due))
    ensures Inv(Next(e, BarArrives(b, false, due)))
  {
    hide OnBar, Restored, Persist, Resumable, Settled, MirrorOk, Entering, LiveBarOk, MayExit, LeavesOk, NoEntry;
    var p := e.process;
    var r := OnBar(p.a, b, false, p.mirror, p.cfg);
    EventKsAppend([]);
    if r.Acted? {
      LiveBarActs(p.a, b, p.mirror, p.cfg, e.owned, e.exits);
      LiveBarSaves(r.a, r.intents, e.owned, e.exits);
      LiveBarLeaves(r.a, r.intents, e.owned, e.exits);
      LeavesMayExit(r.a, e.owned, r.intents);
      LiveBarInv(Next(e, BarArrives(b, false, due)), r.a, r.intents, due);
    }
  }

  /** The engine right after a live bar was decided. */
  lemma LiveBarInv(e: Engine, a: Adapter, intents: seq<Intent>, due: bool)
    requires e.process.Up? && e.process.liveSeen && e.process.a == a && e.process.phase == Submitting(intents, due)
    requires LiveBarOk(a, intents, e.owned, e.exits) && SavedOk(e) && e.undelivered == []
    requires intents != [] ==> due
    requires due ==> e.saved == Some(Persist(a)) && Restored(Persist(a)) == Acted(a, [])
    requires forall i :: i in intents && i.Leave? && i.k in e.owned ==> MayExit(a, i.k, e.owned)
    ensures Inv(e)
  {
    hide SavedOk, Restored, Persist, Settled, Entering, MayExit;
  }

  lemma WithheldKeeps(e: Engine, warmup: bool, due: bool)
    requires Inv(e) && Enabled(e, BarWithheld(warmup, due))
    ensures Inv(Next(e, BarWithheld(warmup, due)))
  {
    hide Restored, Persist, Resumable, Settled, MirrorOk, Entering, MayExit;
    var p := e.process;
    EventKsAppend([]);
    assert NoEntry([]) && LeavesOk(p.a, e.owned, []);
    SavedSettled(p.a, e.owned, e.exits);
  }

  // ---- order outcomes ----

  predicate Remaining(e: Engine, intents: seq<Intent>)
    requires e.process.Up? && e.process.phase.Submitting?
  {
    && LeavesOk(e.process.a, e.owned, intents)
    && (intents != [] ==>
          && e.process.phase.due && e.process.a.urgent == [] && e.saved.Some? && Restored(e.saved.value).Acted?
          && forall i :: i in intents && i.Leave? && i.k in e.owned ==>
              MayExit(Restored(e.saved.value).a, i.k, e.owned))
  }

  /** Nothing is left to enter: the rest of the bar only closes. */
  lemma ClosingInv(e: Engine, intents: seq<Intent>, due: bool)
    requires e.process.Up? && e.process.liveSeen && e.process.phase == Submitting(intents, due)
    requires Settled(e.process.a, e.owned, e.exits) && SavedOk(e) && e.undelivered == []
      && NoEntry(intents) && Remaining(e, intents)
    ensures Inv(e)
  {
    hide SavedOk, Restored, Settled, MayExit;
  }

  lemma RestMembers(intents: seq<Intent>)
    requires intents != []
    ensures forall i :: i in intents[1..] ==> i in intents
    ensures intents[0] in intents
    ensures NoEntry(intents) ==> NoEntry(intents[1..])
    ensures |intents| > 1 ==>
      intents[1..][|intents| - 2] == intents[|intents| - 1]
          && intents[1..][..|intents| - 2] == intents[..|intents| - 1][1..]
  {
  }

  /** Only the last intent can be an entry, and before it nothing owned is being closed. */
  lemma EntryIsLast(a: Adapter, owned: Owned, exits: set<int>, intents: seq<Intent>)
    requires intents != [] && NoEntry(intents[..|intents| - 1]) && Entering(a, owned, exits, intents[|intents| - 1])
    requires LeavesOk(a, owned, intents)
    ensures forall i :: i in intents && i.Leave? ==> i.k !in owned
    ensures intents[0].Enter? ==> |intents| == 1
    ensures intents[|intents| - 1].k !in owned
  {
    hide Restorable, TooFar, KsOf;
    if |intents| > 1 {
      assert intents[..|intents| - 1][0] in intents[..|intents| - 1];
    }
    assert owned == map[] || a.aborting == {};
  }

  lemma MayExitStays(a: Adapter, owned: Owned, fewer: Owned)
    requires forall k :: k in fewer ==> k in owned && fewer[k] == owned[k]
    ensures forall k :: k in fewer && MayExit(a, k, owned) ==> MayExit(a, k, fewer)
  {
    hide TooFar;
  }

  lemma ExitedKeeps(e: Engine)
    requires Inv(e) && Enabled(e, AdapterRuns.Act.Exited)
    ensures Inv(Next(e, AdapterRuns.Act.Exited)) && Next(e, AdapterRuns.Act.Exited).process.Up?
  {
    hide OnExited, Restored, Persist, Resumable, Settled, MirrorOk, Entering, MayExit;
    var p := e.process;
    var intents := p.phase.intents;
    var i := intents[0];
    RestMembers(intents);
    ExitsAreOwned(e);
    EventKsAppend([]);
    if !NoEntry(intents) {
      EntryIsLast(p.a, e.owned, e.exits, intents);
    }
    var a0 := Restored(e.saved.value).a;
    assert MayExit(a0, i.k, e.owned);
    LostOwned(a0, e.owned, {}, e.exits, i.k);
    ExitedSettles(p.a, e.owned, e.exits, i.k, i.abort);
    MayExitStays(a0, e.owned, e.owned - {i.k});
    ClosingInv(Next(e, AdapterRuns.Act.Exited), intents[1..], p.phase.due);
  }

  lemma SkippedKeeps(e: Engine, exits: set<int>)
    requires Inv(e) && Heads(e) && !e.process.phase.intents[0].Enter?
    requires exits == e.exits || (e.process.phase.intents[0].Leave? && e.process.phase.intents[0].k in e.owned
                                  && exits == e.exits + {e.process.phase.intents[0].k})
    ensures Inv(e.(exits := exits, process := e.process.(
              phase := Submitting(e.process.phase.intents[1..], e.process.phase.due))))
  {
    hide Distinct;
    hide Restored, Resumable, Settled, MirrorOk, Entering, MayExit;
    var p := e.process;
    var intents := p.phase.intents;
    RestMembers(intents);
    ExitsAreOwned(e);
    EventKsAppend([]);
    if exits != e.exits {
      ExitMayWait(Restored(e.saved.value).a, e.owned, {}, e.exits, intents[0].k);
    }
    if NoEntry(intents) {
      SettledExit(p.a, e.owned, e.exits, intents[0], exits);
    } else {
      EntryIsLast(p.a, e.owned, e.exits, intents);
    }
  }

  lemma ExitMayWait(a: Adapter, owned: Owned, undelivered: set<int>, exits: set<int>, k: int)
    requires Resumable(a, owned, undelivered, exits) && k in owned && MayExit(a, k, owned)
    ensures Resumable(a, owned, undelivered, exits + {k})
  {
    hide MayExit;
  }

  lemma SettledExit(a: Adapter, owned: Owned, exits: set<int>, i: Intent, exits1: set<int>)
    requires Settled(a, owned, exits)
    requires exits1 == exits || (i.Leave? && i.k in owned && exits1 == exits + {i.k}
                                 && if i.abort then i.k in a.aborting else i.k in a.closing)
    ensures Settled(a, owned, exits1)
  {
    hide Restorable, TooFar, KsOf;
  }

  lemma EntryHead(e: Engine)
    requires Inv(e) && Heads(e) && e.process.phase.intents[0].Enter?
    ensures |e.process.phase.intents| == 1
    ensures Entering(e.process.a, e.owned, e.exits, e.process.phase.intents[0])
    ensures e.saved.Some? && Restored(e.saved.value) == Acted(e.process.a, Restored(e.saved.value).intents)
    ensures e.process.phase.intents[0].k !in e.owned && e.process.phase.due && e.process.liveSeen
  {
    hide Resumable, Settled, MirrorOk, Entering;
    var intents := e.process.phase.intents;
    assert intents[0] in intents;
    EntryIsLast(e.process.a, e.owned, e.exits, intents);
  }

  lemma FillKeeps(e: Engine, price: Price, ts: int)
    requires Inv(e) && Enabled(e, Fill(price, ts))
    ensures Inv(Next(e, Fill(price, ts))) && Next(e, Fill(price, ts)).process.Up?
  {
    hide Restored, Resumable, Settled, MirrorOk, Entering, MayExit, OnEntered, TooFar;
    var p := e.process;
    var i := p.phase.intents[0];
    EntryHead(e);
    EventKsAppend([]);
    FilledResumes(p.a, e.owned, e.exits, i, Held(i.side, price, ts));
    if i.k == 0 {
      FillSettlesParent(p.a, e.owned, e.exits, i, price, ts);
    } else {
      FillSettlesAddon(p.a, e.owned, e.exits, i, price, ts);
      AddonMayExit(p.a, e.owned, e.exits, i, Held(i.side, price, ts));
    }
    ClosingInv(Next(e, Fill(price, ts)), OnEntered(p.a, i.k, price).intents, p.phase.due);
  }

  lemma AddonMayExit(a: Adapter, owned: Owned, exits: set<int>, i: Intent, h: Held)
    requires Entering(a, owned, exits, i) && i.k != 0
    ensures TooFar(a.machine.campaign.value.side, h.price, Units(a.machine)[0].entryPrice) ==>
        MayExit(a, i.k, owned[i.k := h])
  {
    hide Restorable, TooFar, KsOf;
  }

  lemma NoFillKeeps(e: Engine)
    requires Inv(e) && Enabled(e, NoFill)
    ensures Inv(Next(e, NoFill)) && Next(e, NoFill).process.Up?
  {
    var p := e.process;
    var i := p.phase.intents[0];
    EntryHead(e);
    NoFillSettles(p.a, e.owned, e.exits, i);
    hide Restored, Resumable, Settled, MirrorOk, Entering, MayExit, OnNotEntered;
    assert p.phase.intents[1..] == [];
    ClosingInv(Next(e, NoFill), [], p.phase.due);
  }

  lemma EndBarKeeps(e: Engine)
    requires Inv(e) && Enabled(e, EndBar)
    ensures Inv(Next(e, EndBar)) && Next(e, EndBar).process.Up?
  {
    hide Restored, Persist, Resumable, Settled, Reconcile, LeavesOk, Entering, MayExit;
    var p := e.process;
    EventKsAppend([]);
    assert NoEntry([]);
    ReconcileSettles(p.a, e.owned, e.exits);
    var a1 := Reconcile(p.a, e.owned).a;
    SavedSettled(a1, e.owned, e.exits);
  }

  // ---- starting ----

  lemma FreshSettles(a: Adapter)
    requires Fresh(a)
    ensures Resumable(a, map[], {}, {})
  {
    hide Restorable;
  }

  lemma StartKeeps(e: Engine, seed: Adapter, cfg: Config)
    requires Inv(e) && Enabled(e, Start(seed, cfg))
    ensures Inv(Next(e, Start(seed, cfg)))
  {
    var a := if e.saved.Some? then Restored(e.saved.value).a else seed;
    if e.saved.None? {
      FreshSettles(seed);
      EventKsAppend([]);
    } else {
      RestoredHasNoUrgent(e.saved.value);
    }
    hide Resumable, Restored;
    if Conflicts(a, e.undelivered) {
      ConflictRaises(a, e.owned, e.undelivered, e.exits);
    } else {
      StartSettles(a, e.owned, e.undelivered, e.exits);
      var d := Reconciled(a, e.owned, e.undelivered);
      ClearedSaves(d.a, e.owned, e.exits);
      EventKsAppend([]);
      hide Settled, Cleared, Reconciled, OnStartup, Persist;
      MirrorSelf(OnStartup(d.a, e.owned).a, e.owned);
    }
  }

  lemma MirrorSelf(a: Adapter, owned: Owned)
    ensures MirrorOk(a, owned, owned)
  {
  }

  lemma RestoredHasNoUrgent(s: Saved)
    ensures Restored(s).Acted? ==> Restored(s).a.urgent == []
  {
  }

  lemma ClearedSaves(a: Adapter, owned: Owned, exits: set<int>)
    requires Cleared(a, owned, {}, exits)
    ensures Restored(Persist(a)) == Acted(a.(urgent := []), []) && Resumable(a.(urgent := []), owned, {}, exits)
  {
    SavedBack(a);
    hide Restored, Persist, Restorable, TooFar, KsOf;
  }

  // ---- every step, every run ----

  lemma StepKeeps(e: Engine, act: Act)
    requires Inv(e) && Enabled(e, act)
    ensures Inv(Next(e, act))
  {
    hide Inv, Next;
    match act
    case Start(seed, cfg) => StartKeeps(e, seed, cfg);
    case Crash => CrashKeeps(e);
    case Funding(_, _, _) => ModelKeeps(e, act);
    case Evidence(_, _) => ModelKeeps(e, act);
    case VenueCloses(events) => VenueClosesKeeps(e, events);
    case Deliver => DeliverKeeps(e);
    case Retry(k) => RetryKeeps(e, k);
    case BarArrives(b, warmup, due) =>
      if warmup {
        WarmupBarKeeps(e, b, due);
      } else {
        LiveBarKeeps(e, b, due);
      }
    case BarWithheld(warmup, due) => WithheldKeeps(e, warmup, due);
    case Fill(price, ts) => FillKeeps(e, price, ts);
    case NoFill => NoFillKeeps(e);
    case Exited => ExitedKeeps(e);
    case NotExited(_) => HeadsSkipped(e, act);
    case Noted => HeadsSkipped(e, act);
    case EndBar => EndBarKeeps(e);
  }

  lemma HeadsSkipped(e: Engine, act: Act)
    requires Inv(e) && Enabled(e, act) && (act.NotExited? || act.Noted?)
    ensures Inv(Next(e, act))
  {
    hide Inv;
    SkippedKeeps(e, Next(e, act).exits);
  }

  lemma {:induction false} RunKeeps(e: Engine, script: seq<Act>, end: Engine)
    requires Inv(e) && Follows(e, script, end)
    ensures Inv(end)
    decreases |script|
  {
    if script != [] {
      hide Inv, Enabled, Next;
      StepKeeps(e, script[0]);
      RunKeeps(Next(e, script[0]), script[1..], end);
    }
  }

  lemma ReachableInv(e: Engine)
    requires Reachable(e)
    ensures Inv(e)
  {
    var script :| Follows(Initial, script, e);
    EventKsAppend([]);
    RunKeeps(Initial, script, e);
  }

  // ---- what this means ----

  /** Someone answers for the slot: it is being closed, or it is a unit of the live campaign. */
  predicate Answered(a: Adapter, k: int) {
    k in a.closing || (HasOrigin(a.machine, Live) && k in Ks(a.machine))
  }

  lemma SettledAnswers(a: Adapter, owned: Owned, exits: set<int>)
    requires Settled(a, owned, exits)
    ensures forall k :: k in owned ==> Answered(a, k)
    ensures a.closing != {} ==> a.machine.campaign.None?
  {
    hide Restorable, TooFar, KsOf;
  }

  lemma EnteringAnswers(a: Adapter, owned: Owned, exits: set<int>, i: Intent)
    requires Entering(a, owned, exits, i)
    ensures (forall k :: k in owned ==> Answered(a, k)) && a.closing == {}
  {
    hide Restorable, TooFar, KsOf;
  }

  /**
   In every reachable state of a running process every funded slot is a unit of the
   live campaign or is being closed, and while anything is being closed there is no
   campaign and no entry waiting to be submitted.
   */
  lemma NoOrphan(e: Engine)
    requires Reachable(e) && e.process.Up?
    ensures forall k :: k in e.owned ==> Answered(e.process.a, k)
    ensures e.process.a.closing != {} ==> e.process.a.machine.campaign.None?
    ensures e.process.a.closing != {} && e.process.phase.Submitting? ==> NoEntry(e.process.phase.intents)
  {
    ReachableInv(e);
    var a, phase := e.process.a, e.process.phase;
    hide Restored, Resumable, Settled, MirrorOk, Entering, Answered;
    match phase {
      case Idle => SettledAnswers(a, e.owned, e.exits);
      case Delivering(before) => SettledAnswers(a, before, e.exits);
      case Submitting(intents, _) =>
        if NoEntry(intents) {
          SettledAnswers(a, e.owned, e.exits);
        } else {
          EnteringAnswers(a, e.owned, e.exits, intents[|intents| - 1]);
        }
    }
  }

  /** An entry is only ever submitted for a slot that is flat, so it never flips or resizes a position. */
  lemma EntriesMeetFlatSlots(e: Engine)
    requires Reachable(e) && Heads(e) && e.process.phase.intents[0].Enter?
    ensures e.process.phase.intents[0].k !in e.owned && |e.process.phase.intents| == 1
  {
    ReachableInv(e);
    EntryHead(e);
  }

  /** No hook raises while the process runs, order outcomes included; only a bar's own evidence can. */
  lemma HooksNeverRaise(e: Engine, act: Act)
    requires Reachable(e) && Enabled(e, act) && e.process.Up?
    requires act.Deliver? || act.BarWithheld? || act.Fill? || act.NoFill? || act.Exited? || act.EndBar?
    ensures Next(e, act).process.Up?
  {
    ReachableInv(e);
    match act {
      case Deliver => DeliverKeeps(e);
      case BarWithheld(_, _) =>
      case Fill(price, ts) => FillKeeps(e, price, ts);
      case NoFill => NoFillKeeps(e);
      case Exited => ExitedKeeps(e);
      case EndBar => EndBarKeeps(e);
    }
  }

  /** And a bar stops the process exactly when the machine refuses its prices or its candle. */
  lemma BarStopsExactly(e: Engine, b: Bar, warmup: bool, due: bool)
    requires Reachable(e) && Enabled(e, BarArrives(b, warmup, due))
    ensures Next(e, BarArrives(b, warmup, due)).process.Down? <==>
            BarRefused(e.process.a, b, warmup, e.process.mirror, e.process.cfg)
  {
    hide Reachable, Settled, MirrorOk, OnBar, BarRefused, SavedOk, InBar, HasOrigin, Persist, DueRule;
    ReachableInv(e);
    BarRaisesExactly(e.process.a, b, warmup, e.process.mirror, e.process.cfg, e.owned, e.exits);
  }

  /** What a stopped process would start from. */
  function StartingPoint(e: Engine, seed: Adapter): Adapter {
    if e.saved.Some? && Restored(e.saved.value).Acted? then Restored(e.saved.value).a else seed
  }

  /**
   After any crash the start succeeds, with an owner for every funded slot, exactly
   when no closure that is still to be delivered concerns a slot saved as closing or
   aborting.
   */
  lemma StartSucceedsExactly(e: Engine, seed: Adapter, cfg: Config)
    requires Reachable(e) && Enabled(e, Start(seed, cfg))
    ensures Next(e, Start(seed, cfg)).process.Up? <==> !Conflicts(StartingPoint(e, seed), e.undelivered)
    ensures Conflicts(StartingPoint(e, seed), e.undelivered) ==> Next(e, Start(seed, cfg)) == e
  {
    ReachableInv(e);
    var a := StartingPoint(e, seed);
    if e.saved.None? {
      FreshSettles(seed);
      EventKsAppend([]);
    } else {
      RestoredHasNoUrgent(e.saved.value);
    }
    hide Resumable, Restored;
    if Conflicts(a, e.undelivered) {
      ConflictRaises(a, e.owned, e.undelivered, e.exits);
    } else {
      StartSettles(a, e.owned, e.undelivered, e.exits);
      hide Reconciled, OnStartup, Persist;
    }
  }

  /**
   The failing case is reachable from any idle state whose snapshot lists a funded
   slot as closing or aborting: the venue closes it and the process stops before the
   closure is delivered. From then on every start fails.
   */
  lemma {:induction false} ClosureOfListedSlotIsFatal(
    e: Engine, event: Event, script: seq<Act>, end: Engine)
    requires Reachable(e) && InPhase(e, Idle) && event.k in e.owned && e.saved.Some?
    requires event.k in StartingPoint(e, e.process.a).closing + StartingPoint(e, e.process.a).aborting
    requires Enabled(e, VenueCloses([event]))
    requires Follows(Next(Next(e, VenueCloses([event])), Crash), script, end)
    ensures end == Next(Next(e, VenueCloses([event])), Crash) && end.process.Down?
  {
    hide Reachable, Follows, Inv, Restored, Conflicts;
    ReachableInv(e);
    var closed := Next(e, VenueCloses([event]));
    StepKeeps(e, VenueCloses([event]));
    StepKeeps(closed, Crash);
    var down := Next(closed, Crash);
    assert event in down.undelivered && down.saved == e.saved;
    SavedRestores(down);
    ListedConflict(StartingPoint(e, e.process.a), down.undelivered, event);
    assert StartingPoint(down, Restored(down.saved.value).a) == StartingPoint(e, e.process.a);
    StaysDown(down, script, end);
  }

  lemma SavedRestores(e: Engine)
    requires Inv(e) && e.saved.Some?
    ensures Restored(e.saved.value).Acted?
  {
    hide Restored, Resumable;
  }

  lemma ListedConflict(a: Adapter, events: seq<Event>, event: Event)
    requires event in events && event.k in a.closing + a.aborting
    ensures Conflicts(a, events)
  {
    assert event.k in EventKs(events) * (a.closing + a.aborting);
  }

  lemma OnlyStarts(e: Engine, act: AdapterRuns.Act)
    requires Inv(e) && e.process.Down? && e.saved.Some?
    requires Conflicts(StartingPoint(e, Restored(e.saved.value).a), e.undelivered)
    requires Enabled(e, act)
    ensures Next(e, act) == e
  {
    hide Restored, Conflicts, Reconciled, OnStartup, Resumable, InBar, Reconcile, OnExternals;
    RestoredHasNoUrgent(e.saved.value);
    ConflictRaises(Restored(e.saved.value).a, e.owned, e.undelivered, e.exits);
  }

  lemma {:induction false} StaysDown(e: Engine, script: seq<Act>, end: Engine)
    requires Inv(e) && e.process.Down? && e.saved.Some?
    requires Conflicts(StartingPoint(e, Restored(e.saved.value).a), e.undelivered)
    requires Follows(e, script, end)
    ensures end == e
    decreases |script|
  {
    hide Inv, Conflicts, Next, Enabled, StartingPoint, Restored;
    if script != [] {
      OnlyStarts(e, script[0]);
      StaysDown(e, script[1..], end);
    }
  }
}
