/**
 Starting again from any saved snapshot: when the hooks succeed, what they leave,
 and the one case in which they cannot.
 */
module AdapterStartup {
  import opened Common
  import opened CloseRange
  import opened CloseRangeProperties
  import opened Adapter
  import opened AdapterRuns
  import opened AdapterHooks

  /** Resumable, with no slot listed that is not owned. */
  predicate Cleared(a: Adapter, owned: Owned, undelivered: set<int>, exits: set<int>) {
    && Resumable(a, owned, undelivered, exits) && UrgentOk(a, owned)
    && a.aborting <= owned.Keys && a.closing <= owned.Keys
  }

  // ---- a child leaves a resumable campaign ----

  lemma {:induction false} RemoveKKeepsLast(units: seq<Unit>, k: int)
    requires IncreasingK(units) && units != [] && units[|units| - 1].k != k
    ensures RemoveK(units, k) != [] && RemoveK(units, k)[|RemoveK(units, k)| - 1] == units[|units| - 1]
  {
    if units[0].k != k && |units| > 1 {
      RemoveKKeepsLast(units[1..], k);
    }
  }

  lemma {:induction false} RemoveLast(units: seq<Unit>, k: int)
    requires IncreasingK(units) && units != [] && units[|units| - 1].k == k
    ensures RemoveK(units, k) == units[..|units| - 1]
  {
    if units[0].k != k {
      RemoveLast(units[1..], k);
      assert units == [units[0]] + units[1..];
    } else {
      assert |units| == 1;
    }
  }

  lemma ForgetIs(m: Machine, k: int)
    requires Restorable(m) && m.campaign.Some? && k > 0 && k in Ks(m)
    ensures Units(ForgetClosedChild(m, k).m) == RemoveK(Units(m), k) && IncreasingK(Units(m)) && Units(m) != []
  {
    ForgetChild(m, k);
  }

  lemma ChildLeaves(m: Machine, k: int)
    requires Restorable(m) && LiveButLast(m) && k > 0 && k in Ks(m)
    ensures var m1 := ForgetClosedChild(m, k).m;
      && LiveButLast(m1) && (forall j :: j != k && PaperLast(m, j) ==> PaperLast(m1, j))
  {
    hide KsOf, Restorable, ForgetClosedChild;
    ForgetChild(m, k);
    ForgetIs(m, k);
    var m1 := ForgetClosedChild(m, k).m;
    var units, left := Units(m), Units(m1);
    if units[|units| - 1].k == k {
      RemoveLast(units, k);
      LiveUnitsAreKs(m);
      forall i | 0 <= i < |left| ensures left[i].origin == Live {
        assert units[i].origin == Live || PaperLast(m, units[i].k);
      }
    } else {
      RemoveKKeepsLast(units, k);
      forall i | 0 <= i < |left| ensures left[i].origin == Live || PaperLast(m1, left[i].k) {
        assert left[i] in units;
        var j :| 0 <= j < |units| && units[j] == left[i];
      }
    }
  }

  predicate LiveUnitsHeld(units: seq<Unit>, held: set<int>) {
    forall u :: u in units && u.origin == Live ==> u.k in held
  }

  lemma LiveResumable(a: Adapter, owned: Owned, undelivered: set<int>, exits: set<int>)
    requires Bounds(a, owned, exits) && undelivered <= SLOTS && undelivered !! owned.Keys
    requires Past(a, owned.Keys + undelivered) && HasOrigin(a.machine, Live) && a.pending == None
    requires 0 in owned.Keys + undelivered && owned.Keys + undelivered <= Ks(a.machine)
    requires LiveButLast(a.machine) && SidesAgree(a.machine, owned)
    requires LiveUnitsHeld(Units(a.machine), owned.Keys + undelivered + a.aborting)
    requires forall k :: k in exits ==> MayExit(a, k, owned)
    ensures Resumable(a, owned, undelivered, exits)
  {
  }

  lemma ExitsStayAllowed(a: Adapter, a1: Adapter, owned: Owned, exits: set<int>, k: int)
    requires forall j :: j in exits ==> MayExit(a, j, owned)
    requires k !in exits && a.aborting - {k} <= a1.aborting
    requires a.machine.campaign.Some? && a1.machine.campaign.Some?
    requires a1.machine.campaign.value.side == a.machine.campaign.value.side
    requires Units(a.machine) != [] && Units(a1.machine) != [] && Units(a1.machine)[0] == Units(a.machine)[0]
    requires forall j :: j != k && PaperLast(a.machine, j) ==> PaperLast(a1.machine, j)
    ensures forall j :: j in exits ==> MayExit(a1, j, owned)
  {
    hide TooFar;
  }

  /** A child that is neither funded nor waiting to be delivered leaves no trace. */
  lemma ChildLeavesResumable(a: Adapter, owned: Owned, undelivered: set<int>, exits: set<int>, k: int)
    requires Resumable(a, owned, undelivered + {k}, exits) && HasOrigin(a.machine, Live)
    requires k > 0 && k !in owned && k !in undelivered && k in Ks(a.machine)
    ensures var r := FinishAborted(a, k);
      && r.Acted? && r.a == a.(machine := ForgetClosedChild(a.machine, k).m, aborting := a.aborting - {k})
      && ForgetClosedChild(a.machine, k).out.Ok?
      && Resumable(r.a, owned, undelivered, exits)
  {
    hide MayExit, TooFar, KsOf, Restorable, ForgetClosedChild, HasK, PaperLast, LiveButLast;
    ForgetChild(a.machine, k);
    ChildLeaves(a.machine, k);
    var a1 := a.(machine := ForgetClosedChild(a.machine, k).m, aborting := a.aborting - {k});
    assert FinishAborted(a, k) == Acted(a1, []);
    var held := owned.Keys + (undelivered + {k});
    assert held - {k} == owned.Keys + undelivered;
    assert LiveUnitsHeld(Units(a1.machine), owned.Keys + undelivered + a1.aborting) by {
      forall u | u in Units(a1.machine) && u.origin == Live ensures u.k in owned.Keys + undelivered + a1.aborting {
        assert u in Units(a.machine) && u.k != k;
      }
    }
    ExitsStayAllowed(a, a1, owned, exits, k);
    assert SidesAgree(a1.machine, owned);
    LiveResumable(a1, owned, undelivered, exits);
  }

  /** The set of held slots only has to cover what is held. */
  lemma HeldShrinks(a: Adapter, owned: Owned, undelivered: set<int>, exits: set<int>, k: int)
    requires Resumable(a, owned, undelivered, exits) && k in a.aborting && k !in owned
    requires HasOrigin(a.machine, Live) && k in Ks(a.machine)
    ensures Resumable(a, owned, undelivered + {k}, exits)
  {
    hide TooFar, KsOf, Restorable, PaperLast, LiveButLast;
    assert owned.Keys + (undelivered + {k}) == owned.Keys + undelivered + {k};
  }

  lemma FinishFlatResumes(a: Adapter, owned: Owned, undelivered: set<int>, exits: set<int>, k: int)
    requires Resumable(a, owned, undelivered, exits) && undelivered !! a.aborting && k > 0
    ensures var r := FinishFlat(a, k, owned);
      && r.Acted? && Resumable(r.a, owned, undelivered, exits) && undelivered !! r.a.aborting
      && r.a.closing == a.closing && r.a.urgent == a.urgent
      && r.a.aborting == (if k in owned then a.aborting else a.aborting - {k})
      && r.a.machine.campaign.None? == a.machine.campaign.None?
  {
    if k in a.aborting && k !in owned {
      KsAt(Units(a.machine), k);
      if HasOrigin(a.machine, Live) && k in Ks(a.machine) {
        HeldShrinks(a, owned, undelivered, exits, k);
        ForgetChild(a.machine, k);
        ChildLeavesResumable(a, owned, undelivered, exits, k);
      } else {
        hide TooFar, KsOf, Restorable;
        assert !HasK(Units(a.machine), k) by {
          if HasOrigin(a.machine, Paper) {
            assert |Units(a.machine)| == 1;
          }
        }
      }
    }
  }

  /** Reconciling succeeds and leaves only owned slots listed. */
  lemma ReconcileClears(a: Adapter, owned: Owned, undelivered: set<int>, exits: set<int>)
    requires Resumable(a, owned, undelivered, exits) && undelivered !! (a.closing + a.aborting) && a.urgent == []
    ensures var r := Reconcile(a, owned);
      r.Acted? && Cleared(r.a, owned, undelivered, exits) && undelivered !! r.a.aborting
  {
    hide FinishFlat, Resumable;
    FinishFlatResumes(a, owned, undelivered, exits, 1);
    var a1 := FinishFlat(a, 1, owned).a;
    FinishFlatResumes(a1, owned, undelivered, exits, 2);
    var a2 := FinishFlat(a1, 2, owned).a;
    FinishFlatResumes(a2, owned, undelivered, exits, 3);
    var a3 := FinishFlat(a2, 3, owned).a;
    AbortingChildren(a, owned, undelivered, exits);
    UnlistResumes(a3, owned, undelivered, exits);
  }

  lemma AbortingChildren(a: Adapter, owned: Owned, undelivered: set<int>, exits: set<int>)
    requires Resumable(a, owned, undelivered, exits)
    ensures a.aborting <= CHILDREN
  {
  }

  lemma UnlistResumes(a: Adapter, owned: Owned, undelivered: set<int>, exits: set<int>)
    requires Resumable(a, owned, undelivered, exits) && undelivered !! a.closing
    ensures var closing := a.closing * owned.Keys;
      Resumable(a.(closing := closing, closingCampaign := if closing == {} then None else a.closingCampaign),
                owned, undelivered, exits)
  {
    hide TooFar, KsOf, Restorable;
    if a.machine.campaign.None? {
      assert undelivered == {};
    }
  }

  // ---- delivering at startup ----

  lemma ExternalClears(a: Adapter, owned: Owned, undelivered: set<int>, exits: set<int>, e: Event)
    requires Cleared(a, owned, undelivered + {e.k}, exits) && e.k !in undelivered && e.k !in a.aborting
    requires e.k == 0 ==> undelivered == {}
    ensures var r := OnExternal(a, e, owned);
      r.Acted? && Cleared(r.a, owned, undelivered, exits) && r.a.aborting == a.aborting
  {
    UndeliveredHasCampaign(a, owned, undelivered, exits, e.k);
    hide OnExternal, Cleared;
    if e.k != 0 {
      ChildClears(a, owned, undelivered, exits, e);
    } else {
      assert undelivered + {0} == {0};
      ParentClears(a, owned, exits, e);
    }
  }

  lemma ChildClears(a: Adapter, owned: Owned, undelivered: set<int>, exits: set<int>, e: Event)
    requires Cleared(a, owned, undelivered + {e.k}, exits) && e.k !in undelivered && e.k !in a.aborting && e.k > 0
    ensures var r := OnExternal(a, e, owned);
      r.Acted? && Cleared(r.a, owned, undelivered, exits) && r.a.aborting == a.aborting
  {
    hide Resumable, ForgetClosedChild, UrgentOk, FinishAborted, HasOrigin, Ks;
    UndeliveredHasCampaign(a, owned, undelivered, exits, e.k);
    ChildLeavesResumable(a, owned, undelivered, exits, e.k);
    assert a.aborting - {e.k} == a.aborting;
    UrgentStays(a, FinishAborted(a, e.k).a, owned);
  }

  lemma UrgentStays(a: Adapter, a1: Adapter, owned: Owned)
    requires UrgentOk(a, owned) && a1.urgent == a.urgent && a1.closing == a.closing
    ensures UrgentOk(a1, owned)
  {
  }

  lemma UndeliveredHasCampaign(a: Adapter, owned: Owned, undelivered: set<int>, exits: set<int>, k: int)
    requires Cleared(a, owned, undelivered + {k}, exits)
    ensures a.machine.campaign.Some? && k !in owned && 0 <= k
    ensures k != 0 ==> HasOrigin(a.machine, Live) && k in Ks(a.machine)
  {
    hide TooFar, KsOf, Restorable, MayExit, PaperLast, LiveButLast;
    assert k in owned.Keys + (undelivered + {k});
  }

  lemma ParentClears(a: Adapter, owned: Owned, exits: set<int>, e: Event)
    requires Cleared(a, owned, {0}, exits) && e.k == 0 && a.machine.campaign.Some?
    ensures var r := OnExternal(a, e, owned);
      r.Acted? && Cleared(r.a, owned, {}, exits) && r.a.aborting == a.aborting
  {
    ParentGoneRestorable(a.machine, e.ts, e.price, e.liquidated);
    hide TooFar, KsOf, Restorable, PaperLast, LiveButLast;
    var children := owned.Keys * CHILDREN;
    assert children == owned.Keys && a.closing == {};
    LeavesMembers(children, false);
    hide Leaves;
    assert owned.Keys + {} == owned.Keys;
  }

  lemma {:induction false} ExternalsClear(a: Adapter, owned: Owned, exits: set<int>, events: seq<Event>)
    requires Cleared(a, owned, EventKs(events), exits) && EventKs(events) !! a.aborting
    requires Distinct(events) && ParentLast(events)
    ensures var r := OnExternals(a, events, owned);
      r.Acted? && Cleared(r.a, owned, {}, exits)
    decreases |events|
  {
    if events == [] {
      assert EventKs(events) == {};
    } else {
      hide Cleared, OnExternal;
      EventKsSplit(events);
      var k := events[0].k;
      assert EventKs(events) == EventKs(events[1..]) + {k};
      if k == 0 {
        assert events[1..] == [];
      }
      ExternalClears(a, owned, EventKs(events[1..]), exits, events[0]);
      ExternalsClear(OnExternal(a, events[0], owned).a, owned, exits, events[1..]);
    }
  }

  // ---- taking ownership ----

  lemma {:induction false} LiveAddonsStay(a: Adapter, units: seq<Unit>, owned: Owned)
    requires AllLive(units)
    ensures SettleAddons(a, units, owned) == Acted(a, [])
    decreases |units|
  {
    if units != [] {
      assert units[|units| - 1] in units;
      LiveAddonsStay(a, units[..|units| - 1], owned);
    }
  }

  /** The modelled parent is confirmed at its funded price, or given up. */
  lemma ParentSettles(a: Adapter, owned: Owned, exits: set<int>)
    requires Cleared(a, owned, {}, exits) && HasOrigin(a.machine, Paper)
    ensures var r := OnStartup(a, owned);
      r.Acted? && Settled(r.a, owned, exits) && !HasOrigin(r.a.machine, Paper)
  {
    var m := a.machine;
    assert owned.Keys + {} == owned.Keys;
    assert a.aborting == {};
    assert exits == {};
    assert a.closing == {};
    if 0 in owned {
      assert owned.Keys == {0};
      KsAt(Units(m), 0);
      assert Units(m)[0].k == 0;
      ConfirmFill(m, 0, owned[0].ts, owned[0].price);
      ConfirmFill(m, 0, m.campaign.value.entryTs, owned[0].price);
      ParentConfirmed(a, ConfirmOwnedFill(m, 0, owned[0].ts, owned[0].price).m, owned);
      ParentConfirmed(a, ConfirmOwnedFill(m, 0, m.campaign.value.entryTs, owned[0].price).m, owned);
      hide Restorable, TooFar, KsOf, ConfirmOwnedFill, Settled;
      LiveAddonsStay(a, [], owned);
    } else {
      assert owned == map[];
      assert Restorable(m.(campaign := None, pendingExit := None));
      hide Restorable, TooFar, KsOf;
    }
  }

  lemma ParentConfirmed(a: Adapter, m1: Machine, owned: Owned)
    requires Cleared(a, owned, {}, {}) && FreshParent(a.machine) && owned.Keys == {0} && a.aborting == {}
    requires a.closing == {}
    requires Restorable(m1) && m1 == a.machine.(campaign := m1.campaign) && HasOrigin(m1, Live)
    requires |Units(m1)| == 1 && Units(m1)[0].origin == Live && Ks(m1) == Ks(a.machine)
    requires m1.campaign.value.side == a.machine.campaign.value.side
    ensures Settled(a.(machine := m1, pending := None), owned, {})
    ensures FarSlots(m1) == {} && Units(m1)[1..] == []
    ensures a.pending == None ==> Settled(a.(machine := m1), owned, {})
  {
    hide Restorable, TooFar, KsOf;
    KsAt(Units(a.machine), 0);
    assert Ks(m1) == {0} by {
      forall k ensures k in Ks(a.machine) <==> k == 0 {
        KsAt(Units(a.machine), k);
      }
    }
  }

  /** Past the parent, at most the newest add-on is still modelled only. */
  lemma LastPaperIs(m: Machine)
    requires Restorable(m) && LiveButLast(m)
    ensures var units := Units(m);
      units != [] && if AllLive(units) then AllLive(units[1..])
      else |units| > 1 && AllLive(units[1..|units| - 1]) && PaperLast(m, units[|units| - 1].k)
  {
    LiveUnitsAreKs(m);
    var units := Units(m);
    var last := |units| - 1;
    forall j | 0 <= j < last ensures units[j].origin == Live {
      assert units[j].k != units[last].k;
    }
    if units[last].origin == Live {
      forall u | u in units ensures u.origin == Live {
        var j :| 0 <= j < |units| && units[j] == u;
      }
    } else {
      assert units[last] in units;
    }
  }

  /** A live campaign whose add-ons are all settled keeps every check of a start. */
  lemma LiveStarts(a: Adapter, owned: Owned, exits: set<int>)
    requires Bounds(a, owned, exits) && Past(a, owned.Keys) && UrgentOk(a, owned) && HasOrigin(a.machine, Live)
    requires a.pending == None && 0 in owned && AllLive(Units(a.machine)) && SidesAgree(a.machine, owned)
    requires owned.Keys <= Ks(a.machine) <= owned.Keys + a.aborting
    requires exits <= a.aborting + FarSlots(a.machine)
    ensures var r := CheckOwnership(MarkFar(a), owned);
      r.Acted? && r.a == MarkFar(a) && Settled(r.a, owned, exits)
  {
    FarAreChildren(a.machine);
    hide Restorable, TooFar, KsOf, FarSlots, AllLive;
    LiveSettled(MarkFar(a), owned, exits);
  }

  lemma LiveHeld(a: Adapter, owned: Owned, exits: set<int>)
    requires Resumable(a, owned, {}, exits) && HasOrigin(a.machine, Live) && AllLive(Units(a.machine))
    ensures owned.Keys <= Ks(a.machine) <= owned.Keys + a.aborting && 0 in owned && SidesAgree(a.machine, owned)
    ensures exits <= a.aborting && a.pending == None && Past(a, owned.Keys) && LiveButLast(a.machine)
  {
    hide Restorable, TooFar;
    assert owned.Keys + {} == owned.Keys;
    forall k | k in exits ensures k in a.aborting {
      assert MayExit(a, k, owned);
      NotPaperLast(a.machine, k);
    }
  }

  lemma NotPaperLast(m: Machine, k: int)
    requires AllLive(Units(m))
    ensures !PaperLast(m, k)
  {
    assert Units(m) != [] ==> Units(m)[|Units(m)| - 1] in Units(m);
  }

  /** A live campaign, whatever its newest add-on became while the process was down. */
  lemma LiveStartup(a: Adapter, owned: Owned, exits: set<int>)
    requires Cleared(a, owned, {}, exits) && HasOrigin(a.machine, Live)
    ensures var r := OnStartup(a, owned);
      r.Acted? && Settled(r.a, owned, exits) && HasOrigin(r.a.machine, Live)
  {
    var m, units := a.machine, Units(a.machine);
    LastPaperIs(m);
    if AllLive(units) {
      LiveAddonsStay(a, units[1..], owned);
      LiveHeld(a, owned, exits);
      hide Restorable, TooFar, KsOf, FarSlots, AllLive, SettleAddons, Settled, MarkFar, CheckOwnership;
      LiveStarts(a, owned, exits);
    } else {
      NewestAddonStarts(a, owned, exits);
    }
  }

  /** What a start makes of the newest add-on, the unit u: confirmed when funded, taken back otherwise. */
  function Resolved(m: Machine, u: Unit, owned: Owned): Machine {
    if u.k in owned then ConfirmOwnedFill(m, u.k, owned[u.k].ts, owned[u.k].price).m
    else DiscardUnfilledAddon(m, u.k).m
  }

  lemma NewestAddonStarts(a: Adapter, owned: Owned, exits: set<int>)
    requires Cleared(a, owned, {}, exits) && HasOrigin(a.machine, Live) && !AllLive(Units(a.machine))
    ensures var r := OnStartup(a, owned);
      r.Acted? && Settled(r.a, owned, exits) && HasOrigin(r.a.machine, Live)
    ensures Units(a.machine) != []
      && OnStartup(a, owned).a.machine == Resolved(a.machine, Units(a.machine)[|Units(a.machine)| - 1], owned)
  {
    hide AllLive, FarSlots, KsOf;
    var m, units := a.machine, Units(a.machine);
    LastPaperIs(m);
    var u := units[|units| - 1];
    var addons := units[1..];
    assert addons[|addons| - 1] == u && addons[..|addons| - 1] == units[1..|units| - 1];
    var a1 := a.(machine := Resolved(m, u, owned));
    if u.k in owned {
      FilledAddonStarts(a, owned, exits, u.k);
    } else {
      UnfilledAddonStarts(a, owned, exits, u.k);
    }
    hide Restorable, TooFar, KsOf, FarSlots, Settled, MarkFar, CheckOwnership, Resumable;
    LiveAddonsStay(a1, addons[..|addons| - 1], owned);
    assert SettleAddons(a, addons, owned) == Acted(a1, []);
  }

  lemma UnfilledAddonStarts(a: Adapter, owned: Owned, exits: set<int>, k: int)
    requires Cleared(a, owned, {}, exits) && PaperLast(a.machine, k) && LiveButLast(a.machine) && k !in owned
    ensures var s := DiscardUnfilledAddon(a.machine, k);
      var a1 := a.(machine := s.m);
      && s.out.Ok? && HasOrigin(s.m, Live)
      && var r := CheckOwnership(MarkFar(a1), owned);
      r.Acted? && r.a == MarkFar(a1) && Settled(r.a, owned, exits)
  {
    hide TooFar, KsOf;
    DiscardedUnits(a.machine, k);
    LiveHeldBut(a, owned, exits, k);
    hide Restorable, DiscardUnfilledAddon, FarSlots, AllLive, Settled, MarkFar, CheckOwnership, Resumable;
    LiveStarts(a.(machine := DiscardUnfilledAddon(a.machine, k).m), owned, exits);
  }

  lemma LastIsSlot(m: Machine, k: int)
    requires PaperLast(m, k)
    ensures k in Ks(m)
  {
    KsAt(Units(m), k);
    assert Units(m)[|Units(m)| - 1].k == k;
  }

  lemma FilledAddonStarts(a: Adapter, owned: Owned, exits: set<int>, k: int)
    requires Cleared(a, owned, {}, exits) && PaperLast(a.machine, k) && LiveButLast(a.machine) && k in owned
    ensures var s := ConfirmOwnedFill(a.machine, k, owned[k].ts, owned[k].price);
      var a1 := a.(machine := s.m);
      && s.out.Ok? && HasOrigin(s.m, Live) && owned[k].side == a.machine.campaign.value.side
      && var r := CheckOwnership(MarkFar(a1), owned);
      r.Acted? && r.a == MarkFar(a1) && Settled(r.a, owned, exits)
  {
    hide Restorable, ConfirmOwnedFill, FarSlots, AllLive, Settled;
    hide MarkFar, CheckOwnership, TooFar, KsOf, ConfirmedUnits;
    var m, price := a.machine, owned[k].price;
    LastIsSlot(m, k);
    ConfirmFill(m, k, owned[k].ts, price);
    var m1 := ConfirmOwnedFill(m, k, owned[k].ts, price).m;
    ConfirmedAllLive(m, Units(m1), k, owned[k].ts, price);
    LiveHeldBut(a, owned, exits, k);
    FarIfTooFar(m, m1, k, owned[k].ts, price);
    LiveStarts(a.(machine := m1), owned, exits);
  }

  lemma FarIfTooFar(m: Machine, m1: Machine, k: int, ts: int, price: Price)
    requires Restorable(m) && PaperLast(m, k) && HasOrigin(m1, Live) && m1.campaign.value.side == m.campaign.value.side
    requires ConfirmedUnits(Units(m), Units(m1), k, ts, price)
    ensures TooFar(m.campaign.value.side, price, Units(m)[0].entryPrice) ==> k in FarSlots(m1)
  {
    hide TooFar;
    LiveUnitsAreKs(m);
    var last := |Units(m)| - 1;
    assert last > 0;
    assert Units(m1)[last] in Units(m1)[1..] by {
      assert Units(m1)[1..][last - 1] == Units(m1)[last];
    }
  }

  lemma LiveHeldBut(a: Adapter, owned: Owned, exits: set<int>, k: int)
    requires Resumable(a, owned, {}, exits) && PaperLast(a.machine, k) && LiveButLast(a.machine)
    ensures owned.Keys <= Ks(a.machine) <= owned.Keys + a.aborting + {k} && 0 in owned && SidesAgree(a.machine, owned)
    ensures a.pending == None && Past(a, owned.Keys)
    ensures forall j :: j in exits && j !in a.aborting ==>
              j == k && k in owned
                  && TooFar(a.machine.campaign.value.side, owned[k].price, Units(a.machine)[0].entryPrice)
  {
    hide Restorable, TooFar;
    assert owned.Keys + {} == owned.Keys;
    forall u | u in Units(a.machine) ensures u.k in owned.Keys + a.aborting + {k} {
      var j :| 0 <= j < |Units(a.machine)| && Units(a.machine)[j] == u;
    }
    forall j | j in exits ensures MayExit(a, j, owned) {
    }
  }

  lemma IdleStartup(a: Adapter, owned: Owned, exits: set<int>)
    requires Cleared(a, owned, {}, exits) && (a.machine.campaign.None? || HasOrigin(a.machine, Historical))
    ensures var r := OnStartup(a, owned);
      r.Acted? && Settled(r.a, owned, exits) && !HasOrigin(r.a.machine, Paper)
  {
    assert owned.Keys + {} == owned.Keys;
    LeavesMembers(owned.Keys, false);
    hide Leaves, Restorable, TooFar, KsOf;
  }

  /** Taking ownership never refuses what reconciling and delivering left. */
  lemma StartupSettles(a: Adapter, owned: Owned, exits: set<int>)
    requires Cleared(a, owned, {}, exits)
    ensures var r := OnStartup(a, owned);
      r.Acted? && Settled(r.a, owned, exits) && !HasOrigin(r.a.machine, Paper)
  {
    hide OnStartup, Settled, Cleared;
    if HasOrigin(a.machine, Paper) {
      ParentSettles(a, owned, exits);
    } else if HasOrigin(a.machine, Live) {
      LiveStartup(a, owned, exits);
    } else {
      IdleStartup(a, owned, exits);
    }
  }

  // ---- the whole start ----

  /** What makes a start impossible: a closure still to be delivered for a slot saved as closing or aborting. */
  predicate Conflicts(a: Adapter, events: seq<Event>) {
    EventKs(events) * (a.closing + a.aborting) != {}
  }

  lemma StartSettles(a: Adapter, owned: Owned, events: seq<Event>, exits: set<int>)
    requires Resumable(a, owned, EventKs(events), exits) && Distinct(events) && a.urgent == []
    requires !Conflicts(a, events)
    ensures var d := Reconciled(a, owned, events);
      && d.Acted? && Cleared(d.a, owned, {}, exits)
      && var r := Started(a, owned, events);
      r.Acted? && Settled(r.a, owned, exits) && !HasOrigin(r.a.machine, Paper)
  {
    hide Cleared, OnStartup, Resumable, Reconcile, EventKs, OnExternals, ChildrenFirst;
    Apart(EventKs(events), a.closing + a.aborting);
    ReconcileClears(a, owned, EventKs(events), exits);
    if events != [] {
      ChildrenFirstOrders(events);
      ExternalsClear(Reconcile(a, owned).a, owned, exits, ChildrenFirst(events));
    } else {
      NoEventKs(events);
    }
    StartupSettles(Reconciled(a, owned, events).a, owned, exits);
  }

  lemma Apart(a: set<int>, b: set<int>)
    requires a * b == {}
    ensures a !! b
  {
    forall x | x in a ensures x !in b { assert x !in a * b; }
  }

  lemma NoEventKs(events: seq<Event>)
    ensures events == [] ==> EventKs(events) == {}
  {
  }

  // ---- when a start cannot succeed ----

  lemma FinishFlatDrops(a: Adapter, owned: Owned, j: int, k: int)
    requires Restorable(a.machine) && a.machine.campaign.Some? && j > 0 && FinishFlat(a, j, owned).Acted?
    ensures var r := FinishFlat(a, j, owned).a;
      && Restorable(r.machine) && r.machine.campaign.Some?
      && (k !in Ks(a.machine) ==> k !in Ks(r.machine))
      && (j == k && k in a.aborting && k !in owned ==> k !in Ks(r.machine))
      && (j != k && k in a.aborting ==> k in r.aborting)
  {
    hide KsOf, ForgetClosedChild, Restorable, HasK, Confirm;
    SlotOrNot(a.machine, j);
    if HasK(Units(a.machine), j) {
      ForgetChild(a.machine, j);
    }
  }

  lemma SlotOrNot(m: Machine, k: int)
    ensures HasK(Units(m), k) <==> k in Ks(m)
  {
    KsAt(Units(m), k);
  }

  lemma ReconcileDrops(a: Adapter, owned: Owned, k: int)
    requires Restorable(a.machine) && a.machine.campaign.Some? && k in a.aborting * CHILDREN && k !in owned
    requires Reconcile(a, owned).Acted?
    ensures var r := Reconcile(a, owned).a; r.machine.campaign.Some? && Restorable(r.machine) && k !in Ks(r.machine)
  {
    hide FinishFlat, Ks, Restorable;
    FinishFlatDrops(a, owned, 1, k);
    var a1 := FinishFlat(a, 1, owned).a;
    FinishFlatDrops(a1, owned, 2, k);
    var a2 := FinishFlat(a1, 2, owned).a;
    FinishFlatDrops(a2, owned, 3, k);
  }

  lemma {:induction false} AbsentChildRaises(a: Adapter, events: seq<Event>, owned: Owned, k: int)
    requires Restorable(a.machine) && a.machine.campaign.Some? && k !in Ks(a.machine) && k > 0
    requires k in EventKs(events) && ParentLast(events)
    ensures OnExternals(a, events, owned).Raised?
    decreases |events|
  {
    hide KsOf, Restorable, ForgetClosedChild, OnExternal, HasK;
    var e := events[0];
    assert events == [e] + events[1..];
    if e.k != k {
      assert k in EventKs(events[1..]);
      assert |events| > 1 && e.k != 0;
      ChildEvent(a, e, owned);
      if e.k in Ks(a.machine) && e.k > 0 {
        ForgetChild(a.machine, e.k);
        AbsentChildRaises(OnExternal(a, e, owned).a, events[1..], owned, k);
      }
    } else {
      ChildEvent(a, e, owned);
    }
  }

  /** The closure of a child either forgets it, or raises when the campaign has no such unit. */
  lemma ChildEvent(a: Adapter, e: Event, owned: Owned)
    requires a.machine.campaign.Some? && e.k != 0
    ensures var r := OnExternal(a, e, owned);
      if e.k > 0 && e.k in Ks(a.machine)
      then r.Acted? && r.a.machine == ForgetClosedChild(a.machine, e.k).m
      else r.Raised?
  {
    hide KsOf, Restorable;
    SlotOrNot(a.machine, e.k);
  }

  lemma UnclaimedRaises(a: Adapter, events: seq<Event>, owned: Owned)
    requires a.machine.campaign.None? && events != [] && EventKs(events) !! a.closing
    ensures OnExternals(a, events, owned).Raised?
  {
    assert events[0] in events && events[0].k in EventKs(events);
  }

  lemma NoCampaignStays(a: Adapter, owned: Owned)
    requires a.machine.campaign.None? && Reconcile(a, owned).Acted?
    ensures var r := Reconcile(a, owned).a; r.machine.campaign.None? && r.closing == a.closing * owned.Keys
  {
  }

  /** A start delivers closures after reconciling, so a closure of a listed slot stops it. */
  lemma ConflictRaises(a: Adapter, owned: Owned, events: seq<Event>, exits: set<int>)
    requires Resumable(a, owned, EventKs(events), exits) && Distinct(events) && Conflicts(a, events)
    ensures Reconciled(a, owned, events).Raised?
  {
    var k :| k in EventKs(events) * (a.closing + a.aborting);
    assert events != [];
    ChildrenFirstOrders(events);
    ConflictKind(a, owned, events, exits, k);
    hide Resumable, ChildrenFirst;
    var r := Reconcile(a, owned);
    if r.Acted? {
      assert ChildrenFirst(events) != [] by {
        assert k in EventKs(ChildrenFirst(events));
      }
      if a.machine.campaign.None? {
        NoCampaignStays(a, owned);
        hide Reconcile, OnExternals;
        UnclaimedRaises(r.a, ChildrenFirst(events), owned);
      } else {
        ReconcileDrops(a, owned, k);
        hide Reconcile, OnExternals;
        AbsentChildRaises(r.a, ChildrenFirst(events), owned, k);
      }
    }
  }

  lemma ConflictKind(a: Adapter, owned: Owned, events: seq<Event>, exits: set<int>, k: int)
    requires Resumable(a, owned, EventKs(events), exits) && k in EventKs(events) && k in a.closing + a.aborting
    ensures k !in owned && EventKs(events) !! owned.Keys && Restorable(a.machine)
    ensures a.machine.campaign.Some? ==> k in a.aborting * CHILDREN
  {
    hide Restorable, TooFar, KsOf;
  }
}
