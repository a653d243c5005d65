/** What each hook of the adapter does to the ownership of funded slots. */
module AdapterHooks {
  import opened Common
  import opened CloseRange
  import opened CloseRangeProperties
  import opened Adapter
  import opened AdapterRuns

  // ---- snapshots ----

  /** A snapshot gives back everything but the urgent intents. */
  lemma SavedBack(a: Adapter)
    requires Restorable(a.machine) && a.closing <= SLOTS && a.aborting <= CHILDREN
    ensures Restored(Persist(a)) == Acted(a.(urgent := []), [])
  {
    RestoreInvertsPersist(a.machine);
    hide Restore, PersistentState;
  }

  /** Between bars, what would be saved can be resumed. */
  lemma SettledResumes(a: Adapter, owned: Owned, exits: set<int>)
    requires Settled(a, owned, exits)
    ensures Resumable(a.(urgent := []), owned, {}, exits)
  {
    hide Restorable, TooFar;
    if HasOrigin(a.machine, Live) {
      assert Units(a.machine)[0] in Units(a.machine) || Units(a.machine) == [];
      forall u | u in Units(a.machine) ensures u.k in Ks(a.machine) {
      }
    }
  }

  lemma LiveUnitsAreKs(m: Machine)
    requires Restorable(m) && m.campaign.Some?
    ensures Units(m) != [] && Units(m)[0].k == 0
    ensures forall i :: 0 <= i < |Units(m)| ==>
        Units(m)[i].k in Ks(m) && 0 <= Units(m)[i].k < m.campaign.value.lifetimeUnits <= 4
    ensures forall i, j :: 0 <= i < |Units(m)| && 0 <= j < |Units(m)| && Units(m)[i].k == Units(m)[j].k ==> i == j
    ensures Ks(m) <= SLOTS
  {
    var units := Units(m);
    forall i | 0 <= i < |units| ensures units[i].k in Ks(m) {
      assert units[i] in units;
    }
  }

  /** So can what is saved just before an entry is submitted. */
  lemma EnteringResumes(a: Adapter, owned: Owned, exits: set<int>, i: Intent)
    requires Entering(a, owned, exits, i)
    ensures Resumable(a, owned, {}, exits)
  {
    LiveUnitsAreKs(a.machine);
    hide Restorable, TooFar;
    if i.k != 0 {
      var units := Units(a.machine);
      forall u | u in units && u.origin == Live ensures u.k in owned {
        var j :| 0 <= j < |units| && units[j] == u;
        assert u.k in Ks(a.machine);
      }
    }
  }

  /** And still after the entry was filled, before the adapter hears of it. */
  lemma FilledResumes(a: Adapter, owned: Owned, exits: set<int>, i: Intent, h: Held)
    requires Entering(a, owned, exits, i) && h.side == i.side
    ensures Resumable(a, owned[i.k := h], {}, exits)
  {
    LiveUnitsAreKs(a.machine);
    EnteringResumes(a, owned, exits, i);
    hide Restorable, TooFar;
    var units := Units(a.machine);
    assert units[|units| - 1].k in Ks(a.machine);
  }

  lemma LostOwned(a: Adapter, owned: Owned, undelivered: set<int>, exits: set<int>, k: int)
    requires Resumable(a, owned, undelivered, exits) && k in owned && MayExit(a, k, owned)
    ensures Resumable(a, owned - {k}, undelivered, exits - {k})
  {
    hide Restorable, TooFar;
    assert (owned - {k}).Keys + undelivered == owned.Keys + undelivered - {k};
    if HasOrigin(a.machine, Live) && k !in a.aborting {
      PaperLastIsNotLive(a.machine, k);
    }
  }

  lemma PaperLastIsNotLive(m: Machine, k: int)
    requires Restorable(m) && PaperLast(m, k)
    ensures forall u :: u in Units(m) && u.origin == Live ==> u.k != k
  {
    LiveUnitsAreKs(m);
    forall u | u in Units(m) && u.origin == Live ensures u.k != k {
      var j :| 0 <= j < |Units(m)| && Units(m)[j] == u;
    }
  }

  lemma ToUndelivered(a: Adapter, owned: Owned, undelivered: set<int>, exits: set<int>, ks: set<int>)
    requires Resumable(a, owned, undelivered, exits) && ks <= owned.Keys
    ensures Resumable(a, owned - ks, undelivered + ks, exits - ks)
  {
    hide Restorable, TooFar;
    assert (owned - ks).Keys + (undelivered + ks) == owned.Keys + undelivered;
  }

  // ---- forgetting one unit ----

  lemma {:induction false} RemoveKRemoves(units: seq<Unit>, k: int)
    requires IncreasingK(units)
    ensures forall u :: u in RemoveK(units, k) <==> u in units && u.k != k
  {
    if units != [] {
      if units[0].k == k {
        forall u | u in units[1..] ensures u.k != k {
          var i :| 0 <= i < |units[1..]| && units[1..][i] == u;
          assert units[i + 1] == u;
        }
      } else {
        RemoveKRemoves(units[1..], k);
        assert units == [units[0]] + units[1..];
      }
    }
  }

  lemma IsUnit(m: Machine, k: int)
    requires k in Ks(m)
    ensures HasK(Units(m), k)
  {
    var u :| u in Units(m) && u.k == k;
  }

  lemma ForgetRemoves(m: Machine, k: int)
    requires Restorable(m) && m.campaign.Some? && k > 0 && HasK(Units(m), k)
    ensures var s := ForgetClosedChild(m, k);
      && s.out.Ok? && Restorable(s.m) && s.m == m.(campaign := s.m.campaign) && s.m.campaign.Some?
      && s.m.campaign.value == m.campaign.value.(units := Units(s.m))
      && (forall u :: u in Units(s.m) <==> u in Units(m) && u.k != k)
      && Units(s.m) != [] && Units(m) != [] && Units(s.m)[0] == Units(m)[0]
  {
    ForgetKeepsCampaign(m, k);
    RemoveKRemoves(Units(m), k);
    RemoveKeepsValid(Units(m), k);
  }

  /** Forgetting a child removes its slot from the campaign and nothing else. */
  lemma ForgetChild(m: Machine, k: int)
    requires Restorable(m) && m.campaign.Some? && k > 0 && k in Ks(m)
    ensures HasK(Units(m), k)
    ensures var s := ForgetClosedChild(m, k);
      && s.out.Ok? && Restorable(s.m) && s.m == m.(campaign := s.m.campaign) && s.m.campaign.Some?
      && s.m.campaign.value == m.campaign.value.(units := Units(s.m))
      && Ks(s.m) == Ks(m) - {k} && (forall u :: u in Units(s.m) <==> u in Units(m) && u.k != k)
      && Units(s.m) != [] && Units(m) != [] && Units(s.m)[0] == Units(m)[0]
  {
    hide Restorable, ForgetClosedChild, ValidCampaign;
    IsUnit(m, k);
    ForgetRemoves(m, k);
    var s := ForgetClosedChild(m, k);
    forall j ensures j in Ks(s.m) <==> j in Ks(m) && j != k {
      if j in Ks(m) && j != k {
        var u :| u in Units(m) && u.k == j;
        assert u in Units(s.m);
      }
    }
  }

  // ---- an exit succeeded ----

  lemma LiveSettled(a: Adapter, owned: Owned, exits: set<int>)
    requires HasOrigin(a.machine, Live) && a.pending == None && 0 in owned && AllLive(Units(a.machine))
    requires SidesAgree(a.machine, owned) && owned.Keys <= Ks(a.machine) <= owned.Keys + a.aborting
    requires Bounds(a, owned, exits) && Past(a, owned.Keys) && UrgentOk(a, owned) && exits <= a.closing + a.aborting
    ensures Settled(a, owned, exits)
  {
  }

  /** A child that is gone, from a live campaign. */
  lemma ChildGone(a: Adapter, owned: Owned, exits: set<int>, k: int)
    requires Settled(a, owned, exits) && k > 0 && HasOrigin(a.machine, Live) && k in Ks(a.machine)
    ensures var r := FinishAborted(a, k);
      && r.Acted? && r.a == a.(machine := r.a.machine, aborting := a.aborting - {k}) && HasOrigin(r.a.machine, Live)
      && r.a.machine == ForgetClosedChild(a.machine, k).m && ForgetClosedChild(a.machine, k).out.Ok?
      && Settled(r.a, owned - {k}, exits - {k})
  {
    hide TooFar;
    ForgetChild(a.machine, k);
    var r, owned1 := FinishAborted(a, k), owned - {k};
    hide Restorable, ForgetClosedChild, KsOf, HasK;
    assert owned1.Keys == owned.Keys - {k};
    assert AllLive(Units(r.a.machine));
    hide AllLive, Units;
    LiveSettled(r.a, owned1, exits - {k});
  }

  lemma ExitedSettles(a: Adapter, owned: Owned, exits: set<int>, k: int, abort: bool)
    requires Settled(a, owned, exits) && k in owned && a.urgent == []
    requires if abort then k in a.aborting else k in a.closing
    ensures var r := OnExited(a, k, abort);
      && r.Acted? && Settled(r.a, owned - {k}, exits - {k}) && r.a.urgent == []
      && r.a.closing == a.closing - {k} && r.a.aborting == (if abort then a.aborting - {k} else a.aborting)
  {
    hide TooFar, KsOf, Restorable;
    assert (owned - {k}).Keys == owned.Keys - {k};
    if HasOrigin(a.machine, Live) {
      assert a.closing - {k} == {};
      hide FinishAborted;
      assert Settled(a.(closingCampaign := None), owned, exits);
      ChildGone(a.(closingCampaign := None), owned, exits, k);
    } else {
      assert a.machine.campaign.None?;
    }
  }

  // ---- an entry was filled, or not ----

  lemma {:induction false} ConfirmTurnsLive(units: seq<Unit>, k: int, ts: int, price: Price)
    requires HasK(units, k)
    ensures |Confirm(units, k, ts, price)| == |units|
    ensures exists i :: 0 <= i < |units| && units[i].k == k
              && Confirm(units, k, ts, price)
                  == units[i := units[i].(entryTs := ts, entryPrice := price, origin := Live)]
  {
    if units[0].k == k {
      assert Confirm(units, k, ts, price) == units[0 := units[0].(entryTs := ts, entryPrice := price, origin := Live)];
    } else {
      var j :| 0 <= j < |units| && units[j].k == k;
      assert units[1..][j - 1].k == k;
      ConfirmTurnsLive(units[1..], k, ts, price);
      var i :| 0 <= i < |units[1..]| && units[1..][i].k == k
        && Confirm(units[1..], k, ts, price)
            == units[1..][i := units[1..][i].(entryTs := ts, entryPrice := price, origin := Live)];
      assert units[i + 1].k == k;
      assert Confirm(units, k, ts, price)
        == units[i + 1 := units[i + 1].(entryTs := ts, entryPrice := price, origin := Live)];
    }
  }

  lemma KsAt(units: seq<Unit>, k: int)
    ensures k in KsOf(units) <==> exists i :: 0 <= i < |units| && units[i].k == k
  {
    if k in KsOf(units) {
      var u :| u in units && u.k == k;
      var i :| 0 <= i < |units| && units[i] == u;
      assert units[i].k == k;
    }
    if i :| 0 <= i < |units| && units[i].k == k {
      assert units[i] in units;
    }
  }

  lemma SameKs(a: seq<Unit>, b: seq<Unit>)
    requires |a| == |b| && forall i :: 0 <= i < |a| ==> a[i].k == b[i].k
    ensures KsOf(a) == KsOf(b)
  {
    forall k ensures k in KsOf(a) <==> k in KsOf(b) {
      hide KsOf;
      KsAt(a, k);
      KsAt(b, k);
    }
  }

  predicate ConfirmedUnits(before: seq<Unit>, after: seq<Unit>, k: int, ts: int, price: Price) {
    && |after| == |before|
    && forall i :: 0 <= i < |before| ==>
         after[i] == if before[i].k == k then before[i].(entryTs := ts, entryPrice := price, origin := Live)
             else before[i]
  }

  lemma ConfirmIs(units: seq<Unit>, k: int, ts: int, price: Price)
    requires HasK(units, k)
    requires forall i, j :: 0 <= i < |units| && 0 <= j < |units| && units[i].k == units[j].k ==> i == j
    ensures ConfirmedUnits(units, Confirm(units, k, ts, price), k, ts, price)
  {
    ConfirmTurnsLive(units, k, ts, price);
  }

  /** Confirming a fill makes that unit live and leaves every slot where it was. */
  lemma ConfirmFill(m: Machine, k: int, ts: int, price: Price)
    requires Restorable(m) && m.campaign.Some? && k in Ks(m)
    ensures HasK(Units(m), k)
    ensures var s := ConfirmOwnedFill(m, k, ts, price);
      && s.out.Ok? && Restorable(s.m) && s.m.campaign.Some? && s.m == m.(campaign := s.m.campaign)
      && ConfirmedUnits(Units(m), Units(s.m), k, ts, price) && Ks(s.m) == Ks(m)
      && s.m.campaign.value.id == m.campaign.value.id && s.m.campaign.value.side == m.campaign.value.side
      && s.m.campaign.value.lifetimeUnits == m.campaign.value.lifetimeUnits
      && s.m.campaign.value.origin == (if k == 0 then Live else m.campaign.value.origin)
  {
    LiveUnitsAreKs(m);
    KsAt(Units(m), k);
    ConfirmKeeps(m, k, ts, price);
    ConfirmIs(Units(m), k, ts, price);
    SameKs(Units(m), Confirm(Units(m), k, ts, price));
    hide KsOf, Restorable;
  }

  lemma FillSettlesParent(a: Adapter, owned: Owned, exits: set<int>, i: Intent, price: Price, ts: int)
    requires Entering(a, owned, exits, i) && i.k == 0
    ensures var r := OnEntered(a, 0, price);
      r.Acted? && Settled(r.a, owned[0 := Held(i.side, price, ts)], exits) && r.intents == [] && r.a.urgent == []
  {
    var m := a.machine;
    assert Units(m)[0] in Units(m);
    assert 0 in Ks(m);
    ConfirmFill(m, 0, FindK(Units(m), 0).entryTs, price);
    hide Restorable, TooFar, ConfirmOwnedFill;
    var r := OnEntered(a, 0, price);
    assert Units(r.a.machine) == [Units(r.a.machine)[0]];
  }

  lemma FarAreChildren(m: Machine)
    requires Restorable(m)
    ensures FarSlots(m) <= CHILDREN
  {
    if HasOrigin(m, Live) {
      LiveUnitsAreKs(m);
      forall u | u in Units(m)[1..] ensures u.k in CHILDREN {
        var j :| 0 <= j < |Units(m)[1..]| && Units(m)[1..][j] == u;
        assert Units(m)[j + 1] == u;
      }
    }
  }

  /** A unit is marked when its own fill is beyond the cap. */
  lemma FarMeans(m: Machine, k: int)
    requires Restorable(m) && k in FarSlots(m)
    ensures HasOrigin(m, Live)
    ensures exists i :: (0 < i < |Units(m)| && Units(m)[i].k == k
              && TooFar(m.campaign.value.side, Units(m)[i].entryPrice, Units(m)[0].entryPrice))
  {
    hide TooFar;
    var u :| u in Units(m)[1..] && u.k == k && TooFar(m.campaign.value.side, u.entryPrice, Units(m)[0].entryPrice);
    var j :| 0 <= j < |Units(m)[1..]| && Units(m)[1..][j] == u;
    assert Units(m)[j + 1] == u;
  }

  lemma ConfirmedAllLive(m: Machine, after: seq<Unit>, k: int, ts: int, price: Price)
    requires LiveButLast(m) && PaperLast(m, k) && ConfirmedUnits(Units(m), after, k, ts, price)
    ensures AllLive(after)
  {
    forall u | u in after ensures u.origin == Live {
      var j :| 0 <= j < |after| && after[j] == u;
      assert Units(m)[j].origin == Live || PaperLast(m, Units(m)[j].k);
    }
  }

  /** The machine after its newest add-on was filled: every unit live, the same slots, far only if its own fill is. */
  lemma ConfirmAddon(m: Machine, k: int, ts: int, price: Price)
    requires Restorable(m) && LiveButLast(m) && PaperLast(m, k) && k in Ks(m)
    ensures var s := ConfirmOwnedFill(m, k, ts, price);
      && s.out.Ok? && Restorable(s.m) && HasOrigin(s.m, Live) && s.m == m.(campaign := s.m.campaign)
      && AllLive(Units(s.m)) && Ks(s.m) == Ks(m) && s.m.campaign.value.side == m.campaign.value.side
      && FarSlots(s.m) <= CHILDREN
      && (k in FarSlots(s.m) ==> TooFar(m.campaign.value.side, price, Units(m)[0].entryPrice))
  {
    hide TooFar, FarSlots, KsOf;
    var s := ConfirmOwnedFill(m, k, ts, price);
    ConfirmFill(m, k, ts, price);
    ConfirmedAllLive(m, Units(s.m), k, ts, price);
    FarAreChildren(s.m);
    if k in FarSlots(s.m) {
      FarMeans(s.m, k);
    }
  }

  /** An add-on filled beyond the cap is marked for abortion, and its exit follows at once. */
  lemma FillSettlesAddon(a: Adapter, owned: Owned, exits: set<int>, i: Intent, price: Price, ts: int)
    requires Entering(a, owned, exits, i) && i.k != 0
    ensures var r := OnEntered(a, i.k, price);
      && r.Acted? && Settled(r.a, owned[i.k := Held(i.side, price, ts)], exits) && r.a.urgent == []
      && (r.intents == [] || (r.intents == [Leave(i.k, true)] && i.k in r.a.aborting))
      && (i.k in r.a.aborting ==> TooFar(a.machine.campaign.value.side, price, Units(a.machine)[0].entryPrice))
  {
    hide Restorable, TooFar, KsOf, FarSlots, AllLive, PaperLast, LiveButLast, ConfirmOwnedFill, HasK, FindK;
    var m, k := a.machine, i.k;
    SlotIsUnit(m, k);
    ConfirmAddon(m, k, FindK(Units(m), k).entryTs, price);
    ChildSlot(m, k);
    var m1 := ConfirmOwnedFill(m, k, FindK(Units(m), k).entryTs, price).m;
    var a1 := a.(machine := m1, aborting := FarSlots(m1));
    assert OnEntered(a, k, price).a == a1;
    var owned1 := owned[k := Held(i.side, price, ts)];
    assert owned1.Keys == owned.Keys + {k};
    assert Past(a1, owned1.Keys);
    assert Bounds(a1, owned1, exits);
    assert SidesAgree(m1, owned1);
    LiveSettled(a1, owned1, exits);
  }

  lemma ChildSlot(m: Machine, k: int)
    requires Restorable(m) && PaperLast(m, k) && k in Ks(m)
    ensures k in CHILDREN && HasOrigin(m, Live)
  {
    LiveUnitsAreKs(m);
  }

  lemma SlotIsUnit(m: Machine, k: int)
    requires m.campaign.Some? && k in Ks(m)
    ensures HasK(Units(m), k)
  {
    KsAt(Units(m), k);
  }

  lemma DiscardedUnits(m: Machine, k: int)
    requires Restorable(m) && PaperLast(m, k) && LiveButLast(m)
    ensures var s := DiscardUnfilledAddon(m, k);
      && s.out.Ok? && Restorable(s.m) && s.m == m.(campaign := s.m.campaign) && HasOrigin(s.m, Live)
      && s.m.campaign.value.side == m.campaign.value.side && s.m.campaign.value.id == m.campaign.value.id
      && AllLive(Units(s.m)) && Ks(s.m) == Ks(m) - {k}
  {
    hide KsOf;
    LiveUnitsAreKs(m);
    DiscardKeeps(m, k);
    var s := DiscardUnfilledAddon(m, k);
    var units, left := Units(m), Units(s.m);
    assert left == units[..|units| - 1];
    forall x ensures x in Ks(s.m) <==> x in Ks(m) - {k} {
      KsAt(units, x);
      KsAt(left, x);
      if j :| 0 <= j < |units| && units[j].k == x && x != k {
        assert left[j].k == x;
      }
    }
    forall u | u in left ensures u.origin == Live {
      var j :| 0 <= j < |left| && left[j] == u;
      assert units[j].origin == Live || PaperLast(m, units[j].k);
    }
  }

  lemma NoFillSettles(a: Adapter, owned: Owned, exits: set<int>, i: Intent)
    requires Entering(a, owned, exits, i)
    ensures var r := OnNotEntered(a, i.k, i.campaign);
      && r.Acted? && Settled(r.a, owned, exits) && r.a.urgent == [] && r.a.closing == {} && r.a.aborting == a.aborting
      && !HasOrigin(r.a.machine, Paper)
  {
    hide TooFar, KsOf;
    if i.k != 0 {
      DiscardedUnits(a.machine, i.k);
      hide Restorable, DiscardUnfilledAddon, AllLive, LiveButLast;
      assert Campaigned(OnNotEntered(a, i.k, i.campaign).a, owned);
    } else {
      assert Restorable(a.machine.(campaign := None));
    }
  }

  // ---- the venue closed something ----

  lemma LeavesMembers(slots: set<int>, abort: bool)
    requires slots <= SLOTS
    ensures forall i :: i in Leaves(slots, abort) <==> i.Leave? && i.abort == abort && i.k in slots
  {
  }

  lemma ExternalSettles(a: Adapter, before: Owned, exits: set<int>, e: Event, owned: Owned)
    requires Settled(a, before, exits) && e.k in before && e.k !in exits
    requires e.k == 0 ==> owned == before - {0}
    ensures var r := OnExternal(a, e, owned);
      r.Acted? && Settled(r.a, before - {e.k}, exits) && !HasOrigin(r.a.machine, Paper)
  {
    hide TooFar, KsOf, Restorable;
    var after := before - {e.k};
    assert after.Keys == before.Keys - {e.k};
    assert exits - {e.k} == exits;
    if a.machine.campaign.None? {
    } else if e.k != 0 {
      ChildGone(a, before, exits, e.k);
      hide ForgetClosedChild;
    } else {
      var children := owned.Keys * CHILDREN;
      assert children == after.Keys;
      LeavesMembers(children, false);
      hide Leaves;
      assert Restorable(ParentLiquidated(a.machine, e.ts, e.price, e.liquidated).m) by {
        ParentGoneRestorable(a.machine, e.ts, e.price, e.liquidated);
      }
    }
  }

  lemma ParentGoneRestorable(m: Machine, ts: int, price: real, liquidated: bool)
    requires Restorable(m)
    ensures Restorable(ParentLiquidated(m, ts, price, liquidated).m)
  {
  }

  predicate ParentLast(events: seq<Event>) {
    forall i :: 0 <= i < |events| - 1 ==> events[i].k != 0
  }

  lemma EventKsSplit(events: seq<Event>)
    requires events != [] && Distinct(events)
    ensures EventKs(events) == {events[0].k} + EventKs(events[1..]) && events[0].k !in EventKs(events[1..])
    ensures Distinct(events[1..]) && (ParentLast(events) ==> ParentLast(events[1..]))
  {
    assert events == [events[0]] + events[1..];
    forall e | e in events[1..] ensures e.k != events[0].k {
      var i :| 0 <= i < |events[1..]| && events[1..][i] == e;
      assert events[i + 1] == e;
    }
  }

  /** Delivering a batch leaves exactly the surviving slots owned, and never raises. */
  lemma {:induction false} ExternalsSettle(a: Adapter, before: Owned, exits: set<int>, events: seq<Event>, owned: Owned)
    requires Settled(a, before, exits) && Distinct(events) && ParentLast(events)
    requires EventKs(events) <= before.Keys && EventKs(events) !! exits && owned == before - EventKs(events)
    ensures var r := OnExternals(a, events, owned);
      r.Acted? && Settled(r.a, owned, exits) && (HasOrigin(r.a.machine, Paper) ==> HasOrigin(a.machine, Paper))
    decreases |events|
  {
    if events == [] {
      assert owned == before;
    } else {
      hide Settled, OnExternal;
      EventKsSplit(events);
      var k := events[0].k;
      if k == 0 {
        assert events[1..] == [];
      }
      assert owned == before - {k} - EventKs(events[1..]);
      ExternalSettles(a, before, exits, events[0], owned);
      ExternalsSettle(OnExternal(a, events[0], owned).a, before - {k}, exits, events[1..], owned);
    }
  }

  lemma {:induction false} OnlyKeeps(events: seq<Event>, parent: bool)
    requires Distinct(events)
    ensures forall e :: e in Only(events, parent) <==> e in events && (e.k == 0) == parent
    ensures Distinct(Only(events, parent))
    ensures parent ==> |Only(events, parent)| <= 1
  {
    if events != [] {
      EventKsSplit(events);
      OnlyKeeps(events[1..], parent);
      assert events == [events[0]] + events[1..];
      var rest := Only(events[1..], parent);
      forall e | e in rest ensures e.k != events[0].k {
        assert e in events[1..] && e.k in EventKs(events[1..]);
      }
      assert rest != [] ==> rest[0] in rest;
    }
  }

  lemma ChildrenFirstOrders(events: seq<Event>)
    requires Distinct(events)
    ensures Distinct(ChildrenFirst(events)) && ParentLast(ChildrenFirst(events))
    ensures EventKs(ChildrenFirst(events)) == EventKs(events)
  {
    OnlyKeeps(events, false);
    OnlyKeeps(events, true);
    var children, parents, all := Only(events, false), Only(events, true), ChildrenFirst(events);
    forall i, j | 0 <= i < j < |all| ensures all[i].k != all[j].k {
      if i < |children| {
        assert children[i] in children;
      }
      if j >= |children| {
        assert parents[j - |children|] in parents;
      }
    }
    forall e ensures e in all <==> e in events {
      assert e in all <==> e in children || e in parents;
    }
    forall i | 0 <= i < |all| - 1 ensures all[i].k != 0 {
      assert all[i] == children[i] && children[i] in children;
    }
  }

  // ---- reconciliation ----

  lemma FinishFlatSettles(a: Adapter, owned: Owned, exits: set<int>, k: int)
    requires Settled(a, owned, exits) && k > 0
    ensures var r := FinishFlat(a, k, owned);
      && r.Acted? && Settled(r.a, owned, exits) && r.a.urgent == a.urgent && r.a.closing == a.closing
      && r.a.aborting == (if k in owned then a.aborting else a.aborting - {k})
      && (HasOrigin(r.a.machine, Paper) ==> HasOrigin(a.machine, Paper))
  {
    hide TooFar, Restorable;
    if k in a.aborting && k !in owned {
      KsAt(Units(a.machine), k);
      assert owned - {k} == owned && exits - {k} == exits;
      if HasOrigin(a.machine, Live) && k in Ks(a.machine) {
        ChildGone(a, owned, exits, k);
      } else {
        hide KsOf;
        assert HasOrigin(a.machine, Live) ==> !HasK(Units(a.machine), k);
        if HasOrigin(a.machine, Paper) {
          assert !HasK(Units(a.machine), k);
        }
      }
    }
  }

  lemma ReconcileSettles(a: Adapter, owned: Owned, exits: set<int>)
    requires Settled(a, owned, exits)
    ensures var r := Reconcile(a, owned);
      && r.Acted? && Settled(r.a, owned, exits) && MirrorOk(r.a, owned, owned)
      && (HasOrigin(r.a.machine, Paper) ==> HasOrigin(a.machine, Paper))
  {
    hide FinishFlat, Settled;
    FinishFlatSettles(a, owned, exits, 1);
    var a1 := FinishFlat(a, 1, owned).a;
    FinishFlatSettles(a1, owned, exits, 2);
    var a2 := FinishFlat(a1, 2, owned).a;
    FinishFlatSettles(a2, owned, exits, 3);
    UnlistFlat(FinishFlat(a2, 3, owned).a, owned, exits);
  }

  lemma UnlistFlat(a: Adapter, owned: Owned, exits: set<int>)
    requires Settled(a, owned, exits)
    ensures var closing := a.closing * owned.Keys;
      Settled(a.(closing := closing, closingCampaign := if closing == {} then None else a.closingCampaign), owned,
          exits)
  {
    hide TooFar, Restorable, KsOf;
  }
}
