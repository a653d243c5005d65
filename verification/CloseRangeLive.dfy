/**
 The live adapter as the program runs it: an object that updates its slots, its
 waiting reversal and its machine in place, each hook proved against Adapter.
 */
module CloseRangeLive {
  import opened Common
  import opened CloseRange
  import opened CloseRangeProperties
  import CloseRangeMachine
  import opened Adapter
  import opened AdapterHooks
  import opened AdapterBars

  class CloseRangeLive {
    const entriesEnabled: bool
    const directionMode: DirectionMode
    var machine: CloseRangeMachine.CloseRangeMachine
    var activationTs: int
    var closingCampaignId: Option<CampaignId>
    var closingSlots: set<int>
    var abortingSlots: set<int>
    var pendingReversal: Option<Reversal>
    var urgentIntents: seq<Intent>

    function State(): Adapter
      reads this, machine
    {
      Adapter(machine.State(), activationTs, closingCampaignId, closingSlots, abortingSlots, pendingReversal,
          urgentIntents)
    }

    function Settings(): Config {
      Config(entriesEnabled, directionMode)
    }

    ghost predicate Valid()
      reads this, machine
    {
      machine.Valid()
    }

    constructor (machine: CloseRangeMachine.CloseRangeMachine, activationTs: int, settings: Config)
      requires machine.Valid()
      ensures State() == Adapter(machine.State(), activationTs, None, {}, {}, None, [])
      ensures Valid() && Settings() == settings && this.machine == machine
    {
      this.machine, this.activationTs := machine, activationTs;
      entriesEnabled, directionMode := settings.entriesEnabled, settings.mode;
      closingCampaignId, closingSlots, abortingSlots, pendingReversal, urgentIntents := None, {}, {}, None, [];
    }

    // ---- giving up what was never funded ----

    method AbandonUnfundedParent(id: CampaignId)
      requires Valid()
      modifies this, machine
      ensures State() == AbandonParent(old(State()), id) && Valid() && machine == old(machine)
    {
      FlatRestorable(machine.State());
      if machine.campaign.Some? && machine.campaign.value.id == id && machine.campaign.value.origin == Paper {
        machine.campaign := None;
      }
      if pendingReversal.Some? && pendingReversal.value.id == id {
        pendingReversal := None;
      }
    }

    method AbandonPendingReversal()
      requires Valid()
      modifies this, machine
      ensures State() == AbandonReversal(old(State())) && Valid() && machine == old(machine)
    {
      if pendingReversal.Some? {
        AbandonUnfundedParent(pendingReversal.value.id);
      }
    }

    method MarkOutOfRangeFills()
      requires Valid()
      modifies `abortingSlots
      ensures State() == MarkFar(old(State()))
    {
      if machine.campaign.None? || machine.campaign.value.origin != Live || machine.campaign.value.units == [] {
        return;
      }
      hide TooFar;
      var c := machine.campaign.value;
      var parentPrice, i := c.units[0].entryPrice, 1;
      ghost var before := abortingSlots;
      while i < |c.units|
        invariant 1 <= i <= |c.units|
        invariant abortingSlots == before + FarAmong(c, i)
      {
        var unit := c.units[i];
        if unit.origin == Live && TooFar(c.side, unit.entryPrice, parentPrice) {
          abortingSlots := abortingSlots + {unit.k};
        }
        i := i + 1;
      }
      FarAmongAll(c);
      assert abortingSlots == before + FarSlots(machine.State());
    }

    // ---- bars ----

    method RestorePendingReversalCampaign()
      requires Valid() && pendingReversal.Some?
      modifies machine
      ensures State() == RestoreReversal(old(State())) && Valid()
    {
      RestoredReversal(State());
      var p := pendingReversal.value;
      machine.campaign := Some(Campaign(
        p.id, p.side, p.boundary, p.ts, 0, 0.0, Paper, 1, [Unit(0, p.ts, p.price, Paper, None)]));
    }

    /** Controls and expiry of a waiting reversal; the answer is whether it may enter now. */
    method ServeReversal(ts: int, mirror: Owned) returns (due: bool)
      requires Valid()
      modifies this, machine
      ensures var a := Controls(old(State()), Settings());
        State() == Waiting(a, ts, mirror) && (due <==> ReversalDue(a, ts, mirror))
      ensures Valid() && machine == old(machine)
    {
      if !entriesEnabled {
        AbandonPendingReversal();
      }
      if pendingReversal.Some? && !DirectionAllowed(directionMode, pendingReversal.value.side) {
        AbandonPendingReversal();
      }
      if pendingReversal.None? {
        return false;
      }
      if ts > pendingReversal.value.ts + REVERSAL_ENTRY_WINDOW {
        AbandonPendingReversal();
        return false;
      }
      if closingSlots != {} || mirror != map[] {
        return false;
      }
      if machine.campaign.None? {
        RestorePendingReversalCampaign();
      }
      return true;
    }

    method OnMinuteBar(b: Bar, warmup: bool, mirror: Owned) returns (r: Result<seq<Intent>>)
      requires Valid() && b.Minute?
      modifies this, machine
      ensures Answers(r, OnMinute(old(State()), b, warmup, mirror, Settings())) && Valid() && machine == old(machine)
    {
      hide CloseRange.ObservePrices, Restorable;
      var decisions := machine.ObserveHistoricalPrices(b.ts, b.open, b.low, b.high);
      if decisions.Err? {
        return Err(decisions.error);
      }
      if warmup {
        return Ok([]);
      }
      var urgent := urgentIntents + Notes(|decisions.value|);
      urgentIntents := [];
      ServingKeepsSlots(State(), Settings(), b.ts, mirror);
      var due := ServeReversal(b.ts, mirror);
      urgent := urgent + Leaves(abortingSlots * mirror.Keys - closingSlots, true);
      if due {
        return Ok(urgent + [Enter(0, pendingReversal.value.side, pendingReversal.value.id)]);
      }
      return Ok(urgent);
    }

    method OnDailyBar(c: DailyCandle, warmup: bool, mirror: Owned) returns (r: Result<seq<Intent>>)
      requires Valid()
      modifies this, machine
      ensures Answers(r, OnDaily(old(State()), c, warmup, mirror, Settings()))
      ensures (r.Ok? ==> Valid()) && machine == old(machine)
    {
      hide CloseRange.CompleteAndApplyNextOpen, Restorable, Intents, WarmupDecisions;
      var urgent: seq<Intent> := [];
      if !warmup {
        urgent := urgentIntents;
        urgentIntents := [];
        ServingKeepsSlots(State(), Settings(), c.ts + DAY, mirror);
        var due := ServeReversal(c.ts + DAY, mirror);
      }
      if machine.lastBarTs.Some? && c.ts <= machine.lastBarTs.value {
        return Ok(urgent);
      }
      var decisions := machine.CompleteAndApplyNextOpen(c, c.ts + DAY, c.close, activationTs, directionMode);
      if decisions.Err? {
        return Err(decisions.error);
      }
      if warmup {
        r := ReconcileWarmupDecisions(decisions.value, mirror);
        assert r.Ok? ==> [] + r.value == r.value;
        return;
      }
      r := IntentsFor(decisions.value, mirror);
      if r.Ok? {
        r := Ok(urgent + r.value);
      }
    }

    // ---- decisions ----

    /** Take back an entry decision: drop the unfunded parent, or the add-on of a live campaign. */
    method TakeBackDecision(d: Decision) returns (r: Result<seq<Intent>>)
      requires Valid()
      modifies this, machine
      ensures Answers(r, TakeBack(old(State()), d)) && Valid() && machine == old(machine)
      ensures closingSlots == old(closingSlots)
    {
      if d.kind == PaperParent {
        if d.campaign.Some? {
          AbandonUnfundedParent(d.campaign.value);
        }
        return Ok([]);
      }
      if d.k.Some? && machine.campaign.Some? && machine.campaign.value.origin == Live {
        DiscardKeeps(machine.State(), d.k.value);
        var dropped := machine.DiscardUnfilledAddon(d.k.value);
        if dropped.Err? {
          return Err(dropped.error);
        }
      }
      return Ok([]);
    }

    method ReconcileWarmupDecisions(ds: seq<Decision>, mirror: Owned) returns (r: Result<seq<Intent>>)
      requires Valid()
      modifies this, machine
      ensures Answers(r, WarmupDecisions(old(State()), ds, mirror)) && Valid() && machine == old(machine)
    {
      hide Restorable, TakeBack, Leaves;
      var i := 0;
      assert ds[0..] == ds;
      while i < |ds|
        invariant 0 <= i <= |ds| && Valid() && machine == old(machine)
        invariant WarmupDecisions(State(), ds[i..], mirror) == WarmupDecisions(old(State()), ds, mirror)
      {
        var d := ds[i];
        assert ds[i..][0] == d && ds[i..][1..] == ds[i + 1..];
        if d.kind == CampaignExit {
          if mirror != map[] {
            closingCampaignId := d.campaign;
            closingSlots := closingSlots + mirror.Keys;
            urgentIntents := urgentIntents + Leaves(mirror.Keys, false);
          }
        } else if d.kind == PaperParent || d.kind == PaperAddon {
          var taken := TakeBackDecision(d);
          if taken.Err? {
            return taken;
          }
        }
        i := i + 1;
      }
      assert ds[i..] == [];
      return Ok([]);
    }

    /** An entry decision becomes an intent, a waiting reversal, or is taken back. */
    method EntryIntentFor(d: Decision, mirror: Owned) returns (r: Result<seq<Intent>>)
      requires Valid() && d.kind in {PaperParent, PaperAddon} && d.k.Some?
      modifies this, machine
      ensures Answers(r, EntryIntent(old(State()), d, mirror, Settings())) && Valid() && machine == old(machine)
    {
      hide TakeBack;
      FlatRestorable(machine.State());
      if abortingSlots != {} || !entriesEnabled || !machine.historicalModelComplete
         || !machine.historicalFundingAvailable {
        r := TakeBackDecision(d);
        return;
      }
      if closingSlots != {} {
        if d.kind == PaperParent {
          if closingCampaignId.Some? {
            if !WholeParent(d) {
              return Err("incomplete parent decision");
            }
            pendingReversal := Some(ReversalOf(d));
          }
          machine.campaign := None;
        }
        return Ok([]);
      }
      if (d.k.value > 0 && 0 !in mirror) || d.k.value in mirror {
        return Ok([]);
      }
      if d.campaign.None? || d.side.None? {
        return Err("incomplete entry decision");
      }
      return Ok([Enter(d.k.value, if d.side.value == 1 then 1 else -1, d.campaign.value)]);
    }

    method IntentsFor(ds: seq<Decision>, mirror: Owned) returns (r: Result<seq<Intent>>)
      requires Valid()
      modifies this, machine
      ensures Answers(r, Intents(old(State()), ds, mirror, Settings())) && Valid() && machine == old(machine)
    {
      hide Restorable, EntryIntent, Leaves, Intents, Prepend;
      var intents: seq<Intent>, i := [], 0;
      assert ds[0..] == ds;
      ghost var all := Intents(State(), ds, mirror, Settings());
      PrependNothing(all);
      while i < |ds|
        invariant 0 <= i <= |ds| && Valid() && machine == old(machine)
        invariant all == Prepend(intents, Intents(State(), ds[i..], mirror, Settings()))
      {
        var d := ds[i];
        assert ds[i..][0] == d && ds[i..][1..] == ds[i + 1..];
        PrependStep(intents, State(), ds[i..], mirror, Settings());
        if d.kind in {PaperParent, PaperAddon} && d.k.Some? {
          var entry := EntryIntentFor(d, mirror);
          if entry.Err? {
            return entry;
          }
          intents := intents + entry.value;
        } else if d.kind == CampaignExit {
          closingCampaignId := d.campaign;
          closingSlots := closingSlots + mirror.Keys;
          intents := intents + Leaves(mirror.Keys, false);
        } else {
          assert intents + [] == intents;
        }
        i := i + 1;
      }
      assert ds[i..] == [];
      PrependEnd(intents, State(), mirror, Settings());
      return Ok(intents);
    }

    // ---- order results and closures ----

    method FinishAbortedAddon(k: int) returns (r: Result<seq<Intent>>)
      requires Valid()
      modifies this, machine
      ensures Answers(r, FinishAborted(old(State()), k)) && Valid() && machine == old(machine)
    {
      if machine.campaign.Some? && HasK(machine.campaign.value.units, k) {
        ForgetRestorable(machine.State(), k);
        var gone := machine.ForgetClosedChild(k);
        if gone.Err? {
          return Err(gone.error);
        }
      }
      abortingSlots := abortingSlots - {k};
      return Ok([]);
    }

    method OnExitResult(k: int, abort: bool) returns (r: Result<seq<Intent>>)
      requires Valid()
      modifies this, machine
      ensures Answers(r, OnExited(old(State()), k, abort)) && Valid() && machine == old(machine)
    {
      closingSlots := closingSlots - {k};
      if closingSlots == {} {
        closingCampaignId := None;
      }
      if abort {
        r := FinishAbortedAddon(k);
        return;
      }
      return Ok([]);
    }

    method OnEntryRefused(k: int, id: CampaignId) returns (r: Result<seq<Intent>>)
      requires Valid()
      modifies this, machine
      ensures Answers(r, OnNotEntered(old(State()), k, id)) && Valid() && machine == old(machine)
    {
      if k == 0 {
        AbandonUnfundedParent(id);
        return Ok([]);
      }
      DiscardKeeps(machine.State(), k);
      var dropped := machine.DiscardUnfilledAddon(k);
      return if dropped.Err? then Err(dropped.error) else Ok([]);
    }

    /** A confirmed entry; the answer is the exit of an add-on filled beyond the cap. */
    method OnEntryFilled(k: int, price: Price) returns (r: Result<seq<Intent>>)
      requires Valid()
      modifies this, machine
      ensures Answers(r, OnEntered(old(State()), k, price)) && Valid() && machine == old(machine)
    {
      if machine.campaign.None? || !HasK(machine.campaign.value.units, k) {
        return Err("campaign unit is absent");
      }
      var unit := FindK(machine.campaign.value.units, k);
      ConfirmKeeps(machine.State(), k, unit.entryTs, price);
      var confirmed := machine.ConfirmOwnedFill(k, unit.entryTs, price);
      if k == 0 {
        pendingReversal := None;
        return Ok([]);
      }
      MarkOutOfRangeFills();
      return Ok(if k in abortingSlots then [Leave(k, true)] else []);
    }

    method OnExternalPositionClosed(e: Event, owned: Owned) returns (r: Result<seq<Intent>>)
      requires Valid()
      modifies this, machine
      ensures Answers(r, OnExternal(old(State()), e, owned)) && Valid() && machine == old(machine)
    {
      hide Leaves, Restorable;
      if machine.campaign.None? {
        if e.k !in closingSlots {
          return Err("externally closed breakout unit has no campaign");
        }
        closingSlots := closingSlots - {e.k};
        if closingSlots == {} {
          closingCampaignId := None;
        }
        return Ok([]);
      }
      if e.k == 0 {
        ParentGoneRestorable(machine.State(), e.ts, e.price, e.liquidated);
        var outcome := machine.ParentLiquidated(e.ts, e.price, e.liquidated);
        closingCampaignId := outcome.value[0].campaign;
        var children := owned.Keys * {1, 2, 3};
        closingSlots := closingSlots + children;
        urgentIntents := urgentIntents + Leaves(children, false);
        return Ok([]);
      }
      ForgetRestorable(machine.State(), e.k);
      var gone := machine.ForgetClosedChild(e.k);
      if gone.Err? {
        return Err(gone.error);
      }
      abortingSlots := abortingSlots - {e.k};
      return Ok([]);
    }

    method OnExternalPositionsClosed(events: seq<Event>, owned: Owned) returns (r: Result<seq<Intent>>)
      requires Valid()
      modifies this, machine
      ensures Answers(r, OnExternals(old(State()), ChildrenFirst(events), owned)) && Valid() && machine == old(machine)
    {
      hide OnExternal, Restorable;
      var ordered, i := ChildrenFirst(events), 0;
      assert ordered[0..] == ordered;
      while i < |ordered|
        invariant 0 <= i <= |ordered| && Valid() && machine == old(machine)
        invariant OnExternals(State(), ordered[i..], owned) == OnExternals(old(State()), ordered, owned)
      {
        assert ordered[i..][1..] == ordered[i + 1..];
        var one := OnExternalPositionClosed(ordered[i], owned);
        if one.Err? {
          return one;
        }
        i := i + 1;
      }
      assert ordered[i..] == [];
      return Ok([]);
    }

    /** Drop what is flat: aborted units leave the campaign, closed slots leave the list. */
    method ReconcileExecutionState(owned: Owned) returns (r: Result<seq<Intent>>)
      requires Valid()
      modifies this, machine
      ensures Answers(r, Reconcile(old(State()), owned)) && Valid() && machine == old(machine)
    {
      hide FinishAborted, Restorable;
      var k := 1;
      ghost var a1 := FinishFlat(State(), 1, owned);
      ghost var a2 := if a1.Acted? then FinishFlat(a1.a, 2, owned) else a1;
      while k < 4
        invariant 1 <= k <= 4 && Valid() && machine == old(machine)
        invariant k == 1 ==> State() == old(State())
        invariant k == 2 ==> a1.Acted? && State() == a1.a
        invariant k == 3 ==> a1.Acted? && a2.Acted? && State() == a2.a
        invariant k == 4 ==> a1.Acted? && a2.Acted? && FinishFlat(a2.a, 3, owned).Acted?
                             && State() == FinishFlat(a2.a, 3, owned).a
      {
        if k in abortingSlots && k !in owned {
          var finished := FinishAbortedAddon(k);
          if finished.Err? {
            return finished;
          }
        }
        k := k + 1;
      }
      closingSlots := closingSlots * owned.Keys;
      if closingSlots == {} {
        closingCampaignId := None;
      }
      return Ok([]);
    }

    // ---- startup and persistence ----

    method SettleModelledParent(owned: Owned) returns (r: Result<seq<Intent>>)
      requires Valid()
      modifies this, machine
      ensures Answers(r, SettleParent(old(State()), owned)) && Valid() && machine == old(machine)
    {
      if machine.campaign.None? || machine.campaign.value.origin != Paper {
        return Ok([]);
      }
      if 0 in owned {
        if owned[0].side != machine.campaign.value.side {
          return Err("owned breakout parent side disagrees with campaign");
        }
        ConfirmKeeps(machine.State(), 0, owned[0].ts, owned[0].price);
        var confirmed := machine.ConfirmOwnedFill(0, owned[0].ts, owned[0].price);
        return if confirmed.Err? then Err(confirmed.error) else Ok([]);
      }
      if owned == map[] {
        machine.campaign, machine.pendingExit := None, None;
      }
      return Ok([]);
    }

    /** Newest first: confirm the add-ons that were filled, discard the others. */
    method SettleModelledAddons(owned: Owned) returns (r: Result<seq<Intent>>)
      requires Valid() && machine.campaign.Some? && machine.campaign.value.units != []
      modifies this, machine
      ensures Answers(r, SettleAddons(old(State()), old(machine.campaign).value.units[1..], owned)) && Valid()
      ensures machine == old(machine)
    {
      hide Restorable, CloseRange.ConfirmOwnedFill, CloseRange.DiscardUnfilledAddon;
      var units := machine.campaign.value.units[1..];
      var n := |units|;
      assert units[..n] == units;
      while n > 0
        invariant 0 <= n <= |units| && Valid() && machine == old(machine)
        invariant SettleAddons(State(), units[..n], owned) == SettleAddons(old(State()), units, owned)
      {
        var unit := units[n - 1];
        assert units[..n][..n - 1] == units[..n - 1];
        if unit.origin == Paper {
          var settled: Result<seq<Decision>>;
          if unit.k in owned {
            if machine.campaign.None? || owned[unit.k].side != machine.campaign.value.side {
              return Err("owned breakout side disagrees with campaign");
            }
            ConfirmKeeps(machine.State(), unit.k, owned[unit.k].ts, owned[unit.k].price);
            settled := machine.ConfirmOwnedFill(unit.k, owned[unit.k].ts, owned[unit.k].price);
          } else {
            DiscardKeeps(machine.State(), unit.k);
            settled := machine.DiscardUnfilledAddon(unit.k);
          }
          if settled.Err? {
            return Err(settled.error);
          }
        }
        n := n - 1;
      }
      return Ok([]);
    }

    method OnStart(owned: Owned) returns (r: Result<seq<Intent>>)
      requires Valid()
      modifies this, machine
      ensures Answers(r, OnStartup(old(State()), owned)) && Valid() && machine == old(machine)
    {
      hide Restorable, SettleParent, SettleAddons, FarSlots, Leaves;
      if pendingReversal.Some? && owned.Keys == {0} && closingSlots == {} {
        if machine.campaign.None? || machine.campaign.value.id != pendingReversal.value.id {
          return Err("pending reversal does not match owned parent");
        }
        ConfirmKeeps(machine.State(), 0, machine.campaign.value.entryTs, owned[0].price);
        var confirmed := machine.ConfirmOwnedFill(0, machine.campaign.value.entryTs, owned[0].price);
        if confirmed.Err? {
          return Err(confirmed.error);
        }
        pendingReversal := None;
        return Ok([]);
      }
      r := SettleModelledParent(owned);
      if r.Err? {
        return;
      }
      if machine.campaign.Some? && machine.campaign.value.origin == Live {
        if machine.campaign.value.units != [] {
          r := SettleModelledAddons(owned);
          if r.Err? {
            return;
          }
        }
        MarkOutOfRangeFills();
      }
      r := TakeOwnership(owned);
    }

    method TakeOwnership(owned: Owned) returns (r: Result<seq<Intent>>)
      requires Valid()
      modifies `urgentIntents
      ensures Answers(r, CheckOwnership(old(State()), owned))
    {
      if owned != map[] && machine.campaign.None? && owned.Keys <= closingSlots {
        urgentIntents := urgentIntents + Leaves(owned.Keys, false);
        return Ok([]);
      }
      var live := machine.campaign.Some? && machine.campaign.value.origin == Live;
      if owned != map[] && !live {
        return Err("owned breakout trades have no live campaign state");
      }
      if live && 0 !in owned && closingSlots == {} {
        return Err("live breakout campaign has no owned parent trade");
      }
      if machine.campaign.Some? && !(owned.Keys <= KsOf(machine.campaign.value.units)) {
        return Err("owned breakout slot is absent from campaign state");
      }
      return Ok([]);
    }

    method PersistentState() returns (s: Saved)
      ensures s == Persist(State())
    {
      var machineState := machine.Save();
      s := Saved(machineState, activationTs, closingCampaignId, closingSlots, abortingSlots, pendingReversal);
    }

    /** Restore a snapshot; a refused one stops the start. */
    method RestorePersistentState(s: Saved) returns (ok: bool)
      modifies this, machine
      ensures ok <==> Restored(s).Acted?
      ensures ok ==> State() == Restored(s).a.(urgent := old(urgentIntents)) && Valid()
    {
      hide CloseRange.Restore;
      var loaded := machine.Load(s.machine);
      if loaded.Err? {
        return false;
      }
      activationTs, closingCampaignId := s.activation, s.closingCampaign;
      closingSlots, abortingSlots, pendingReversal := s.closing, s.aborting, s.pending;
      return closingSlots <= {0, 1, 2, 3} && abortingSlots <= {1, 2, 3};
    }

    /** What a hook's answer and effect must be; after an exception only its message matters. */
    ghost predicate Answers(r: Result<seq<Intent>>, expected: Acted)
      reads this, machine
    {
      match expected
      case Acted(a, intents) => r == Ok(intents) && State() == a
      case Raised(error) => r == Err(error)
    }
  }

  /** Intents collected so far in front of what the remaining decisions give. */
  function Prepend(intents: seq<Intent>, r: Acted): Acted {
    if r.Raised? then r else Acted(r.a, intents + r.intents)
  }

  lemma PrependNothing(r: Acted)
    ensures Prepend([], r) == r
  {
    assert r.Acted? ==> [] + r.intents == r.intents;
  }

  lemma PrependEnd(intents: seq<Intent>, a: Adapter, mirror: Owned, cfg: Config)
    ensures Prepend(intents, Intents(a, [], mirror, cfg)) == Acted(a, intents)
  {
    assert intents + [] == intents;
  }

  lemma PrependStep(intents: seq<Intent>, a: Adapter, ds: seq<Decision>, mirror: Owned, cfg: Config)
    requires ds != []
    ensures var first := IntentOf(a, ds[0], mirror, cfg);
      Prepend(intents, Intents(a, ds, mirror, cfg))
      == if first.Raised? then first else Prepend(intents + first.intents, Intents(first.a, ds[1..], mirror, cfg))
  {
    hide IntentOf;
    var first := IntentOf(a, ds[0], mirror, cfg);
    if first.Acted? {
      var rest := Intents(first.a, ds[1..], mirror, cfg);
      assert rest.Acted? ==> intents + (first.intents + rest.intents) == intents + first.intents + rest.intents;
    }
  }

  lemma ForgetRestorable(m: Machine, k: int)
    requires Restorable(m)
    ensures Restorable(ForgetClosedChild(m, k).m)
  {
    if m.campaign.Some? {
      ForgetKeepsCampaign(m, k);
    }
  }

  /** Serving a reversal touches neither slot list, and keeps a reversal that is due. */
  lemma ServingKeepsSlots(a: Adapter, cfg: Config, ts: int, mirror: Owned)
    ensures var a1 := Controls(a, cfg);
      var a2 := Waiting(a1, ts, mirror);
      && a1.closing == a2.closing == a.closing && a1.aborting == a2.aborting == a.aborting
      && a1.urgent == a2.urgent == a.urgent && a1.activation == a2.activation == a.activation
      && (ReversalDue(a1, ts, mirror) ==> a2.pending == a1.pending && a1.pending.Some?)
  {
  }

  /** The slots filled too far among the first units past the parent. */
  function FarAmong(c: Campaign, n: nat): set<int>
    requires n <= |c.units|
  {
    if n <= 1 then {}
    else
      var u := c.units[n - 1];
      FarAmong(c, n - 1) + if u.origin == Live && TooFar(c.side, u.entryPrice, c.units[0].entryPrice) then {u.k} else {}
  }

  lemma {:induction false} FarAmongIs(c: Campaign, n: nat)
    requires 1 <= n <= |c.units|
    ensures FarAmong(c, n) == set u | u in c.units[1..n] && u.origin == Live
                                      && TooFar(c.side, u.entryPrice, c.units[0].entryPrice) :: u.k
  {
    hide TooFar;
    if n > 1 {
      FarAmongIs(c, n - 1);
      assert c.units[1..n] == c.units[1..n - 1] + [c.units[n - 1]];
    }
  }

  lemma FarAmongAll(c: Campaign)
    requires c.origin == Live && c.units != []
    ensures FarAmong(c, |c.units|) == set u | u in c.units[1..] && u.origin == Live
                                              && TooFar(c.side, u.entryPrice, c.units[0].entryPrice) :: u.k
  {
    hide TooFar;
    FarAmongIs(c, |c.units|);
    assert c.units[1..|c.units|] == c.units[1..];
  }
}
