/**
 The live adapter: which funded slots a modelled campaign owns, which are being
 closed or aborted, and a reversal that waits until the old stack is gone.

 Values and transition functions; the class that updates them in place is in
 CloseRangeLive.dfy.
 */
module Adapter {
  import opened Common
  import opened CloseRange

  const REVERSAL_ENTRY_WINDOW: int := 300

  /** A funded position as the strategy sees it. */
  datatype Held = Held(side: Side, price: Price, ts: int)

  // Positions by slot number; k0 is the parent's slot.
  type Owned = map<int, Held>

  datatype Intent =
    | Enter(k: int, side: Side, campaign: CampaignId)
    | Leave(k: int, abort: bool)
    | Note

  /** The parent decision kept while the old stack is being closed. */
  datatype Reversal = Reversal(id: CampaignId, ts: int, side: Side, price: Price, boundary: real)

  datatype Config = Config(entriesEnabled: bool, mode: DirectionMode)

  datatype Adapter = Adapter(
    machine: Machine, activation: int, closingCampaign: Option<CampaignId>, closing: set<int>, aborting: set<int>,
    pending: Option<Reversal>, urgent: seq<Intent>)

  datatype Bar = Minute(ts: int, open: real, low: real, high: real) | Daily(candle: DailyCandle)

  function BarTs(b: Bar): int {
    if b.Minute? then b.ts else b.candle.ts + DAY
  }

  /** A hook's effect and what it asks for, or the exception it raised. */
  datatype Acted = Acted(a: Adapter, intents: seq<Intent>) | Raised(error: string)

  function Units(m: Machine): seq<Unit> {
    if m.campaign.Some? then m.campaign.value.units else []
  }

  predicate HasOrigin(m: Machine, origin: Origin) {
    m.campaign.Some? && m.campaign.value.origin == origin
  }

  function KsOf(units: seq<Unit>): set<int> {
    set u | u in units :: u.k
  }

  function Ks(m: Machine): set<int> {
    KsOf(Units(m))
  }

  /** Exit intents for the given slots, in slot order. */
  function Leaves(slots: set<int>, abort: bool): seq<Intent> {
    (if 0 in slots then [Leave(0, abort)] else []) + (if 1 in slots then [Leave(1, abort)] else [])
    + (if 2 in slots then [Leave(2, abort)] else []) + (if 3 in slots then [Leave(3, abort)] else [])
  }

  function With(a: Adapter, s: Step): Acted {
    if s.out.Err? then Raised(s.out.error) else Acted(a.(machine := s.m), [])
  }

  // ---- the distance cap on actual fills ----

  predicate TooFar(side: Side, price: Price, parent: Price) {
    side as real * (price / parent - 1.0) > MAX_ADDON_DISPLACEMENT + TOLERANCE
  }

  function FarSlots(m: Machine): set<int> {
    if !HasOrigin(m, Live) || Units(m) == [] then {}
    else
      set u | u in Units(m)[1..] && u.origin == Live
              && TooFar(m.campaign.value.side, u.entryPrice, Units(m)[0].entryPrice) :: u.k
  }

  function MarkFar(a: Adapter): Adapter {
    a.(aborting := a.aborting + FarSlots(a.machine))
  }

  // ---- giving up what was never funded ----

  function AbandonParent(a: Adapter, id: CampaignId): Adapter {
    var m := a.machine;
    var a1 := if HasOrigin(m, Paper) && m.campaign.value.id == id then a.(machine := m.(campaign := None)) else a;
    if a1.pending.Some? && a1.pending.value.id == id then a1.(pending := None) else a1
  }

  function AbandonReversal(a: Adapter): Adapter {
    if a.pending.Some? then AbandonParent(a, a.pending.value.id) else a
  }

  function DropAddon(a: Adapter, k: int): Acted {
    if HasOrigin(a.machine, Live) then With(a, DiscardUnfilledAddon(a.machine, k)) else Acted(a, [])
  }

  // ---- startup ----

  function SettleParent(a: Adapter, owned: Owned): Acted {
    if !HasOrigin(a.machine, Paper) then Acted(a, [])
    else if 0 in owned then
      if owned[0].side != a.machine.campaign.value.side then
        Raised("owned breakout parent side disagrees with campaign")
      else With(a, ConfirmOwnedFill(a.machine, 0, owned[0].ts, owned[0].price))
    else if owned == map[] then Acted(a.(machine := a.machine.(campaign := None, pendingExit := None)), [])
    else Acted(a, [])
  }

  /** Paper add-ons, newest first: an owned one is confirmed, another is discarded. */
  function SettleAddons(a: Adapter, units: seq<Unit>, owned: Owned): Acted
    decreases |units|
  {
    if units == [] then Acted(a, [])
    else
      var u, rest := units[|units| - 1], units[..|units| - 1];
      if u.origin != Paper then SettleAddons(a, rest, owned)
      else
        var r :=
          if u.k in owned then
            if a.machine.campaign.None? || owned[u.k].side != a.machine.campaign.value.side then
              Raised("owned breakout side disagrees with campaign")
            else With(a, ConfirmOwnedFill(a.machine, u.k, owned[u.k].ts, owned[u.k].price))
          else With(a, DiscardUnfilledAddon(a.machine, u.k));
        if r.Raised? then r else SettleAddons(r.a, rest, owned)
  }

  /** The checks that refuse to start with a trade nobody owns. */
  function CheckOwnership(a: Adapter, owned: Owned): Acted {
    if owned != map[] && a.machine.campaign.None? && owned.Keys <= a.closing then
      Acted(a.(urgent := a.urgent + Leaves(owned.Keys, false)), [])
    else if owned != map[] && !HasOrigin(a.machine, Live) then
      Raised("owned breakout trades have no live campaign state")
    else if HasOrigin(a.machine, Live) && 0 !in owned && a.closing == {} then
      Raised("live breakout campaign has no owned parent trade")
    else if a.machine.campaign.Some? && !(owned.Keys <= Ks(a.machine)) then
      Raised("owned breakout slot is absent from campaign state")
    else Acted(a, [])
  }

  function OnStartup(a: Adapter, owned: Owned): Acted {
    if a.pending.Some? && owned.Keys == {0} && a.closing == {} then
      if a.machine.campaign.None? || a.machine.campaign.value.id != a.pending.value.id then
        Raised("pending reversal does not match owned parent")
      else
        With(a.(pending := None), ConfirmOwnedFill(a.machine, 0, a.machine.campaign.value.entryTs, owned[0].price))
    else
      var p := SettleParent(a, owned);
      if p.Raised? then p
      else
        var units := Units(p.a.machine);
        var s := if HasOrigin(p.a.machine, Live) && units != [] then SettleAddons(p.a, units[1..], owned) else p;
        if s.Raised? then s
        else CheckOwnership(if HasOrigin(p.a.machine, Live) then MarkFar(s.a) else s.a, owned)
  }

  // ---- decisions ----

  /** A parent decision carries everything a reversal needs. */
  predicate WholeParent(d: Decision) {
    && d.campaign.Some? && d.side.Some? && (d.side.value == 1 || d.side.value == -1)
    && d.price.Some? && d.price.value > 0.0 && d.candidate.Some?
  }

  function ReversalOf(d: Decision): Reversal
    requires WholeParent(d)
  {
    Reversal(d.campaign.value, d.ts, d.side.value, d.price.value, d.candidate.value.boundary)
  }

  /** An entry decision that cannot be acted on is taken back from the model. */
  function TakeBack(a: Adapter, d: Decision): Acted {
    if d.kind == PaperParent then Acted(if d.campaign.Some? then AbandonParent(a, d.campaign.value) else a, [])
    else if d.k.Some? then DropAddon(a, d.k.value)
    else Acted(a, [])
  }

  function EntryIntent(a: Adapter, d: Decision, mirror: Owned, cfg: Config): Acted
    requires d.kind in {PaperParent, PaperAddon} && d.k.Some?
  {
    if a.aborting != {} then TakeBack(a, d)
    else if !cfg.entriesEnabled || !a.machine.modelComplete || !a.machine.fundingAvailable then TakeBack(a, d)
    else if a.closing != {} then
      if d.kind == PaperAddon then Acted(a, [])
      else if a.closingCampaign.Some? then
        if !WholeParent(d) then Raised("incomplete parent decision")
        else Acted(a.(pending := Some(ReversalOf(d)), machine := a.machine.(campaign := None)), [])
      else Acted(a.(machine := a.machine.(campaign := None)), [])
    else if d.k.value > 0 && 0 !in mirror then Acted(a, [])
    else if d.k.value in mirror then Acted(a, [])
    else if d.campaign.None? || d.side.None? then Raised("incomplete entry decision")
    else Acted(a, [Enter(d.k.value, if d.side.value == 1 then 1 else -1, d.campaign.value)])
  }

  function IntentOf(a: Adapter, d: Decision, mirror: Owned, cfg: Config): Acted {
    if d.kind in {PaperParent, PaperAddon} && d.k.Some? then EntryIntent(a, d, mirror, cfg)
    else if d.kind == CampaignExit then
      Acted(a.(closingCampaign := d.campaign, closing := a.closing + mirror.Keys), Leaves(mirror.Keys, false))
    else Acted(a, [])
  }

  function Intents(a: Adapter, ds: seq<Decision>, mirror: Owned, cfg: Config): Acted
    decreases |ds|
  {
    if ds == [] then Acted(a, [])
    else
      var first := IntentOf(a, ds[0], mirror, cfg);
      if first.Raised? then first
      else
        var rest := Intents(first.a, ds[1..], mirror, cfg);
        if rest.Raised? then rest else Acted(rest.a, first.intents + rest.intents)
  }

  /** Missed exits stay actionable; missed entries are taken back. */
  function WarmupDecision(a: Adapter, d: Decision, mirror: Owned): Acted {
    match d.kind
    case CampaignExit =>
      if mirror == map[] then Acted(a, [])
      else Acted(a.(closingCampaign := d.campaign, closing := a.closing + mirror.Keys,
                    urgent := a.urgent + Leaves(mirror.Keys, false)), [])
    case PaperParent => TakeBack(a, d)
    case PaperAddon => TakeBack(a, d)
    case _ => Acted(a, [])
  }

  function WarmupDecisions(a: Adapter, ds: seq<Decision>, mirror: Owned): Acted
    decreases |ds|
  {
    if ds == [] then Acted(a, [])
    else
      var first := WarmupDecision(a, ds[0], mirror);
      if first.Raised? then first else WarmupDecisions(first.a, ds[1..], mirror)
  }

  // ---- bars ----

  function RestoreReversal(a: Adapter): Adapter
    requires a.pending.Some?
  {
    var p := a.pending.value;
    a.(machine := a.machine.(campaign := Some(Campaign(
      p.id, p.side, p.boundary, p.ts, 0, 0.0, Paper, 1, [Unit(0, p.ts, p.price, Paper, None)]))))
  }

  /** What a live bar does first: controls may cancel a waiting reversal. */
  function Controls(a: Adapter, cfg: Config): Adapter {
    var a1 := if !cfg.entriesEnabled then AbandonReversal(a) else a;
    if a1.pending.Some? && !DirectionAllowed(cfg.mode, a1.pending.value.side) then AbandonReversal(a1) else a1
  }

  function ReversalExpired(a: Adapter, ts: int): bool {
    a.pending.Some? && ts > a.pending.value.ts + REVERSAL_ENTRY_WINDOW
  }

  predicate ReversalDue(a: Adapter, ts: int, mirror: Owned) {
    a.pending.Some? && !ReversalExpired(a, ts) && a.closing == {} && mirror == map[]
  }

  /** A live bar up to the daily decision: the state, the urgent intents, and whether it ends here. */
  function Waiting(a: Adapter, ts: int, mirror: Owned): Adapter {
    if ReversalExpired(a, ts) then AbandonReversal(a)
    else if ReversalDue(a, ts, mirror) && a.machine.campaign.None? then RestoreReversal(a)
    else a
  }

  function Notes(n: nat): seq<Intent> { seq(n, i => Note) }

  function OnMinute(a: Adapter, b: Bar, warmup: bool, mirror: Owned, cfg: Config): Acted
    requires b.Minute?
  {
    var s := ObservePrices(a.machine, b.ts, b.open, b.low, b.high);
    if s.out.Err? then Raised(s.out.error)
    else
      var a0 := a.(machine := s.m);
      if warmup then Acted(a0, [])
      else
        var a1 := Controls(a0.(urgent := []), cfg);
        var urgent := a.urgent + Notes(|s.out.value|) + Leaves(a1.aborting * mirror.Keys - a1.closing, true);
        var a2 := Waiting(a1, b.ts, mirror);
        if ReversalDue(a1, b.ts, mirror) then
          Acted(a2, urgent + [Enter(0, a1.pending.value.side, a1.pending.value.id)])
        else Acted(a2, urgent)
  }

  function OnDaily(a: Adapter, c: DailyCandle, warmup: bool, mirror: Owned, cfg: Config): Acted {
    var ts := c.ts + DAY;
    var a1 := if warmup then a else Waiting(Controls(a.(urgent := []), cfg), ts, mirror);
    var urgent := if warmup then [] else a.urgent;
    if a1.machine.lastBarTs.Some? && c.ts <= a1.machine.lastBarTs.value then Acted(a1, urgent)
    else
      var s := CompleteAndApplyNextOpen(a1.machine, c, ts, c.close, a1.activation, cfg.mode);
      if s.out.Err? then Raised(s.out.error)
      else
        var a2 := a1.(machine := s.m);
        var r := if warmup then WarmupDecisions(a2, s.out.value, mirror) else Intents(a2, s.out.value, mirror, cfg);
        if r.Raised? then r else Acted(r.a, urgent + r.intents)
  }

  function OnBar(a: Adapter, b: Bar, warmup: bool, mirror: Owned, cfg: Config): Acted {
    match b
    case Minute(_, _, _, _) => OnMinute(a, b, warmup, mirror, cfg)
    case Daily(c) => OnDaily(a, c, warmup, mirror, cfg)
  }

  // ---- order results ----

  function Unlist(a: Adapter, k: int): Adapter {
    var closing := a.closing - {k};
    a.(closing := closing, closingCampaign := if closing == {} then None else a.closingCampaign)
  }

  /** Closing or forgetting a unit that was filled too far from its parent. */
  function FinishAborted(a: Adapter, k: int): Acted {
    var r := if a.machine.campaign.Some? && HasK(Units(a.machine), k)
             then With(a, ForgetClosedChild(a.machine, k)) else Acted(a, []);
    if r.Raised? then r else Acted(r.a.(aborting := r.a.aborting - {k}), [])
  }

  function OnExited(a: Adapter, k: int, abort: bool): Acted {
    if abort then FinishAborted(Unlist(a, k), k) else Acted(Unlist(a, k), [])
  }

  function OnNotEntered(a: Adapter, k: int, id: CampaignId): Acted {
    if k == 0 then Acted(AbandonParent(a, id), []) else With(a, DiscardUnfilledAddon(a.machine, k))
  }

  /** A filled entry; an add-on beyond the cap is unwound at once. */
  function OnEntered(a: Adapter, k: int, price: Price): Acted {
    if a.machine.campaign.None? || !HasK(Units(a.machine), k) then Raised("campaign unit is absent")
    else
      var r := With(a, ConfirmOwnedFill(a.machine, k, FindK(Units(a.machine), k).entryTs, price));
      if r.Raised? then r
      else if k == 0 then Acted(r.a.(pending := None), [])
      else
        var marked := MarkFar(r.a);
        Acted(marked, if k in marked.aborting then [Leave(k, true)] else [])
  }

  // ---- the venue closed something ----

  datatype Event = Event(k: int, ts: int, price: real, liquidated: bool)

  function OnExternal(a: Adapter, e: Event, owned: Owned): Acted {
    if a.machine.campaign.None? && e.k in a.closing then Acted(Unlist(a, e.k), [])
    else if a.machine.campaign.None? then Raised("externally closed breakout unit has no campaign")
    else if e.k == 0 then
      var s := ParentLiquidated(a.machine, e.ts, e.price, e.liquidated);
      if s.out.Err? then Raised(s.out.error)
      else
        var children := owned.Keys * {1, 2, 3};
        Acted(a.(machine := s.m, closingCampaign := s.out.value[0].campaign,
                 closing := a.closing + children, urgent := a.urgent + Leaves(children, false)), [])
    else
      var r := With(a, ForgetClosedChild(a.machine, e.k));
      if r.Raised? then r else Acted(r.a.(aborting := r.a.aborting - {e.k}), [])
  }

  function OnExternals(a: Adapter, events: seq<Event>, owned: Owned): Acted
    decreases |events|
  {
    if events == [] then Acted(a, [])
    else
      var r := OnExternal(a, events[0], owned);
      if r.Raised? then r else OnExternals(r.a, events[1..], owned)
  }

  /** The batch hook: children first, so a closing parent queues only true survivors. */
  function ChildrenFirst(events: seq<Event>): seq<Event> {
    Only(events, false) + Only(events, true)
  }

  function Only(events: seq<Event>, parent: bool): seq<Event> {
    if events == [] then []
    else (if (events[0].k == 0) == parent then [events[0]] else []) + Only(events[1..], parent)
  }

  // ---- reconciliation ----

  /** An aborted slot that is flat is finished, in slot order. */
  function FinishFlat(a: Adapter, k: int, owned: Owned): Acted {
    if k in a.aborting && k !in owned then FinishAborted(a, k) else Acted(a, [])
  }

  function Reconcile(a: Adapter, owned: Owned): Acted {
    var r1 := FinishFlat(a, 1, owned);
    if r1.Raised? then r1
    else
      var r2 := FinishFlat(r1.a, 2, owned);
      if r2.Raised? then r2
      else
        var r3 := FinishFlat(r2.a, 3, owned);
        if r3.Raised? then r3
        else
          var closing := r3.a.closing * owned.Keys;
          Acted(r3.a.(closing := closing, closingCampaign := if closing == {} then None else r3.a.closingCampaign), [])
  }

  // ---- persistence ----

  /** What a restart gets back; urgent intents are not saved. */
  datatype Saved = Saved(
    machine: Snapshot, activation: int, closingCampaign: Option<CampaignId>, closing: set<int>, aborting: set<int>,
    pending: Option<Reversal>)

  function Persist(a: Adapter): Saved {
    Saved(PersistentState(a.machine), a.activation, a.closingCampaign, a.closing, a.aborting, a.pending)
  }

  function Restored(s: Saved): Acted {
    var m := Restore(s.machine);
    if m.Err? then Raised(m.error)
    else if s.closing <= {0, 1, 2, 3} && s.aborting <= {1, 2, 3} then
      Acted(Adapter(m.value, s.activation, s.closingCampaign, s.closing, s.aborting, s.pending, []), [])
    else Raised("rejected its persisted live state")
  }
}
