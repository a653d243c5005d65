/**
 What holds in every reachable state of the execution protocol, whatever replies
 are lost, whenever the process stops and however late the venue's history is.
 */
module ProtocolProperties {
  import opened Common
  import opened Ledger
  import opened LedgerProperties
  import opened Protocol

  // ---- the invariant ----

  ghost predicate VenueOk(v: Venue) {
    && v.running <= v.trades.Keys
    && (forall t :: t in v.history ==> HasClosed(v, t))
    && v.bot.Keys <= v.trades.Keys
    && (forall t, u :: t in v.bot && u in v.bot && v.bot[t] == v.bot[u] ==> t == u)
  }

  /** The result saved for an entry is about the trade its request opened. */
  predicate OpenFits(v: Venue, entry: EntryId, x: Execution) {
    && Fits(EntryKey(entry), x)
    && var t := x.order.trade;
    && t in v.bot && v.bot[t] == entry && t in v.trades
    && x.order.long == v.trades[t].long && x.order.quantity == v.trades[t].quantity
  }

  predicate HasResult(l: Ledger, key: CommandKey) {
    Is(l, key, Received) || Is(l, key, Applied)
  }

  ghost predicate EntryCommandsOk(l: Ledger) {
    && (forall e :: EntryKey(e) in l.commands ==>
          l.commands[EntryKey(e)].action == Entry && l.commands[EntryKey(e)].slot == e.slot)
    && (forall a, b :: Pending(l, a) && Pending(l, b) ==> a == b)
  }

  /** A decision is posted at most once, and only its own open or still unresolved command opens a trade. */
  ghost predicate PostedOk(v: Venue, l: Ledger, posts: multiset<EntryId>) {
    && (forall e :: posts[e] <= 1)
    && (forall e :: e in posts ==> EntryKey(e) in l.commands)
    && (forall e :: e in v.inflight ==> Is(l, EntryKey(e), Submitted) && e in posts && e !in v.bot.Values)
    && (forall t :: t in v.bot ==>
          EntryKey(v.bot[t]) in l.commands && !Is(l, EntryKey(v.bot[t]), Rejected) && v.bot[t] in posts)
  }

  ghost predicate EntryResultsOk(v: Venue, l: Ledger) {
    forall e :: HasResult(l, EntryKey(e)) ==>
      l.commands[EntryKey(e)].result.Some? && OpenFits(v, e, l.commands[EntryKey(e)].result.value)
  }

  ghost predicate EntriesOk(v: Venue, l: Ledger, posts: multiset<EntryId>) {
    EntryCommandsOk(l) && PostedOk(v, l, posts) && EntryResultsOk(v, l)
  }

  ghost predicate ClosesOk(v: Venue, l: Ledger) {
    forall t :: CloseKey(t) in l.commands ==>
      && Recorded(v, l, t)
      && l.commands[CloseKey(t)].slot == v.bot[t].slot
      && l.commands[CloseKey(t)].action == Close
      && !Is(l, CloseKey(t), Rejected)
      && (HasResult(l, CloseKey(t)) ==> HasClosed(v, t))
  }

  /** The order table agrees with the commands on which trades are open, and with what terms. */
  predicate RowOk(v: Venue, l: Ledger, t: TradeId) {
    && (IsOpen(v, l, t) ==>
          && LocallyOpen(l.orders, t) && t in v.trades
          && var o := Latest(l.orders, t).value;
          o.slot == v.bot[t].slot && o.long == v.trades[t].long && o.quantity == v.trades[t].quantity)
    && (LocallyOpen(l.orders, t) ==> IsOpen(v, l, t))
  }

  ghost predicate RowsOk(v: Venue, l: Ledger) {
    forall t :: RowOk(v, l, t)
  }

  /** A slot holds one open trade, and none while its entry is pending. */
  ghost predicate SlotsOk(v: Venue, l: Ledger) {
    && (forall t, u :: IsOpen(v, l, t) && IsOpen(v, l, u) && v.bot[t].slot == v.bot[u].slot ==> t == u)
    && (forall t, e :: IsOpen(v, l, t) && Pending(l, e) ==> v.bot[t].slot != e.slot)
  }

  ghost predicate Stored(v: Venue, l: Ledger, posts: multiset<EntryId>) {
    VenueOk(v) && Sound(l) && EntriesOk(v, l, posts) && ClosesOk(v, l) && RowsOk(v, l) && SlotsOk(v, l)
  }

  // ---- memory ----

  predicate Holds(v: Venue, l: Ledger, slot: Slot, p: Pos) {
    && IsOpen(v, l, p.trade) && v.bot[p.trade].slot == slot
    && p.trade in v.trades && p.long == v.trades[p.trade].long && p.quantity == v.trades[p.trade].quantity
  }

  predicate Held(m: Memory, t: TradeId) {
    exists slot :: slot in m.positions && m.positions[slot].trade == t
  }

  /** The trade that was cleared from memory and whose rows are not yet written. */
  function Clearing(pc: Pc): Option<TradeId> {
    match pc
    case CloseCleared(t, _) => Some(t)
    case CloseSaved(t) => Some(t)
    case _ => None
  }

  /** Memory is the map from slots to ledger-open trades, outside the window of an accepted close. */
  ghost predicate Mirrors(v: Venue, l: Ledger, m: Memory, pc: Pc) {
    && (forall slot :: slot in m.positions ==> Holds(v, l, slot, m.positions[slot]))
    && (forall t :: IsOpen(v, l, t) && Clearing(pc) != Some(t) ==> Held(m, t))
    && (Clearing(pc).Some? ==> !Held(m, Clearing(pc).value))
  }

  /** The one command whose result may be saved but not applied. */
  function Saved(pc: Pc): set<CommandKey> {
    match pc
    case CloseSaved(t) => {CloseKey(t)}
    case EntrySaved(e) => {EntryKey(e)}
    case ExternalSaved(_, t) => {CloseKey(t)}
    case _ => {}
  }

  ghost predicate OnlySaved(l: Ledger, pc: Pc) {
    forall key :: Is(l, key, Received) <==> key in Saved(pc)
  }

  predicate HoldsAt(m: Memory, slot: Slot, t: TradeId) {
    slot in m.positions && m.positions[slot].trade == t
  }

  predicate PcOk(v: Venue, l: Ledger, m: Memory, posts: multiset<EntryId>, pc: Pc) {
    match pc
    case Idle => true
    case ClosePost(slot, t) => HoldsAt(m, slot, t) && Is(l, CloseKey(t), Submitted)
    case CloseReply(slot, t) => HoldsAt(m, slot, t) && Is(l, CloseKey(t), Submitted)
    case CloseCleared(t, x) => Is(l, CloseKey(t), Submitted) && HasClosed(v, t) && Fits(CloseKey(t), x)
    case CloseSaved(t) => Is(l, CloseKey(t), Received)
    case EntryPost(e, _) => Is(l, EntryKey(e), Submitted) && e !in posts
    case EntryReply(e) => Is(l, EntryKey(e), Submitted)
    case EntryRefused(e) => Is(l, EntryKey(e), Submitted) && e !in v.bot.Values && e !in v.inflight
    case EntryOpened(e, x) => Is(l, EntryKey(e), Submitted) && OpenFits(v, e, x)
    case EntrySaved(e) => Is(l, EntryKey(e), Received)
    case ExternalBegun(slot, t, x) =>
      HoldsAt(m, slot, t) && Is(l, CloseKey(t), Submitted) && HasClosed(v, t) && Fits(CloseKey(t), x)
    case ExternalSaved(slot, t) => HoldsAt(m, slot, t) && Is(l, CloseKey(t), Received)
  }

  ghost predicate ExitsOk(l: Ledger, m: Memory) {
    forall slot :: slot in m.pendingExits ==>
      slot in m.positions && CloseKey(m.positions[slot].trade) in l.commands
  }

  ghost predicate ReadsOk(v: Venue, l: Ledger, m: Memory, a: Audit) {
    && (forall slot :: slot in m.positions ==> m.positions[slot].trade in a.listed + m.missing)
    && (forall t :: t in a.lastRead ==> t in m.unknown || Recorded(v, l, t))
  }

  ghost predicate MemoryOk(s: Sys) {
    s.process.Up? ==>
      var v, l, m, pc := s.venue, s.ledger, s.process.memory, s.process.pc;
      && Mirrors(v, l, m, pc) && OnlySaved(l, pc) && PcOk(v, l, m, s.audit.posts, pc)
      && ExitsOk(l, m) && ReadsOk(v, l, m, s.audit)
  }

  ghost predicate Inv(s: Sys) {
    Stored(s.venue, s.ledger, s.audit.posts) && MemoryOk(s)
  }

  // ---- the venue moves ----

  /** Terms never change, closed trades stay closed, and only requests in flight open trades of the bot. */
  ghost predicate Grows(v: Venue, v1: Venue) {
    && (forall t :: t in v.trades ==> t in v1.trades && v1.trades[t] == v.trades[t])
    && (forall t :: HasClosed(v, t) ==> HasClosed(v1, t))
    && (forall t :: t in v.bot ==> t in v1.bot && v1.bot[t] == v.bot[t])
    && (forall t :: t in v1.bot && t !in v.bot ==> t !in v.trades && v1.bot[t] in v.inflight)
  }

  lemma OpenUnmoved(v: Venue, v1: Venue, l: Ledger, posts: multiset<EntryId>, t: TradeId)
    requires Grows(v, v1) && EntriesOk(v, l, posts)
    ensures Recorded(v1, l, t) <==> Recorded(v, l, t)
    ensures IsOpen(v1, l, t) <==> IsOpen(v, l, t)
  {
    hide OpenFits;
  }

  lemma StoredGrows(v: Venue, v1: Venue, l: Ledger, posts: multiset<EntryId>)
    requires Grows(v, v1) && EntriesOk(v, l, posts) && ClosesOk(v, l) && RowsOk(v, l) && SlotsOk(v, l)
    ensures ClosesOk(v1, l) && RowsOk(v1, l) && SlotsOk(v1, l)
  {
    hide Grows, EntriesOk, IsOpen, LocallyOpen, Latest;
    forall t ensures Recorded(v1, l, t) <==> Recorded(v, l, t)
      ensures IsOpen(v1, l, t) <==> IsOpen(v, l, t) {
      OpenUnmoved(v, v1, l, posts, t);
    }
    ClosesGrow(v, v1, l);
    RowsGrow(v, v1, l);
    SlotsGrow(v, v1, l);
  }

  lemma ClosesGrow(v: Venue, v1: Venue, l: Ledger)
    requires Grows(v, v1) && ClosesOk(v, l)
    ensures ClosesOk(v1, l)
  {
    hide IsOpen, HasClosed;
  }

  lemma RowsGrow(v: Venue, v1: Venue, l: Ledger)
    requires Grows(v, v1) && RowsOk(v, l)
    requires forall t :: IsOpen(v1, l, t) <==> IsOpen(v, l, t)
    ensures RowsOk(v1, l)
  {
    hide LocallyOpen, Latest, HasClosed;
    forall t ensures RowOk(v1, l, t) {
      assert RowOk(v, l, t);
    }
  }

  lemma SlotsGrow(v: Venue, v1: Venue, l: Ledger)
    requires Grows(v, v1) && SlotsOk(v, l)
    requires forall t :: IsOpen(v1, l, t) <==> IsOpen(v, l, t)
    ensures SlotsOk(v1, l)
  {
    hide Pending, HasClosed;
  }

  lemma MemoryGrows(s: Sys, v1: Venue)
    requires Inv(s) && Grows(s.venue, v1) && v1.inflight.Keys <= s.venue.inflight.Keys
    requires s.process.Up? && s.process.pc.EntryRefused? ==> s.process.pc.entry !in v1.bot.Values
    ensures MemoryOk(s.(venue := v1))
  {
    hide Sound, RowsOk, SlotsOk, ClosesOk, Pending;
    if s.process.Up? {
      forall t ensures Recorded(v1, s.ledger, t) <==> Recorded(s.venue, s.ledger, t)
        ensures IsOpen(v1, s.ledger, t) <==> IsOpen(s.venue, s.ledger, t) {
        OpenUnmoved(s.venue, v1, s.ledger, s.audit.posts, t);
      }
      hide EntriesOk, Recorded, IsOpen, Held;
    }
  }

  lemma EntriesOpen(v: Venue, l: Ledger, posts: multiset<EntryId>, entry: EntryId, t: TradeId, terms: Trade)
    requires VenueOk(v) && EntriesOk(v, l, posts) && entry in v.inflight && t !in v.trades
    ensures var v1 := v.(trades := v.trades[t := terms], running := v.running + {t},
                         inflight := v.inflight - {entry}, bot := v.bot[t := entry]);
      VenueOk(v1) && EntriesOk(v1, l, posts)
  {
    hide EntryCommandsOk, HasResult;
    hide Fits;
    var v1 := v.(trades := v.trades[t := terms], running := v.running + {t},
                 inflight := v.inflight - {entry}, bot := v.bot[t := entry]);
    forall e | e in v1.inflight ensures e !in v1.bot.Values {
      assert e in v.inflight;
    }
  }

  lemma EntriesUnmoved(v: Venue, v1: Venue, l: Ledger, posts: multiset<EntryId>)
    requires EntriesOk(v, l, posts) && Grows(v, v1) && v1.bot == v.bot && v1.inflight.Keys <= v.inflight.Keys
    ensures EntriesOk(v1, l, posts)
  {
    hide Fits;
  }

  lemma OpensKeeps(s: Sys, entry: EntryId, t: TradeId, quantity: int)
    requires Inv(s) && CanMove(s.venue, Opens(entry, t, quantity))
    ensures Inv(s.(venue := Moved(s.venue, Opens(entry, t, quantity))))
  {
    hide Sound, EntriesOk, ClosesOk, RowsOk, SlotsOk, Mirrors, OnlySaved, ExitsOk, ReadsOk;
    var v, v1 := s.venue, Moved(s.venue, Opens(entry, t, quantity));
    EntriesOpen(v, s.ledger, s.audit.posts, entry, t, Trade(v.inflight[entry], quantity));
    StoredGrows(v, v1, s.ledger, s.audit.posts);
    MemoryGrows(s, v1);
  }

  /** Venue moves that open no trade of the bot. */
  lemma OtherVenueMovesKeep(s: Sys, v1: Venue)
    requires Inv(s) && VenueOk(v1) && Grows(s.venue, v1)
    requires v1.bot == s.venue.bot && v1.inflight.Keys <= s.venue.inflight.Keys
    ensures Inv(s.(venue := v1))
  {
    hide Sound, VenueOk, Grows, EntriesOk, ClosesOk, RowsOk, SlotsOk, Mirrors, OnlySaved, ExitsOk, ReadsOk;
    StoredGrows(s.venue, v1, s.ledger, s.audit.posts);
    EntriesUnmoved(s.venue, v1, s.ledger, s.audit.posts);
    MemoryGrows(s, v1);
  }

  // ---- the ledger moves ----

  predicate SameApplied(l: Ledger, l1: Ledger, key: CommandKey) {
    IsApplied(l1, key) <==> IsApplied(l, key)
  }

  lemma OpenStays(v: Venue, l: Ledger, l1: Ledger)
    requires forall key :: SameApplied(l, l1, key)
    ensures forall t :: IsOpen(v, l1, t) <==> IsOpen(v, l, t)
  {
    forall t ensures IsOpen(v, l1, t) <==> IsOpen(v, l, t) {
      assert SameApplied(l, l1, CloseKey(t));
      if t in v.bot {
        assert SameApplied(l, l1, EntryKey(v.bot[t]));
      }
    }
  }

  lemma RowsStay(v: Venue, l: Ledger, l1: Ledger)
    requires RowsOk(v, l) && l1.orders == l.orders
    requires forall key :: SameApplied(l, l1, key)
    ensures RowsOk(v, l1)
  {
    hide LocallyOpen, Latest, IsOpen;
    OpenStays(v, l, l1);
    forall t ensures RowOk(v, l1, t) {
      assert RowOk(v, l, t);
    }
  }

  lemma SlotsStay(v: Venue, l: Ledger, l1: Ledger)
    requires SlotsOk(v, l)
    requires forall key :: SameApplied(l, l1, key)
    requires forall e :: Pending(l1, e) ==> Pending(l, e)
    ensures SlotsOk(v, l1)
  {
    hide Pending, IsOpen;
    OpenStays(v, l, l1);
  }

  lemma MirrorsStay(v: Venue, l: Ledger, l1: Ledger, m: Memory, pc: Pc, pc1: Pc)
    requires Mirrors(v, l, m, pc) && Clearing(pc1) == Clearing(pc)
    requires forall key :: SameApplied(l, l1, key)
    ensures Mirrors(v, l1, m, pc1)
  {
    hide IsOpen, Held;
    OpenStays(v, l, l1);
  }

  lemma ReadsStay(v: Venue, l: Ledger, l1: Ledger, m: Memory, a: Audit)
    requires ReadsOk(v, l, m, a)
    requires forall key :: IsApplied(l, key) ==> IsApplied(l1, key)
    ensures ReadsOk(v, l1, m, a)
  {
  }

  lemma PcStays(v: Venue, l: Ledger, l1: Ledger, m: Memory, posts: multiset<EntryId>, pc: Pc)
    requires PcOk(v, l, m, posts, pc) && l1.commands == l.commands
    ensures PcOk(v, l1, m, posts, pc)
  {
    hide Fits, OpenFits;
  }

  lemma FundKeeps(s: Sys, runId: int, slot: Slot, row: FundingRow)
    requires Inv(s) && Enabled(s, Fund(runId, slot, row))
    ensures Inv(Next(s, Fund(runId, slot, row)))
  {
    var l, l1, p := s.ledger, RecordFunding(s.ledger, runId, slot, row), s.process;
    FundingKeeps(l, runId, slot, row);
    assert l1.commands == l.commands && l1.orders == l.orders;
    assert forall key :: SameApplied(l, l1, key);
    RowsStay(s.venue, l, l1);
    SlotsStay(s.venue, l, l1);
    MirrorsStay(s.venue, l, l1, p.memory, p.pc, p.pc);
    ReadsStay(s.venue, l, l1, p.memory, s.audit);
    PcStays(s.venue, l, l1, p.memory, s.audit.posts, p.pc);
    hide Sound, VenueOk, OpenFits, Fits, RowsOk, SlotsOk, Mirrors, ReadsOk, PcOk, RecordFunding;
    assert forall key, st :: Is(l1, key, st) <==> Is(l, key, st);
  }

  // ---- one command changes ----

  function SetCommand(l: Ledger, key: CommandKey, c: Command): Ledger {
    l.(commands := l.commands[key := c])
  }

  lemma UnappliedChange(l: Ledger, key: CommandKey, c: Command)
    requires !IsApplied(l, key) && c.status != Applied
    ensures forall k :: SameApplied(l, SetCommand(l, key, c), k)
    ensures forall k :: IsApplied(l, k) ==> IsApplied(SetCommand(l, key, c), k)
    ensures forall e :: EntryKey(e) != key ==> (Pending(SetCommand(l, key, c), e) <==> Pending(l, e))
  {
    var l1 := SetCommand(l, key, c);
    assert forall k, st :: k != key ==> (Is(l1, k, st) <==> Is(l, k, st));
  }

  lemma ExitsStay(l: Ledger, l1: Ledger, m: Memory)
    requires ExitsOk(l, m) && l.commands.Keys <= l1.commands.Keys
    ensures ExitsOk(l1, m)
  {
  }

  lemma EntriesIgnoreClose(v: Venue, l: Ledger, l1: Ledger, posts: multiset<EntryId>, t: TradeId, c: Command)
    requires EntriesOk(v, l, posts) && l1.commands == l.commands[CloseKey(t) := c]
    ensures EntriesOk(v, l1, posts)
  {
    hide OpenFits;
    assert forall e, st :: Is(l1, EntryKey(e), st) <==> Is(l, EntryKey(e), st);
    assert forall e :: Pending(l1, e) <==> Pending(l, e);
  }

  lemma ClosesIgnoreEntry(v: Venue, l: Ledger, l1: Ledger, e: EntryId, c: Command)
    requires ClosesOk(v, l) && l1.commands == l.commands[EntryKey(e) := c]
    requires IsApplied(l, EntryKey(e)) ==> c.status == Applied
    ensures ClosesOk(v, l1)
  {
    hide HasClosed;
  }

  lemma CloseMoves(v: Venue, l: Ledger, l1: Ledger, t: TradeId, c: Command)
    requires ClosesOk(v, l) && l1.commands == l.commands[CloseKey(t) := c]
    requires Recorded(v, l, t) && c.slot == v.bot[t].slot && c.action == Close && c.status != Rejected
    requires c.status in {Received, Applied} ==> HasClosed(v, t)
    ensures ClosesOk(v, l1)
  {
    hide HasClosed;
  }

  lemma EntryMovesPosted(v: Venue, l: Ledger, l1: Ledger, posts: multiset<EntryId>, e: EntryId, c: Command)
    requires PostedOk(v, l, posts) && l1.commands == l.commands[EntryKey(e) := c]
    requires c.status == Submitted ==> EntryKey(e) !in l.commands
    requires c.status in {Received, Applied} ==> e in v.bot.Values
    requires c.status == Rejected ==> e !in v.bot.Values
    requires c.status != Submitted ==> e !in v.inflight || e in v.bot.Values
    ensures PostedOk(v, l1, posts)
  {
    assert forall f, st :: f != e ==> (Is(l1, EntryKey(f), st) <==> Is(l, EntryKey(f), st));
  }

  lemma EntryMovesResults(v: Venue, l: Ledger, l1: Ledger, e: EntryId, c: Command)
    requires EntryResultsOk(v, l) && l1.commands == l.commands[EntryKey(e) := c]
    requires c.status in {Received, Applied} ==> c.result.Some? && OpenFits(v, e, c.result.value)
    ensures EntryResultsOk(v, l1)
  {
    hide OpenFits;
    assert forall f, st :: f != e ==> (Is(l1, EntryKey(f), st) <==> Is(l, EntryKey(f), st));
  }

  lemma EntryMoves(v: Venue, l: Ledger, l1: Ledger, posts: multiset<EntryId>, e: EntryId, c: Command)
    requires EntriesOk(v, l, posts) && l1.commands == l.commands[EntryKey(e) := c]
    requires c.action == Entry && c.slot == e.slot
    requires if c.status == Submitted then EntryKey(e) !in l.commands && (forall f :: !Pending(l, f)) else Pending(l, e)
    requires c.status == Rejected ==> e !in v.bot.Values && e !in v.inflight
    requires c.status in {Received, Applied} ==> c.result.Some? && OpenFits(v, e, c.result.value)
    ensures EntriesOk(v, l1, posts)
  {
    if c.status in {Received, Applied} {
      assert v.bot[c.result.value.order.trade] == e;
    }
    hide OpenFits, EntryResultsOk, PostedOk;
    EntryMovesPosted(v, l, l1, posts, e, c);
    EntryMovesResults(v, l, l1, e, c);
    assert forall f, st :: f != e ==> (Is(l1, EntryKey(f), st) <==> Is(l, EntryKey(f), st));
    assert forall f :: Pending(l1, f) ==> f == e || Pending(l, f);
  }

  lemma CloseStatusStored(v: Venue, l: Ledger, posts: multiset<EntryId>, t: TradeId, c: Command)
    requires Stored(v, l, posts) && !IsApplied(l, CloseKey(t))
    requires c.status in {Submitted, Received} && c.action == Close
    requires Recorded(v, l, t) && c.slot == v.bot[t].slot
    requires c.status == Received ==> HasClosed(v, t)
    requires Sound(SetCommand(l, CloseKey(t), c))
    ensures Stored(v, SetCommand(l, CloseKey(t), c), posts)
  {
    hide Sound, RowsOk, SlotsOk, EntriesOk, ClosesOk, VenueOk, Pending, IsApplied, Recorded, SameApplied, HasClosed;
    var l1 := SetCommand(l, CloseKey(t), c);
    UnappliedChange(l, CloseKey(t), c);
    EntriesIgnoreClose(v, l, l1, posts, t, c);
    CloseMoves(v, l, l1, t, c);
    RowsStay(v, l, l1);
    SlotsStay(v, l, l1);
  }

  /** A close command that is begun or receives its result. */
  lemma CloseStatusKeeps(s: Sys, t: TradeId, c: Command, pc: Pc)
    requires Inv(s) && s.process.Up? && !IsApplied(s.ledger, CloseKey(t))
    requires c.status in {Submitted, Received} && c.action == Close
    requires Recorded(s.venue, s.ledger, t) && c.slot == s.venue.bot[t].slot
    requires c.status == Received ==> HasClosed(s.venue, t)
    requires Sound(SetCommand(s.ledger, CloseKey(t), c)) && Clearing(pc) == Clearing(s.process.pc)
    requires OnlySaved(SetCommand(s.ledger, CloseKey(t), c), pc)
    requires PcOk(s.venue, SetCommand(s.ledger, CloseKey(t), c), s.process.memory, s.audit.posts, pc)
    ensures Inv(Write(s, SetCommand(s.ledger, CloseKey(t), c), s.process.memory, pc))
  {
    hide Stored, Mirrors, ReadsOk, ExitsOk, PcOk, OnlySaved, Pending, IsApplied, Recorded, SameApplied, HasClosed;
    var v, l, l1, m := s.venue, s.ledger, SetCommand(s.ledger, CloseKey(t), c), s.process.memory;
    CloseStatusStored(v, l, s.audit.posts, t, c);
    UnappliedChange(l, CloseKey(t), c);
    ExitsStay(l, l1, m);
    MirrorsStay(v, l, l1, m, s.process.pc, pc);
    ReadsStay(v, l, l1, m, s.audit);
  }

  /** An entry command that is begun, rejected or receives its result. */
  lemma EntryStatusKeeps(s: Sys, e: EntryId, c: Command, pc: Pc)
    requires Inv(s) && s.process.Up? && !IsApplied(s.ledger, EntryKey(e))
    requires c.status != Applied && c.action == Entry && c.slot == e.slot
    requires if c.status == Submitted then EntryKey(e) !in s.ledger.commands && (forall f :: !Pending(s.ledger, f))
             else Pending(s.ledger, e)
    requires c.status == Submitted ==> !exists t :: IsOpen(s.venue, s.ledger, t) && s.venue.bot[t].slot == e.slot
    requires c.status == Rejected ==> e !in s.venue.bot.Values && e !in s.venue.inflight
    requires c.status == Received ==> c.result.Some? && OpenFits(s.venue, e, c.result.value)
    requires Sound(SetCommand(s.ledger, EntryKey(e), c)) && Clearing(pc) == Clearing(s.process.pc)
    requires OnlySaved(SetCommand(s.ledger, EntryKey(e), c), pc)
    requires PcOk(s.venue, SetCommand(s.ledger, EntryKey(e), c), s.process.memory, s.audit.posts, pc)
    ensures Inv(Write(s, SetCommand(s.ledger, EntryKey(e), c), s.process.memory, pc))
  {
    var v, l, l1, m := s.venue, s.ledger, SetCommand(s.ledger, EntryKey(e), c), s.process.memory;
    hide Sound, OpenFits, RowsOk, SlotsOk, Mirrors, ReadsOk, ExitsOk, PcOk, OnlySaved, EntriesOk, ClosesOk, VenueOk;
    hide IsApplied, SameApplied, IsOpen;
    UnappliedChange(l, EntryKey(e), c);
    EntryMoves(v, l, l1, s.audit.posts, e, c);
    ClosesIgnoreEntry(v, l, l1, e, c);
    ExitsStay(l, l1, m);
    RowsStay(v, l, l1);
    SlotsFollow(v, l, l1, e);
    MirrorsStay(v, l, l1, m, s.process.pc, pc);
    ReadsStay(v, l, l1, m, s.audit);
  }

  lemma SlotsFollow(v: Venue, l: Ledger, l1: Ledger, e: EntryId)
    requires SlotsOk(v, l) && forall key :: SameApplied(l, l1, key)
    requires forall f :: f != e && Pending(l1, f) ==> Pending(l, f)
    requires Pending(l1, e) && !Pending(l, e) ==> !exists t :: IsOpen(v, l, t) && v.bot[t].slot == e.slot
    ensures SlotsOk(v, l1)
  {
    hide Pending, IsOpen;
    OpenStays(v, l, l1);
  }

  // ---- rows are written ----

  lemma LatestAfter(orders: seq<Order>, o: Order, t: TradeId)
    ensures Latest(orders + [o], t) == if o.trade == t then Some(o) else Latest(orders, t)
  {
    assert (orders + [o])[..|orders|] == orders;
  }

  /** What Post does to a command map. */
  lemma PostCommands(l: Ledger, key: CommandKey)
    requires Appliable(l, key)
    ensures var c := Post(l, key).commands[key];
      && Post(l, key).commands == l.commands[key := c]
      && c.status == Applied && c.action == l.commands[key].action && c.slot == l.commands[key].slot
      && c.result == l.commands[key].result
    ensures Post(l, key).orders == l.orders + [l.commands[key].result.value.order]
    ensures forall k :: IsApplied(Post(l, key), k) <==> IsApplied(l, k) || k == key
    ensures forall e :: Pending(Post(l, key), e) <==> Pending(l, e) && key != EntryKey(e)
    ensures forall k :: Is(Post(l, key), k, Received) <==> Is(l, k, Received) && k != key
  {
  }

  lemma RowsAfterClose(v: Venue, l: Ledger, l1: Ledger, t: TradeId, o: Order)
    requires RowsOk(v, l) && l1.orders == l.orders + [o] && o.trade == t && o.action != Open
    requires forall u :: IsOpen(v, l1, u) <==> IsOpen(v, l, u) && u != t
    ensures RowsOk(v, l1)
  {
    hide IsOpen, Latest;
    forall u ensures RowOk(v, l1, u) {
      assert RowOk(v, l, u);
      LatestAfter(l.orders, o, u);
    }
  }

  lemma RowsAfterOpen(v: Venue, l: Ledger, l1: Ledger, e: EntryId, x: Execution)
    requires RowsOk(v, l) && l1.orders == l.orders + [x.order] && OpenFits(v, e, x)
    requires forall u :: IsOpen(v, l1, u) <==> IsOpen(v, l, u) || u == x.order.trade
    ensures RowsOk(v, l1)
  {
    hide IsOpen, Latest;
    forall u ensures RowOk(v, l1, u) {
      assert RowOk(v, l, u);
      LatestAfter(l.orders, x.order, u);
    }
  }

  lemma OpenAfterClose(v: Venue, l: Ledger, t: TradeId)
    requires Appliable(l, CloseKey(t))
    ensures forall u :: Recorded(v, Post(l, CloseKey(t)), u) <==> Recorded(v, l, u)
    ensures forall u :: IsOpen(v, Post(l, CloseKey(t)), u) <==> IsOpen(v, l, u) && u != t
  {
    hide Post, IsApplied;
    PostCommands(l, CloseKey(t));
  }

  lemma PostCloseKeeps(v: Venue, l: Ledger, posts: multiset<EntryId>, t: TradeId)
    requires Stored(v, l, posts) && Is(l, CloseKey(t), Received)
    ensures Appliable(l, CloseKey(t)) && Stored(v, Post(l, CloseKey(t)), posts)
  {
    hide Post, RowsOk, EntriesOk, VenueOk;
    assert Appliable(l, CloseKey(t));
    var l1 := Post(l, CloseKey(t));
    PostKeeps(l, CloseKey(t));
    PostCommands(l, CloseKey(t));
    OpenAfterClose(v, l, t);
    assert Fits(CloseKey(t), l.commands[CloseKey(t)].result.value);
    assert HasClosed(v, t) && Recorded(v, l, t);
    hide Sound, VenueOk, EntriesOk, RowsOk, Post, HasClosed, Pending, IsOpen, Recorded, IsApplied;
    EntriesIgnoreClose(v, l, l1, posts, t, l1.commands[CloseKey(t)]);
    CloseMoves(v, l, l1, t, l1.commands[CloseKey(t)]);
    RowsAfterClose(v, l, l1, t, l.commands[CloseKey(t)].result.value.order);
  }

  lemma OpenAfterOpen(v: Venue, l: Ledger, e: EntryId)
    requires EntryResultsOk(v, l) && ClosesOk(v, l) && VenueOk(v) && Is(l, EntryKey(e), Received)
    ensures Appliable(l, EntryKey(e))
    ensures var t := l.commands[EntryKey(e)].result.value.order.trade;
      forall u :: IsOpen(v, Post(l, EntryKey(e)), u) <==> IsOpen(v, l, u) || u == t
    ensures forall u :: Recorded(v, l, u) ==> Recorded(v, Post(l, EntryKey(e)), u)
  {
    assert HasResult(l, EntryKey(e));
    hide Fits, HasClosed;
    PostCommands(l, EntryKey(e));
    hide Post;
  }

  lemma PostEntryKeeps(v: Venue, l: Ledger, posts: multiset<EntryId>, e: EntryId)
    requires Stored(v, l, posts) && Is(l, EntryKey(e), Received)
    ensures Appliable(l, EntryKey(e)) && Stored(v, Post(l, EntryKey(e)), posts)
  {
    OpenAfterOpen(v, l, e);
    var l1 := Post(l, EntryKey(e));
    PostKeeps(l, EntryKey(e));
    PostCommands(l, EntryKey(e));
    assert HasResult(l, EntryKey(e)) && Pending(l, e);
    var x := l.commands[EntryKey(e)].result.value;
    assert OpenFits(v, e, x);
    assert l.commands[EntryKey(e)].action == Entry && l.commands[EntryKey(e)].slot == e.slot;
    SlotsAfterOpen(v, l, posts, e);
    hide Sound, VenueOk, EntriesOk, ClosesOk, RowsOk, SlotsOk, Post, Pending, OpenFits, IsOpen, Recorded, IsApplied;
    EntryMoves(v, l, l1, posts, e, l1.commands[EntryKey(e)]);
    ClosesIgnoreEntry(v, l, l1, e, l1.commands[EntryKey(e)]);
    RowsAfterOpen(v, l, l1, e, x);
  }

  lemma SlotsAfterOpen(v: Venue, l: Ledger, posts: multiset<EntryId>, e: EntryId)
    requires EntriesOk(v, l, posts) && ClosesOk(v, l) && VenueOk(v) && SlotsOk(v, l) && Is(l, EntryKey(e), Received)
    ensures Appliable(l, EntryKey(e)) && SlotsOk(v, Post(l, EntryKey(e)))
  {
    OpenAfterOpen(v, l, e);
    PostCommands(l, EntryKey(e));
    assert HasResult(l, EntryKey(e)) && Pending(l, e);
    assert OpenFits(v, e, l.commands[EntryKey(e)].result.value);
    hide Post, IsOpen, ClosesOk, EntryResultsOk, PostedOk, Fits, Pending;
  }
}
