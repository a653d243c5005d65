/** Every step keeps the invariant, so every run does; the guarantees of the protocol follow. */
module ProtocolRuns {
  import opened Common
  import opened Ledger
  import opened LedgerProperties
  import opened Protocol
  import opened ProtocolProperties

  // ---- closing a trade ----

  lemma BeginnableClose(s: Sys, slot: Slot)
    requires Inv(s) && At(s, Idle) && slot in s.process.memory.positions
    ensures var t := s.process.memory.positions[slot].trade;
      && IsOpen(s.venue, s.ledger, t) && s.venue.bot[t].slot == slot
      && (CloseKey(t) in s.ledger.commands ==> Is(s.ledger, CloseKey(t), Submitted))
  {
    hide Sound, RowsOk, SlotsOk, EntriesOk, VenueOk, ReadsOk, ExitsOk;
    var m := s.process.memory;
    assert Holds(s.venue, s.ledger, slot, m.positions[slot]);
    if CloseKey(m.positions[slot].trade) in s.ledger.commands {
      assert !Is(s.ledger, CloseKey(m.positions[slot].trade), Received);
    }
  }

  predicate BeginsClose(s: Sys, slot: Slot, pc: Pc) {
    && At(s, Idle) && slot in s.process.memory.positions
    && var t := s.process.memory.positions[slot].trade;
    pc == ClosePost(slot, t)
    || (pc.ExternalBegun? && pc.slot == slot && pc.trade == t && HasClosed(s.venue, t) && Fits(CloseKey(t), pc.x))
  }

  lemma NewCloseKeeps(s: Sys, slot: Slot, pc: Pc)
    requires Inv(s) && BeginsClose(s, slot, pc)
    requires CloseKey(s.process.memory.positions[slot].trade) !in s.ledger.commands
    ensures var t := s.process.memory.positions[slot].trade;
      Inv(Write(s, Begin(s.ledger, CloseKey(t), Close, slot), s.process.memory, pc))
  {
    hide Sound, Mirrors, ReadsOk, ExitsOk, EntriesOk, ClosesOk, VenueOk, RowsOk, SlotsOk, Fits, HasClosed, Recorded;
    var l, t := s.ledger, s.process.memory.positions[slot].trade;
    var c := Command(Close, Submitted, slot, None, None, false);
    BeginnableClose(s, slot);
    BeginKeeps(l, CloseKey(t), Close, slot);
    assert Begin(l, CloseKey(t), Close, slot) == SetCommand(l, CloseKey(t), c);
    hide Begin;
    assert forall key :: Is(SetCommand(l, CloseKey(t), c), key, Received) ==> Is(l, key, Received);
    CloseStatusKeeps(s, t, c, pc);
  }

  lemma BeginKeepsInv(s: Sys, slot: Slot, pc: Pc)
    requires Inv(s) && BeginsClose(s, slot, pc)
    ensures var t := s.process.memory.positions[slot].trade;
      Inv(Write(s, Begin(s.ledger, CloseKey(t), Close, slot), s.process.memory, pc))
  {
    hide Sound, Mirrors, ReadsOk, ExitsOk, EntriesOk, ClosesOk, VenueOk, RowsOk, SlotsOk, Fits, HasClosed;
    var m, l := s.process.memory, s.ledger;
    if CloseKey(m.positions[slot].trade) !in l.commands {
      NewCloseKeeps(s, slot, pc);
    } else {
      BeginnableClose(s, slot);
      MirrorsPc(s.venue, l, m, Idle, pc);
    }
  }

  lemma MirrorsPc(v: Venue, l: Ledger, m: Memory, pc: Pc, pc1: Pc)
    requires Mirrors(v, l, m, pc) && Clearing(pc) == Clearing(pc1)
    ensures Mirrors(v, l, m, pc1)
  {
  }

  lemma BeginCloseKeeps(s: Sys, slot: Slot)
    requires Inv(s) && Enabled(s, BeginClose(slot))
    ensures Inv(Next(s, BeginClose(slot)))
  {
    hide Inv;
    BeginKeepsInv(s, slot, ClosePost(slot, s.process.memory.positions[slot].trade));
  }

  lemma BeginExternalKeeps(s: Sys, slot: Slot, r: Report)
    requires Inv(s) && Enabled(s, BeginExternal(slot, r))
    ensures Inv(Next(s, BeginExternal(slot, r)))
  {
    hide Sound, Mirrors, ReadsOk, ExitsOk, EntriesOk, ClosesOk, RowsOk, SlotsOk, OnlySaved;
    var p := s.process.memory.positions[slot];
    var x := ExternalResult(slot, p, r);
    assert HasClosed(s.venue, p.trade);
    assert Fits(CloseKey(p.trade), x);
    hide Inv;
    BeginKeepsInv(s, slot, ExternalBegun(slot, p.trade, x));
  }

  /** Steps that change neither the venue, the ledger nor the positions. */
  lemma PcMoves(s: Sys, m1: Memory, pc: Pc)
    requires Inv(s) && s.process.Up? && m1.positions == s.process.memory.positions
    requires m1.missing == s.process.memory.missing
    requires m1.unknown == s.process.memory.unknown
    requires Clearing(pc) == Clearing(s.process.pc) && Saved(pc) == Saved(s.process.pc)
    requires PcOk(s.venue, s.ledger, m1, s.audit.posts, pc) && ExitsOk(s.ledger, m1)
    ensures Inv(Goto(s, m1, pc))
  {
    hide Stored, ExitsOk, IsOpen, Recorded, PcOk;
    assert forall t :: Held(m1, t) <==> Held(s.process.memory, t);
    hide Held;
  }

  lemma PostCloseStepKeeps(s: Sys)
    requires Inv(s) && Enabled(s, PostClose)
    ensures Inv(Next(s, PostClose))
  {
    hide Stored, Mirrors, OnlySaved, ExitsOk, ReadsOk;
    PcMoves(s, s.process.memory, CloseReply(s.process.pc.slot, s.process.pc.trade));
  }

  lemma CloseFailsKeeps(s: Sys)
    requires Inv(s) && Enabled(s, CloseFails)
    ensures Inv(Next(s, CloseFails))
  {
    hide Stored, Mirrors, OnlySaved, ReadsOk;
    PcMoves(s, s.process.memory.(pendingExits := s.process.memory.pendingExits + {s.process.pc.slot}), Idle);
  }

  lemma CloseAcceptedKeeps(s: Sys, r: Report)
    requires Inv(s) && Enabled(s, CloseAccepted(r))
    ensures Inv(Next(s, CloseAccepted(r)))
  {
    hide Stored, IsOpen, ReadsOk;
    var m, slot := s.process.memory, s.process.pc.slot;
    var t := s.process.pc.trade;
    var x := CloseResult(slot, m.positions[slot], r);
    assert Fits(CloseKey(t), x);
    var m1 := Clear(m, slot);
    ClearMirrors(s.venue, s.ledger, m, s.process.pc, CloseCleared(t, x), slot);
    ClearReads(s.venue, s.ledger, m, s.audit, slot, m.missing);
    hide Mirrors, Fits;
    assert m.positions[slot].trade == t;
    assert Inv(Goto(s, m1, CloseCleared(t, x))) by {
      hide Stored, HasClosed;
    }
  }

  /** Clearing a slot removes exactly its own trade from memory. */
  lemma ClearMirrors(v: Venue, l: Ledger, m: Memory, pc: Pc, pc1: Pc, slot: Slot)
    requires Mirrors(v, l, m, pc) && Clearing(pc) == None && slot in m.positions
    requires Clearing(pc1) == Some(m.positions[slot].trade)
    ensures Mirrors(v, l, Clear(m, slot), pc1)
  {
    var t, m1 := m.positions[slot].trade, Clear(m, slot);
    hide IsOpen;
    assert Holds(v, l, slot, m.positions[slot]);
    forall u | IsOpen(v, l, u) && u != t ensures Held(m1, u) {
      assert Held(m, u);
      var other :| other in m.positions && m.positions[other].trade == u;
      assert other in m1.positions;
    }
    forall other | other in m1.positions ensures m1.positions[other].trade != t {
      assert Holds(v, l, other, m.positions[other]);
    }
  }

  lemma ClearReads(v: Venue, l: Ledger, m: Memory, a: Audit, slot: Slot, missing: set<TradeId>)
    requires ReadsOk(v, l, m, a)
    requires forall other :: other in m.positions && other != slot && m.positions[other].trade in m.missing ==>
      m.positions[other].trade in missing
    ensures ReadsOk(v, l, Clear(m, slot).(missing := missing), a)
  {
    hide Recorded;
  }

  lemma ReceiveIsSet(l: Ledger, key: CommandKey, x: Execution)
    requires Is(l, key, Submitted)
    ensures Receive(l, key, x) == SetCommand(l, key, l.commands[key].(status := Received, result := Some(x)))
  {
  }

  lemma SaveResultKeeps(s: Sys, t: TradeId, x: Execution, pc: Pc)
    requires Inv(s) && s.process.Up? && Is(s.ledger, CloseKey(t), Submitted)
    requires HasClosed(s.venue, t) && Fits(CloseKey(t), x)
    requires Saved(s.process.pc) == {} && Saved(pc) == {CloseKey(t)} && Clearing(pc) == Clearing(s.process.pc)
    requires pc == CloseSaved(t) || (pc.ExternalSaved? && pc.trade == t && HoldsAt(s.process.memory, pc.slot, t))
    ensures Inv(Write(s, Receive(s.ledger, CloseKey(t), x), s.process.memory, pc))
  {
    var l := s.ledger;
    var c := l.commands[CloseKey(t)].(status := Received, result := Some(x));
    ReceiveIsSet(l, CloseKey(t), x);
    ReceiveKeeps(l, CloseKey(t), x);
    assert Recorded(s.venue, l, t) && c.slot == s.venue.bot[t].slot && c.action == Close;
    hide Sound, Mirrors, ReadsOk, ExitsOk, EntriesOk, ClosesOk, VenueOk, RowsOk, SlotsOk, Fits, Recorded, HasClosed;
    CloseStatusKeeps(s, t, c, pc);
  }

  lemma SaveCloseKeeps(s: Sys)
    requires Inv(s) && Enabled(s, SaveClose)
    ensures Inv(Next(s, SaveClose))
  {
    hide Stored, Mirrors, OnlySaved, ExitsOk, ReadsOk, Fits, HasClosed, Receive;
    SaveResultKeeps(s, s.process.pc.trade, s.process.pc.x, CloseSaved(s.process.pc.trade));
  }

  lemma SaveExternalKeeps(s: Sys)
    requires Inv(s) && Enabled(s, SaveExternal)
    ensures Inv(Next(s, SaveExternal))
  {
    hide Stored, Mirrors, OnlySaved, ExitsOk, ReadsOk, Fits, HasClosed, Receive;
    var pc := s.process.pc;
    SaveResultKeeps(s, pc.trade, pc.x, ExternalSaved(pc.slot, pc.trade));
  }

  lemma MirrorsAfterClose(v: Venue, l: Ledger, l1: Ledger, t: TradeId, m: Memory, m1: Memory, pc: Pc)
    requires Mirrors(v, l, m, pc) && Clearing(pc) == Some(t) && m1.positions == m.positions
    requires forall u :: IsOpen(v, l1, u) <==> IsOpen(v, l, u) && u != t
    ensures Mirrors(v, l1, m1, Idle)
  {
    hide IsOpen;
    forall slot | slot in m1.positions ensures Holds(v, l1, slot, m1.positions[slot]) {
      assert Holds(v, l, slot, m.positions[slot]);
    }
    forall u | IsOpen(v, l1, u) ensures Held(m1, u) {
      assert Held(m, u);
    }
  }

  lemma SavedIsApplied(l: Ledger, key: CommandKey, pc: Pc)
    requires OnlySaved(l, pc) && Saved(pc) == {key} && Appliable(l, key)
    ensures OnlySaved(Post(l, key), Idle)
    ensures l.commands.Keys <= Post(l, key).commands.Keys
    ensures forall k :: IsApplied(l, k) ==> IsApplied(Post(l, key), k)
    ensures Apply(l, key) == Committed(Post(l, key), RowIds(|l.orders| + 1, |l.fills| + 1))
  {
    PostCommands(l, key);
  }

  lemma ApplyCloseKeeps(s: Sys)
    requires Inv(s) && Enabled(s, ApplyClose)
    ensures Inv(Next(s, ApplyClose))
  {
    hide ExitsOk, Is, IsApplied, IsOpen;
    var v, l, t, m := s.venue, s.ledger, s.process.pc.trade, s.process.memory;
    PostCloseKeeps(v, l, s.audit.posts, t);
    SavedIsApplied(l, CloseKey(t), s.process.pc);
    hide Stored, Post, Apply, IsOpen, Recorded, IsApplied, ReadsOk, ExitsOk, Mirrors, OnlySaved;
    var l1 := Post(l, CloseKey(t));
    OpenAfterClose(v, l, t);
    ExitsStay(l, l1, m);
    ReadsStay(v, l, l1, m, s.audit);
    MirrorsAfterClose(v, l, l1, t, m, m, s.process.pc);
  }

  /** An external closure ends with its slot flat and its trade no longer missing. */
  lemma ClearAfterExternal(v: Venue, l: Ledger, l1: Ledger, m: Memory, a: Audit, pc: Pc, slot: Slot, t: TradeId)
    requires Mirrors(v, l, m, pc) && Clearing(pc) == None && HoldsAt(m, slot, t) && ReadsOk(v, l, m, a) && ExitsOk(l, m)
    requires forall u :: IsOpen(v, l1, u) <==> IsOpen(v, l, u) && u != t
    requires l.commands.Keys <= l1.commands.Keys && forall k :: IsApplied(l, k) ==> IsApplied(l1, k)
    ensures var m1 := Clear(m, slot).(missing := m.missing - {t});
      Mirrors(v, l1, m1, Idle) && ReadsOk(v, l1, m1, a) && ExitsOk(l1, m1)
  {
    hide IsOpen, ReadsOk, IsApplied;
    var m1 := Clear(m, slot).(missing := m.missing - {t});
    ClearMirrors(v, l, m, pc, CloseSaved(t), slot);
    assert forall other :: other in m.positions && other != slot ==> other in Clear(m, slot).positions;
    assert forall other :: other in m.positions && other != slot ==> m.positions[other].trade != t;
    hide Mirrors;
    MirrorsAfterClose(v, l, l1, t, Clear(m, slot), m1, CloseSaved(t));
    ClearReads(v, l, m, a, slot, m.missing - {t});
    ReadsStay(v, l, l1, m1, a);
  }

  lemma ApplyExternalKeeps(s: Sys)
    requires Inv(s) && Enabled(s, ApplyExternal)
    ensures Inv(Next(s, ApplyExternal))
  {
    hide HoldsAt, Is, IsOpen;
    var v, l, t, m, slot := s.venue, s.ledger, s.process.pc.trade, s.process.memory, s.process.pc.slot;
    hide Stored, Post, Apply, IsOpen, Recorded, IsApplied, ReadsOk, ExitsOk, Mirrors, OnlySaved, Appliable;
    PostCloseKeeps(v, l, s.audit.posts, t);
    SavedIsApplied(l, CloseKey(t), s.process.pc);
    OpenAfterClose(v, l, t);
    ClearAfterExternal(v, l, Post(l, CloseKey(t)), m, s.audit, s.process.pc, slot, t);
  }

  lemma RecoverKeeps(s: Sys, key: CommandKey)
    requires Inv(s) && Enabled(s, Recover(key))
    ensures Inv(Next(s, Recover(key)))
  {
    match key
    case EntryKey(e) => PostEntryKeeps(s.venue, s.ledger, s.audit.posts, e);
      hide Stored, Post;
    case CloseKey(t) => PostCloseKeeps(s.venue, s.ledger, s.audit.posts, t);
      hide Stored, Post;
  }

  // ---- entering ----

  lemma FlatSlotHasNoOpenTrade(s: Sys, slot: Slot, t: TradeId)
    requires Inv(s) && At(s, Idle) && slot !in s.process.memory.positions && IsOpen(s.venue, s.ledger, t)
    ensures s.venue.bot[t].slot != slot
  {
    hide Stored, IsOpen, ReadsOk, ExitsOk, OnlySaved;
    var m := s.process.memory;
    assert Held(m, t);
    var other :| other in m.positions && m.positions[other].trade == t;
    assert Holds(s.venue, s.ledger, other, m.positions[other]);
  }

  lemma PendingIsUnresolved(l: Ledger, f: EntryId)
    requires EntryCommandsOk(l) && Pending(l, f)
    ensures EntryUnresolved(l)
  {
    assert EntryKey(f) in l.commands && l.commands[EntryKey(f)].action == Entry;
  }

  lemma BeginEntryKeeps(s: Sys, e: EntryId, long: bool)
    requires Inv(s) && Enabled(s, BeginEntry(e, long))
    ensures Inv(Next(s, BeginEntry(e, long)))
  {
    var l, c := s.ledger, Command(Entry, Submitted, e.slot, None, None, false);
    hide Sound, RowsOk, SlotsOk, ClosesOk, Mirrors, ReadsOk, ExitsOk, VenueOk, EntryResultsOk, EntryUnresolved;
    BeginKeeps(l, EntryKey(e), Entry, e.slot);
    forall f ensures !Pending(l, f) {
      if Pending(l, f) {
        PendingIsUnresolved(l, f);
      }
    }
    assert e !in s.audit.posts;
    forall t | IsOpen(s.venue, l, t) ensures s.venue.bot[t].slot != e.slot {
      FlatSlotHasNoOpenTrade(s, e.slot, t);
    }
    assert Begin(l, EntryKey(e), Entry, e.slot) == SetCommand(l, EntryKey(e), c);
    assert OnlySaved(SetCommand(l, EntryKey(e), c), EntryPost(e, long)) by {
      assert forall k :: k != EntryKey(e) ==> (Is(SetCommand(l, EntryKey(e), c), k, Received) <==> Is(l, k, Received));
    }
    hide EntriesOk, Pending, OnlySaved, IsOpen;
    EntryStatusKeeps(s, e, c, EntryPost(e, long));
  }

  lemma MirrorsVenue(v: Venue, v1: Venue, l: Ledger, m: Memory, a: Audit, pc: Pc, pc1: Pc)
    requires Mirrors(v, l, m, pc) && ReadsOk(v, l, m, a) && Clearing(pc) == Clearing(pc1)
    requires v1.bot == v.bot && v1.trades == v.trades
    ensures Mirrors(v1, l, m, pc1) && ReadsOk(v1, l, m, a)
  {
    assert forall t :: IsOpen(v1, l, t) <==> IsOpen(v, l, t);
    assert forall t :: Recorded(v1, l, t) <==> Recorded(v, l, t);
    hide IsOpen, Held, Recorded;
  }

  lemma PostsGrow(v: Venue, l: Ledger, posts: multiset<EntryId>, e: EntryId, long: bool)
    requires EntriesOk(v, l, posts) && e !in posts && Is(l, EntryKey(e), Submitted)
    ensures EntriesOk(v.(inflight := v.inflight[e := long]), l, posts + multiset{e})
  {
    hide Fits, Pending;
  }

  lemma PostEntryStepKeeps(s: Sys)
    requires Inv(s) && Enabled(s, PostEntry)
    ensures Inv(Next(s, PostEntry))
  {
    hide Mirrors, ReadsOk, ExitsOk, RowsOk, SlotsOk, ClosesOk, Sound;
    var v, v1, pc, posts := s.venue, Next(s, PostEntry).venue, s.process.pc, s.audit.posts;
    PostsGrow(v, s.ledger, posts, pc.entry, pc.long);
    hide EntriesOk;
    assert Grows(v, v1);
    StoredGrows(v, v1, s.ledger, posts);
    MirrorsVenue(v, v1, s.ledger, s.process.memory, s.audit, pc, EntryReply(pc.entry));
    assert ReadsOk(v1, s.ledger, s.process.memory, Next(s, PostEntry).audit) by {
      ReadsAudit(v1, s.ledger, s.process.memory, s.audit, Next(s, PostEntry).audit);
    }
  }

  lemma ReadsAudit(v: Venue, l: Ledger, m: Memory, a: Audit, a1: Audit)
    requires ReadsOk(v, l, m, a) && a1.listed == a.listed && a1.lastRead == a.lastRead
    ensures ReadsOk(v, l, m, a1)
  {
  }

  lemma EntryAcceptedKeeps(s: Sys, t: TradeId, r: Report)
    requires Inv(s) && Enabled(s, EntryAccepted(t, r))
    ensures Inv(Next(s, EntryAccepted(t, r)))
  {
    hide Stored, Mirrors, OnlySaved, ExitsOk, ReadsOk, IsApplied;
    var e := s.process.pc.entry;
    PcMoves(s, s.process.memory, EntryOpened(e, OpenResult(e, t, s.venue.trades[t], r)));
  }

  lemma EntryLostKeeps(s: Sys)
    requires Inv(s) && Enabled(s, EntryLost)
    ensures Inv(Next(s, EntryLost))
  {
    hide Stored, Mirrors, OnlySaved, ExitsOk, ReadsOk;
    PcMoves(s, s.process.memory, Idle);
  }

  lemma EntryRejectedKeeps(s: Sys)
    requires Inv(s) && Enabled(s, EntryRejected)
    ensures Inv(Next(s, EntryRejected))
  {
    hide Sound, EntriesOk, ClosesOk, RowsOk, SlotsOk, Mirrors, OnlySaved, ExitsOk, ReadsOk;
    var v, e := s.venue, s.process.pc.entry;
    var v1 := v.(inflight := v.inflight - {e});
    OtherVenueMovesKeep(s, v1);
    PcMoves(s.(venue := v1), s.process.memory, EntryRefused(e));
  }

  lemma RecordRejectionKeeps(s: Sys)
    requires Inv(s) && Enabled(s, RecordRejection)
    ensures Inv(Next(s, RecordRejection))
  {
    var l, e := s.ledger, s.process.pc.entry;
    var c := l.commands[EntryKey(e)].(status := Rejected, notified := true);
    RejectKeeps(l, EntryKey(e));
    hide Sound, VenueOk, PostedOk, EntryResultsOk, ClosesOk, RowsOk, SlotsOk, Mirrors, ExitsOk, ReadsOk;
    assert Reject(l, EntryKey(e)) == SetCommand(l, EntryKey(e), c);
    EntryStatusKeeps(s, e, c, Idle);
  }

  lemma SaveEntryKeeps(s: Sys)
    requires Inv(s) && Enabled(s, SaveEntry)
    ensures Inv(Next(s, SaveEntry))
  {
    hide RowsOk, SlotsOk, Mirrors, ExitsOk, ReadsOk, PostedOk, EntryResultsOk, ClosesOk, VenueOk, Sound;
    var l, e, x := s.ledger, s.process.pc.entry, s.process.pc.x;
    var c := l.commands[EntryKey(e)].(status := Received, result := Some(x));
    ReceiveIsSet(l, EntryKey(e), x);
    ReceiveKeeps(l, EntryKey(e), x);
    hide Sound, VenueOk, PostedOk, EntryResultsOk, ClosesOk, OpenFits;
    var l1 := SetCommand(l, EntryKey(e), c);
    assert forall key :: key != EntryKey(e) && Is(l1, key, Received) ==> Is(l, key, Received);
    EntryStatusKeeps(s, e, c, EntrySaved(e));
  }

  /** The recorded trade becomes the position of its slot, which was flat. */
  lemma MirrorsAfterOpen(v: Venue, l: Ledger, l1: Ledger, m: Memory, e: EntryId, o: Order)
    requires Mirrors(v, l, m, EntrySaved(e)) && SlotsOk(v, l) && Pending(l, e)
    requires o.trade in v.bot && v.bot[o.trade] == e && o.slot == e.slot && o.trade in v.trades
    requires o.long == v.trades[o.trade].long && o.quantity == v.trades[o.trade].quantity
    requires forall u :: IsOpen(v, l1, u) <==> IsOpen(v, l, u) || u == o.trade
    ensures o.slot !in m.positions
    ensures Mirrors(v, l1, m.(positions := m.positions[o.slot := Pos(o.trade, o.long, o.quantity)]), Idle)
  {
    hide IsOpen, Pending;
    var m1 := m.(positions := m.positions[o.slot := Pos(o.trade, o.long, o.quantity)]);
    forall slot | slot in m.positions ensures slot != o.slot {
      assert Holds(v, l, slot, m.positions[slot]);
    }
    forall u | IsOpen(v, l1, u) ensures Held(m1, u) {
      if u == o.trade {
        assert m1.positions[o.slot].trade == u;
      } else {
        assert Held(m, u);
        var slot :| slot in m.positions && m.positions[slot].trade == u;
        assert m1.positions[slot].trade == u;
      }
    }
  }

  lemma SavedEntryFits(s: Sys)
    requires Inv(s) && s.process.Up? && s.process.pc.EntrySaved?
    ensures var e := s.process.pc.entry;
      && Is(s.ledger, EntryKey(e), Received) && Pending(s.ledger, e) && s.ledger.commands[EntryKey(e)].result.Some?
      && OpenFits(s.venue, e, s.ledger.commands[EntryKey(e)].result.value)
  {
    hide Sound, ClosesOk, RowsOk, SlotsOk, Mirrors, ReadsOk, ExitsOk, OpenFits;
    assert HasResult(s.ledger, EntryKey(s.process.pc.entry));
  }

  /** The memory after a recorded entry. */
  lemma OpenAfterEntry(v: Venue, l: Ledger, l1: Ledger, m: Memory, a: Audit, e: EntryId, x: Execution)
    requires Mirrors(v, l, m, EntrySaved(e)) && ReadsOk(v, l, m, a) && ExitsOk(l, m)
    requires SlotsOk(v, l) && Pending(l, e) && OpenFits(v, e, x)
    requires var o := x.order; forall u :: IsOpen(v, l1, u) <==> IsOpen(v, l, u) || u == o.trade
    requires l.commands.Keys <= l1.commands.Keys && forall k :: IsApplied(l, k) ==> IsApplied(l1, k)
    ensures var o := x.order;
      var m1 := m.(positions := m.positions[o.slot := Pos(o.trade, o.long, o.quantity)]);
      Mirrors(v, l1, m1, Idle) && ReadsOk(v, l1, m1, a.(listed := a.listed + {o.trade})) && ExitsOk(l1, m1)
  {
    var o := x.order;
    var m1 := m.(positions := m.positions[o.slot := Pos(o.trade, o.long, o.quantity)]);
    hide ReadsOk, ExitsOk, IsOpen, IsApplied, Pending;
    MirrorsAfterOpen(v, l, l1, m, e, o);
    hide Mirrors, SlotsOk;
    ReadsStay(v, l, l1, m, a);
    OpenReads(v, l1, m, a, m1, a.(listed := a.listed + {o.trade}), o);
    ExitsStay(l, l1, m);
    ExitsKeepPositions(l1, m, m1);
  }

  lemma ApplyEntryKeeps(s: Sys)
    requires Inv(s) && Enabled(s, ApplyEntry)
    ensures Inv(Next(s, ApplyEntry))
  {
    hide VenueOk, Sound, EntryCommandsOk, PostedOk, EntryResultsOk, ClosesOk;
    hide RowsOk, SlotsOk, Post, IsOpen, Apply, IsApplied;
    hide OpenFits, Recorded, OnlySaved, ReadsOk, ExitsOk, Mirrors, Pending;
    var v, l, e := s.venue, s.ledger, s.process.pc.entry;
    SavedEntryFits(s);
    PostEntryKeeps(v, l, s.audit.posts, e);
    SavedIsApplied(l, EntryKey(e), s.process.pc);
    OpenAfterOpen(v, l, e);
    OpenAfterEntry(v, l, Post(l, EntryKey(e)), s.process.memory, s.audit, e, l.commands[EntryKey(e)].result.value);
  }

  lemma OpenReads(v: Venue, l: Ledger, m: Memory, a: Audit, m1: Memory, a1: Audit, o: Order)
    requires ReadsOk(v, l, m, a) && m1 == m.(positions := m.positions[o.slot := Pos(o.trade, o.long, o.quantity)])
    requires a1 == a.(listed := a.listed + {o.trade})
    ensures ReadsOk(v, l, m1, a1)
  {
  }

  lemma ExitsKeepPositions(l: Ledger, m: Memory, m1: Memory)
    requires ExitsOk(l, m) && m1.pendingExits == m.pendingExits
    requires forall slot :: slot in m.positions ==> slot in m1.positions && m1.positions[slot] == m.positions[slot]
    ensures ExitsOk(l, m1)
  {
  }

  // ---- reading the inventory, and starting again ----

  lemma KnownTrades(m: Memory, t: TradeId)
    ensures t in Known(m) <==> Held(m, t)
  {
  }

  /** A new reading only replaces what memory says about the venue. */
  lemma ReadingKeeps(s: Sys, m1: Memory, a1: Audit)
    requires Inv(s) && At(s, Idle) && a1.posts == s.audit.posts
    requires m1.positions == s.process.memory.positions && m1.pendingExits == s.process.memory.pendingExits
    requires ReadsOk(s.venue, s.ledger, m1, a1)
    ensures Inv(Goto(s, m1, Idle).(audit := a1))
  {
    hide Stored, OnlySaved, Mirrors, ReadsOk;
    MirrorsMove(s.venue, s.ledger, s.process.memory, m1);
  }

  lemma InventoryKeeps(s: Sys, a: Act)
    requires a.ReadInventory? || a.InventoryFails? || a.EntryRead?
    requires Inv(s) && Enabled(s, a)
    ensures Inv(Next(s, a))
  {
    hide Stored, OnlySaved, Recorded, Mirrors, ExitsOk;
    var v, l, m := s.venue, s.ledger, s.process.memory;
    forall t | t in Known(m) ensures Recorded(v, l, t) {
      KnownTrades(m, t);
      HeldIsRecorded(v, l, m, t);
    }
    assert ReadsOk(v, l, m, s.audit);
    assert forall slot :: slot in m.positions ==> m.positions[slot].trade in Known(m);
    hide Known;
    ReadingKeeps(s, Next(s, a).process.memory, Next(s, a).audit);
  }

  lemma HeldIsRecorded(v: Venue, l: Ledger, m: Memory, t: TradeId)
    requires Mirrors(v, l, m, Idle) && Held(m, t)
    ensures Recorded(v, l, t)
  {
    var slot :| slot in m.positions && m.positions[slot].trade == t;
    assert Holds(v, l, slot, m.positions[slot]);
  }

  lemma MirrorsMove(v: Venue, l: Ledger, m: Memory, m1: Memory)
    requires Mirrors(v, l, m, Idle) && m1.positions == m.positions
    ensures Mirrors(v, l, m1, Idle)
  {
    assert forall t :: Held(m1, t) <==> Held(m, t);
    hide Held, IsOpen;
  }

  /** Recovery never meets two open trades that claim one slot. */
  lemma NeverAmbiguous(v: Venue, l: Ledger)
    requires RowsOk(v, l) && SlotsOk(v, l)
    ensures !Ambiguous(l)
  {
    forall t, u | LocallyOpen(l.orders, t) && LocallyOpen(l.orders, u) && SlotOf(l, t) == SlotOf(l, u) ensures t == u {
      assert RowOk(v, l, t) && RowOk(v, l, u);
    }
  }

  lemma RestoredHolds(v: Venue, l: Ledger, posts: multiset<EntryId>, t: TradeId)
    requires Stored(v, l, posts) && !Ambiguous(l)
    ensures IsOpen(v, l, t) <==> t in LocallyOpenTrades(l.orders)
    ensures IsOpen(v, l, t) ==>
      && SlotOf(l, t) in RestoredPositions(v, l) && RestoredPositions(v, l)[SlotOf(l, t)] == RestoredPos(v, l, t)
      && Holds(v, l, SlotOf(l, t), RestoredPos(v, l, t))
  {
    hide Sound, EntriesOk, ClosesOk, SlotsOk, IsOpen;
    assert RowOk(v, l, t);
    OpenTradesAreListed(l, t);
    hide LocallyOpenTrades;
    if IsOpen(v, l, t) {
      assert SlotOf(l, t) in RestoredPositions(v, l);
      var u :| u in LocallyOpenTrades(l.orders) && SlotOf(l, u) == SlotOf(l, t)
               && RestoredPositions(v, l)[SlotOf(l, t)] == RestoredPos(v, l, u);
      OpenTradesAreListed(l, u);
    }
  }

  lemma RestoredSlotHolds(v: Venue, l: Ledger, posts: multiset<EntryId>, slot: Slot)
    requires Stored(v, l, posts) && !Ambiguous(l) && slot in RestoredPositions(v, l)
    ensures Holds(v, l, slot, RestoredPositions(v, l)[slot])
  {
    var t :| t in LocallyOpenTrades(l.orders) && SlotOf(l, t) == slot;
    RestoredHolds(v, l, posts, t);
  }

  lemma RestoredHeld(v: Venue, l: Ledger, posts: multiset<EntryId>, t: TradeId)
    requires Stored(v, l, posts) && !Ambiguous(l)
    ensures IsOpen(v, l, t) <==> Held(RestoredMemory(v, l), t)
  {
    hide Stored, Ambiguous, LocallyOpenTrades;
    var m := RestoredMemory(v, l);
    RestoredHolds(v, l, posts, t);
    OpenTradesAreListed(l, t);
    if IsOpen(v, l, t) {
      assert RestoredPos(v, l, t).trade == t && HoldsAt(m, SlotOf(l, t), t);
    }
    if Held(m, t) {
      var slot :| slot in m.positions && m.positions[slot].trade == t;
      RestoredSlotHolds(v, l, posts, slot);
    }
  }

  /** A restart rebuilds memory that mirrors the ledger. */
  lemma RestoreMirrors(v: Venue, l: Ledger, posts: multiset<EntryId>)
    requires Stored(v, l, posts)
    ensures !Ambiguous(l) && Mirrors(v, l, RestoredMemory(v, l), Idle)
    ensures forall t :: t in LocallyOpenTrades(l.orders) <==> Held(RestoredMemory(v, l), t)
  {
    assert RowsOk(v, l) && SlotsOk(v, l);
    NeverAmbiguous(v, l);
    hide Stored, Ambiguous, Mirrors, IsOpen, Holds, Held, LocallyOpenTrades, RestoredPositions, RestoredExits;
    var m := RestoredMemory(v, l);
    forall slot | slot in m.positions ensures Holds(v, l, slot, m.positions[slot]) {
      RestoredSlotHolds(v, l, posts, slot);
    }
    forall t ensures IsOpen(v, l, t) <==> Held(m, t)
      ensures IsOpen(v, l, t) <==> t in LocallyOpenTrades(l.orders) {
      RestoredHeld(v, l, posts, t);
      RestoredHolds(v, l, posts, t);
    }
    MirrorsFrom(v, l, m);
  }

  lemma MirrorsFrom(v: Venue, l: Ledger, m: Memory)
    requires forall slot :: slot in m.positions ==> Holds(v, l, slot, m.positions[slot])
    requires forall t :: IsOpen(v, l, t) <==> Held(m, t)
    ensures Mirrors(v, l, m, Idle)
  {
  }

  lemma RestoreKeeps(s: Sys)
    requires Inv(s) && Enabled(s, Restore)
    ensures Inv(Next(s, Restore))
  {
    hide Stored, RestoredPositions, RestoredExits, LocallyOpenTrades, Mirrors, ReadsOk, ExitsOk, Ambiguous;
    var v, l, m := s.venue, s.ledger, RestoredMemory(s.venue, s.ledger);
    RestoreMirrors(v, l, s.audit.posts);
    assert ClosesOk(v, l) by {
      StoredCloses(v, l, s.audit.posts);
    }
    RestoredExitsOk(v, l, m);
    RestoredReads(v, l, m, LocallyOpenTrades(l.orders), Next(s, Restore).audit);
  }

  lemma StoredCloses(v: Venue, l: Ledger, posts: multiset<EntryId>)
    requires Stored(v, l, posts)
    ensures ClosesOk(v, l)
  {
  }

  lemma RestoredReads(v: Venue, l: Ledger, m: Memory, open: set<TradeId>, a: Audit)
    requires Mirrors(v, l, m, Idle) && (forall t :: t in open <==> Held(m, t))
    requires m.missing == open - v.running && m.unknown == v.running - open
    requires a.listed == v.running && a.lastRead == v.running
    ensures ReadsOk(v, l, m, a)
  {
    hide Recorded;
    forall t | Held(m, t) ensures Recorded(v, l, t) {
      HeldIsRecorded(v, l, m, t);
    }
    forall slot | slot in m.positions ensures m.positions[slot].trade in a.listed + m.missing {
      assert Held(m, m.positions[slot].trade);
    }
  }

  lemma RestoredExitsOk(v: Venue, l: Ledger, m: Memory)
    requires m.pendingExits == RestoredExits(v, l, m.positions)
    requires Mirrors(v, l, m, Idle) && ClosesOk(v, l)
    ensures ExitsOk(l, m)
  {
    forall slot | slot in m.pendingExits ensures slot in m.positions
      && CloseKey(m.positions[slot].trade) in l.commands {
      var key :| key in l.commands && key.CloseKey? && l.commands[key].status == Submitted
                 && l.commands[key].slot == slot && slot in m.positions && m.positions[slot].trade in v.running;
      PendingCloseIsOfItsSlot(v, l, m, key.trade);
    }
  }

  lemma PendingCloseIsOfItsSlot(v: Venue, l: Ledger, m: Memory, t: TradeId)
    requires Mirrors(v, l, m, Idle) && ClosesOk(v, l) && Is(l, CloseKey(t), Submitted)
    ensures HoldsAt(m, l.commands[CloseKey(t)].slot, t)
  {
    assert IsOpen(v, l, t);
    assert Held(m, t);
    var slot :| slot in m.positions && m.positions[slot].trade == t;
    assert Holds(v, l, slot, m.positions[slot]);
  }

  // ---- every step, every run ----

  lemma ProcessStepKeeps(s: Sys, a: Act)
    requires Inv(s) && Enabled(s, a)
    ensures Inv(Next(s, a))
  {
    hide Inv, Enabled, Next;
    match a
    case Outside(move) => OutsideKeeps(s, move);
    case Crash => StopKeeps(s, a);
    case Start => StopKeeps(s, a);
    case Recover(key) => RecoverKeeps(s, key);
    case Restore => RestoreKeeps(s);
    case Fund(runId, slot, row) => FundKeeps(s, runId, slot, row);
    case ReadInventory => InventoryKeeps(s, a);
    case InventoryFails => InventoryKeeps(s, a);
    case EntryRead => InventoryKeeps(s, a);
    case BeginClose(slot) => BeginCloseKeeps(s, slot);
    case PostClose => PostCloseStepKeeps(s);
    case CloseAccepted(r) => CloseAcceptedKeeps(s, r);
    case CloseFails => CloseFailsKeeps(s);
    case SaveClose => SaveCloseKeeps(s);
    case ApplyClose => ApplyCloseKeeps(s);
    case BeginEntry(e, long) => BeginEntryKeeps(s, e, long);
    case PostEntry => PostEntryStepKeeps(s);
    case EntryAccepted(t, r) => EntryAcceptedKeeps(s, t, r);
    case EntryRejected => EntryRejectedKeeps(s);
    case EntryLost => EntryLostKeeps(s);
    case RecordRejection => RecordRejectionKeeps(s);
    case SaveEntry => SaveEntryKeeps(s);
    case ApplyEntry => ApplyEntryKeeps(s);
    case BeginExternal(slot, r) => BeginExternalKeeps(s, slot, r);
    case SaveExternal => SaveExternalKeeps(s);
    case ApplyExternal => ApplyExternalKeeps(s);
  }

  lemma OutsideKeeps(s: Sys, move: Move)
    requires Inv(s) && Enabled(s, Outside(move))
    ensures Inv(Next(s, Outside(move)))
  {
    hide Sound, EntriesOk, ClosesOk, RowsOk, SlotsOk, MemoryOk;
    if move.Opens? {
      OpensKeeps(s, move.entry, move.trade, move.quantity);
    } else {
      OtherVenueMovesKeep(s, Moved(s.venue, move));
    }
  }

  lemma StopKeeps(s: Sys, a: Act)
    requires Inv(s) && Enabled(s, a) && (a.Crash? || a.Start?)
    ensures Inv(Next(s, a))
  {
    hide Stored;
  }
}
