/** What a caller, an operator and an accountant may rely on in every reachable state. */
module ProtocolGuarantees {
  import opened Common
  import opened Ledger
  import opened LedgerProperties
  import opened Protocol
  import opened ProtocolProperties
  import opened ProtocolRuns

  lemma InitialKeeps()
    ensures Inv(Initial)
  {
    EmptyIsSound();
    hide Sound;
  }

  lemma {:induction false} RunKeeps(s: Sys, script: seq<Act>, end: Sys)
    requires Inv(s) && Follows(s, script, end)
    ensures Inv(end)
    decreases |script|
  {
    if script != [] {
      hide Inv, Enabled, Next;
      ProcessStepKeeps(s, script[0]);
      RunKeeps(Next(s, script[0]), script[1..], end);
    }
  }

  lemma ReachableInv(s: Sys)
    requires Reachable(s)
    ensures Inv(s)
  {
    var script :| Follows(Initial, script, s);
    InitialKeeps();
    RunKeeps(Initial, script, s);
  }

  // ---- exactly once ----

  /**
   However replies are lost and whoever closes the trade first, it has at most one
   closing order, and only if the venue really closed a trade this bot opened.
   */
  lemma ClosedOnce(s: Sys, t: TradeId)
    requires Reachable(s)
    ensures forall i, j :: IsCloseAt(s.ledger, t, i) && IsCloseAt(s.ledger, t, j) ==> i == j
    ensures forall i :: IsCloseAt(s.ledger, t, i) ==> HasClosed(s.venue, t) && Recorded(s.venue, s.ledger, t)
    ensures forall i, j :: 0 <= i < |s.ledger.events| && 0 <= j < |s.ledger.events|
              ==> s.ledger.events[i].key == CloseEvent(t) && s.ledger.events[j].key == CloseEvent(t) ==> i == j
  {
    ReachableInv(s);
    CloseIsAccountedOnce(s.ledger, t);
    hide ResultsFit, OneRowEach, FeesMatchEvents, Conserved, MemoryOk, EntriesOk, RowsOk, SlotsOk, IsCloseAt, HasClosed;
    if IsApplied(s.ledger, CloseKey(t)) {
      assert HasResult(s.ledger, CloseKey(t));
    }
  }

  /** Every applied command has exactly its own order, fill and ids, and each date's totals agree with its events. */
  lemma BooksBalance(s: Sys)
    requires Reachable(s)
    ensures OneRowEach(s.ledger) && UniqueEvents(s.ledger.events) && Conserved(s.ledger)
  {
    ReachableInv(s);
  }

  // ---- bounded unrecorded exposure ----

  predicate Unrecorded(s: Sys, t: TradeId) {
    t in s.venue.bot && !Recorded(s.venue, s.ledger, t)
  }

  /**
   At every moment at most one entry is unresolved, no decision is posted twice, and
   at most one trade the bot opened is missing from the books.
   */
  lemma UnrecordedExposureIsBounded(s: Sys)
    requires Reachable(s)
    ensures forall a, b :: Pending(s.ledger, a) && Pending(s.ledger, b) ==> a == b
    ensures forall e :: s.audit.posts[e] <= 1
    ensures forall t, u :: t in s.venue.bot && u in s.venue.bot && s.venue.bot[t] == s.venue.bot[u] ==> t == u
    ensures forall t, u :: Unrecorded(s, t) && Unrecorded(s, u) ==> t == u
  {
    ReachableInv(s);
    forall t | Unrecorded(s, t) ensures Pending(s.ledger, s.venue.bot[t]) {
      UnrecordedIsPending(s, t);
    }
  }

  lemma UnrecordedIsPending(s: Sys, t: TradeId)
    requires Inv(s) && Unrecorded(s, t)
    ensures Pending(s.ledger, s.venue.bot[t]) && s.venue.bot[t] in s.audit.posts
  {
    hide Sound, ClosesOk, RowsOk, SlotsOk, MemoryOk, OpenFits;
  }

  /** While an entry is about to be posted, every trade the bot ever opened is in the books. */
  lemma NothingUnrecordedWhenPosting(s: Sys, t: TradeId)
    requires Reachable(s) && s.process.Up? && s.process.pc.EntryPost?
    ensures !Unrecorded(s, t)
  {
    ReachableInv(s);
    assert Pending(s.ledger, s.process.pc.entry);
    if Unrecorded(s, t) {
      UnrecordedIsPending(s, t);
    }
  }

  /** An entry is begun only when the latest inventory read listed nothing but recorded trades of the bot. */
  lemma NoEntryBesideStrangers(s: Sys, e: EntryId, long: bool, t: TradeId)
    requires Reachable(s) && Enabled(s, BeginEntry(e, long)) && t in s.audit.lastRead
    ensures Recorded(s.venue, s.ledger, t)
  {
    ReachableInv(s);
    hide Stored;
    assert s.process.memory.unknown == {};
  }

  /** A rejected entry has no trade behind it and none will appear. */
  lemma RejectionIsFinal(s: Sys, e: EntryId)
    requires Reachable(s) && Is(s.ledger, EntryKey(e), Rejected)
    ensures e !in s.venue.bot.Values && e !in s.venue.inflight
  {
    ReachableInv(s);
  }

  // ---- memory and recovery ----

  /** The position a ledger-open trade stands for. */
  predicate RecordsPosition(l: Ledger, slot: Slot, p: Pos) {
    && LocallyOpen(l.orders, p.trade)
    && var o := Latest(l.orders, p.trade).value;
    o.slot == slot && o.long == p.long && o.quantity == p.quantity
  }

  /**
   Outside the window of an accepted close whose rows are being written, memory is
   exactly the map from slots to ledger-open trades.
   */
  lemma MemoryRefinesLedger(s: Sys)
    requires Reachable(s) && s.process.Up? && Clearing(s.process.pc) == None
    ensures Known(s.process.memory) == LocallyOpenTrades(s.ledger.orders)
    ensures forall slot :: slot in s.process.memory.positions ==>
        RecordsPosition(s.ledger, slot, s.process.memory.positions[slot])
  {
    ReachableInv(s);
    MirroredIsKnown(s);
  }

  lemma MirroredIsKnown(s: Sys)
    requires Inv(s) && s.process.Up? && Clearing(s.process.pc) == None
    ensures Known(s.process.memory) == LocallyOpenTrades(s.ledger.orders)
    ensures forall slot :: slot in s.process.memory.positions ==>
        RecordsPosition(s.ledger, slot, s.process.memory.positions[slot])
  {
    var v, l, m := s.venue, s.ledger, s.process.memory;
    hide Sound, EntriesOk, ClosesOk, SlotsOk, OnlySaved, ReadsOk, ExitsOk, PcOk, VenueOk, IsOpen;
    forall slot | slot in m.positions ensures RecordsPosition(l, slot, m.positions[slot])
      && IsOpen(v, l, m.positions[slot].trade) {
      assert Holds(v, l, slot, m.positions[slot]);
      assert RowOk(v, l, m.positions[slot].trade);
    }
    forall t ensures t in Known(m) <==> t in LocallyOpenTrades(l.orders) {
      assert RowOk(v, l, t);
      OpenTradesAreListed(l, t);
      KnownTrades(m, t);
      if Held(m, t) {
        var slot :| slot in m.positions && m.positions[slot].trade == t;
      }
    }
  }

  function ReceivedKeys(l: Ledger): set<CommandKey> {
    set key | key in l.commands && l.commands[key].status == Received
  }

  /** A start applies each saved result and then finds one trade per slot. */
  lemma {:induction false} FinishRecovery(s: Sys) returns (script: seq<Act>, end: Sys)
    requires Inv(s) && s.process.Starting?
    ensures Follows(s, script, end) && Inv(end) && At(end, Idle)
    decreases |ReceivedKeys(s.ledger)|
  {
    hide Stored;
    if key :| key in ReceivedKeys(s.ledger) {
      var next := Next(s, Recover(key));
      ProcessStepKeeps(s, Recover(key));
      SavedResultIsApplied(s, key);
      assert ReceivedKeys(next.ledger) < ReceivedKeys(s.ledger);
      var rest, last := FinishRecovery(next);
      script, end := [Recover(key)] + rest, last;
      assert script[1..] == rest;
    } else {
      assert forall key :: key in s.ledger.commands ==> s.ledger.commands[key].status != Received by {
        forall key | key in s.ledger.commands ensures s.ledger.commands[key].status != Received {
          assert key !in ReceivedKeys(s.ledger);
        }
      }
      assert !Ambiguous(s.ledger) by {
        StoredIsUnambiguous(s);
      }
      ProcessStepKeeps(s, Restore);
      script, end := [Restore], Next(s, Restore);
    }
  }

  lemma StoredIsUnambiguous(s: Sys)
    requires Inv(s)
    ensures !Ambiguous(s.ledger)
  {
    NeverAmbiguous(s.venue, s.ledger);
  }

  lemma SavedResultIsApplied(s: Sys, key: CommandKey)
    requires Inv(s) && Enabled(s, Recover(key))
    ensures Appliable(s.ledger, key)
    ensures Next(s, Recover(key)).process.Starting?
    ensures ReceivedKeys(Next(s, Recover(key)).ledger) == ReceivedKeys(s.ledger) - {key}
  {
    hide Stored, Post;
    match key {
      case EntryKey(e) => PostEntryKeeps(s.venue, s.ledger, s.audit.posts, e);
      case CloseKey(t) => PostCloseKeeps(s.venue, s.ledger, s.audit.posts, t);
    }
    PostCommands(s.ledger, key);
    assert forall k :: k in ReceivedKeys(Post(s.ledger, key)) <==> Is(Post(s.ledger, key), k, Received);
  }

  /**
   Wherever the process stops, a restart comes back: no saved result is refused, no
   mapping is ambiguous, and memory mirrors the ledger again.
   */
  lemma RestartRecovers(s: Sys) returns (script: seq<Act>, end: Sys)
    requires Reachable(s)
    ensures !Ambiguous(s.ledger)
    ensures Follows(s, [Crash, Start] + script, end) && At(end, Idle)
    ensures Known(end.process.memory) == LocallyOpenTrades(end.ledger.orders)
  {
    ReachableInv(s);
    StoredIsUnambiguous(s);
    var down := Next(s, Crash);
    var starting := Next(down, Start);
    hide Inv, LocallyOpenTrades, Known, Ambiguous;
    ProcessStepKeeps(s, Crash);
    ProcessStepKeeps(down, Start);
    script, end := FinishRecovery(starting);
    var all := [Crash, Start] + script;
    assert all[1..][1..] == script;
    assert Follows(down, all[1..], end);
    MirroredIsKnown(end);
  }

  // ---- repeating a close ----

  predicate InEntry(pc: Pc) {
    pc.EntryPost? || pc.EntryReply? || pc.EntryRefused? || pc.EntryOpened? || pc.EntrySaved?
  }

  /** No trade counts as both missing and listed, and no entry is under way beside a missing trade. */
  ghost predicate ReadsApart(s: Sys) {
    s.process.Up? ==>
      && s.process.memory.missing !! s.audit.listed
      && (InEntry(s.process.pc) ==> s.process.memory.missing == {})
  }

  lemma ReadsStayApart(s: Sys, a: Act)
    requires ReadsApart(s) && Enabled(s, a)
    ensures ReadsApart(Next(s, a))
  {
    hide LocallyOpenTrades, RestoredPositions, RestoredExits, Known, Apply, Post, Receive, Begin, Reject, RecordFunding;
  }

  lemma {:induction false} RunKeepsReadsApart(s: Sys, script: seq<Act>, end: Sys)
    requires ReadsApart(s) && Follows(s, script, end)
    ensures ReadsApart(end)
    decreases |script|
  {
    hide ReadsApart, Enabled, Next;
    if script != [] {
      ReadsStayApart(s, script[0]);
      RunKeepsReadsApart(Next(s, script[0]), script[1..], end);
    }
  }

  lemma ReachableReadsApart(s: Sys)
    requires Reachable(s)
    ensures ReadsApart(s)
  {
    hide Follows;
    var script :| Follows(Initial, script, s);
    RunKeepsReadsApart(Initial, script, s);
  }

  /**
   A close that may already have been sent is sent again exactly when the venue can be read
   and the latest reconciliation read listed its trade, or it was opened after that read.
   */
  lemma CloseRepeatsExactly(s: Sys, slot: Slot)
    requires Reachable(s) && At(s, Idle) && slot in s.process.memory.positions
    requires CloseKey(s.process.memory.positions[slot].trade) in s.ledger.commands
    ensures Enabled(s, BeginClose(slot)) <==>
            !s.process.memory.unavailable && s.process.memory.positions[slot].trade in s.audit.listed
  {
    hide Reachable, Stored;
    ReachableInv(s);
    ReachableReadsApart(s);
    BeginnableClose(s, slot);
  }

  /**
   The claim that the newest inventory read lists a trade whose close is sent again fails in
   exactly these states: the reconciliation read listed the trade, or it was opened since, and
   the newest read, an entry's or one before the trade, does not.
   */
  lemma NewestReadClaimFailsExactly(s: Sys, slot: Slot)
    requires Reachable(s) && At(s, Idle) && slot in s.process.memory.positions
    requires CloseKey(s.process.memory.positions[slot].trade) in s.ledger.commands
    ensures var t := s.process.memory.positions[slot].trade;
            !(Enabled(s, BeginClose(slot)) ==> t in s.audit.lastRead) <==>
            !s.process.memory.unavailable && t in s.audit.listed && t !in s.audit.lastRead
  {
    hide Reachable, Enabled;
    CloseRepeatsExactly(s, slot);
  }

  lemma {:induction false} FollowsOneMore(s: Sys, script: seq<Act>, mid: Sys, a: Act)
    requires Follows(s, script, mid) && Enabled(mid, a)
    ensures Follows(s, script + [a], Next(mid, a))
    decreases |script|
  {
    hide Enabled, Next;
    if script == [] {
      assert (script + [a])[1..] == [];
    } else {
      assert (script + [a])[1..] == script[1..] + [a];
      FollowsOneMore(Next(s, script[0]), script[1..], mid, a);
    }
  }

  lemma OneMore(s: Sys, a: Act)
    requires Reachable(s) && Enabled(s, a)
    ensures Reachable(Next(s, a))
  {
    hide Enabled, Next;
    var script :| Follows(Initial, script, s);
    FollowsOneMore(Initial, script, s, a);
  }

  /** A pending exit only ever closes a trade whose close was already decided. */
  lemma RetryClosesTheDecidedTrade(s: Sys, slot: Slot)
    requires Reachable(s) && s.process.Up? && slot in s.process.memory.pendingExits
    ensures slot in s.process.memory.positions
    ensures CloseKey(s.process.memory.positions[slot].trade) in s.ledger.commands
  {
    ReachableInv(s);
  }

  // ---- an entry whose outcome is unknown ----

  predicate Concerns(s: Sys, e: EntryId) {
    s.process.Up? && match s.process.pc
      case EntryPost(f, _) => f == e
      case EntryReply(f) => f == e
      case EntryRefused(f) => f == e
      case EntryOpened(f, _) => f == e
      case EntrySaved(f) => f == e
      case _ => false
  }

  predicate Stuck(s: Sys, e: EntryId) {
    Is(s.ledger, EntryKey(e), Submitted) && !Concerns(s, e)
  }

  lemma StuckStays(s: Sys, a: Act, e: EntryId)
    requires Inv(s) && Stuck(s, e) && Enabled(s, a)
    ensures Stuck(Next(s, a), e)
  {
    hide Inv;
  }

  lemma StuckBlocks(s: Sys, e: EntryId, f: EntryId, long: bool)
    requires Inv(s) && Stuck(s, e)
    ensures !Enabled(s, BeginEntry(f, long))
  {
    hide Sound, ClosesOk, RowsOk, SlotsOk, MemoryOk, PostedOk, EntryResultsOk, EntryUnresolved;
    PendingIsUnresolved(s.ledger, e);
  }

  /** Once its reply is lost, an entry stays unresolved on every continuation, and no entry is begun beside it. */
  lemma {:induction false} LostEntryBlocksForever(s: Sys, e: EntryId, script: seq<Act>, end: Sys, f: EntryId,
      long: bool)
    requires Reachable(s) && Stuck(s, e) && Follows(s, script, end)
    ensures Stuck(end, e) && !Enabled(end, BeginEntry(f, long))
  {
    hide Reachable, Follows, Inv, Stuck, Enabled;
    ReachableInv(s);
    StuckRun(s, e, script, end);
    StuckBlocks(end, e, f, long);
  }

  lemma {:induction false} StuckRun(s: Sys, e: EntryId, script: seq<Act>, end: Sys)
    requires Inv(s) && Stuck(s, e) && Follows(s, script, end)
    ensures Inv(end) && Stuck(end, e)
    decreases |script|
  {
    hide Inv, Stuck, Enabled, Next;
    if script != [] {
      ProcessStepKeeps(s, script[0]);
      StuckStays(s, script[0], e);
      StuckRun(Next(s, script[0]), e, script[1..], end);
    }
  }

  // ---- a reading that does not refresh the missing trades ----

  lemma InitialIsReachable()
    ensures Reachable(Initial)
  {
    assert Follows(Initial, [], Initial);
  }

  lemma Started() returns (s: Sys)
    ensures Reachable(s) && s == Initial.(process := Up(Memory(map[], {}, {}, {}, false), Idle))
  {
    InitialIsReachable();
    hide Reachable;
    OneMore(Initial, Start);
    var starting := Next(Initial, Start);
    assert LocallyOpenTrades(starting.ledger.orders) == {};
    assert !Ambiguous(starting.ledger);
    OneMore(starting, Restore);
    s := Next(starting, Restore);
    assert RestoredPositions(starting.venue, starting.ledger) == map[];
    assert RestoredExits(starting.venue, starting.ledger, map[]) == {};
    assert s.process.memory.missing == {} && s.process.memory.unknown == {};
  }

  lemma EntrySaves(e: EntryId, r: Report) returns (s: Sys)
    ensures Reachable(s) && s.process == Up(Memory(map[], {}, {}, {}, false), EntrySaved(e))
    ensures s.venue == Venue(map["t" := Trade(true, 1)], {"t"}, {}, {}, map[], map["t" := e])
    ensures s.ledger.commands.Keys == {EntryKey(e)} && Is(s.ledger, EntryKey(e), Received)
    ensures s.ledger.commands[EntryKey(e)].result == Some(OpenResult(e, "t", Trade(true, 1), r))
  {
    hide Reachable;
    var s0 := Started();
    OneMore(s0, BeginEntry(e, true));
    var s1 := Next(s0, BeginEntry(e, true));
    OneMore(s1, PostEntry);
    var s2 := Next(s1, PostEntry);
    OneMore(s2, Outside(Opens(e, "t", 1)));
    var s3 := Next(s2, Outside(Opens(e, "t", 1)));
    OneMore(s3, EntryAccepted("t", r));
    var s4 := Next(s3, EntryAccepted("t", r));
    OneMore(s4, SaveEntry);
    s := Next(s4, SaveEntry);
  }

  /** The close was sent, the venue closed the trade and the reply was lost. */
  lemma CloseBegins(e: EntryId, r: Report) returns (s: Sys)
    ensures Reachable(s) && s.venue == Venue(map["t" := Trade(true, 1)], {"t"}, {}, {}, map[], map["t" := e])
    ensures CloseKey("t") in s.ledger.commands
    ensures s.process == Up(Memory(map[e.slot := Pos("t", true, 1)], {}, {}, {}, false), ClosePost(e.slot, "t"))
  {
    var s0 := EntrySaves(e, r);
    hide Reachable, Begin;
    OneMore(s0, ApplyEntry);
    var s1 := Next(s0, ApplyEntry);
    OneMore(s1, BeginClose(e.slot));
    s := Next(s1, BeginClose(e.slot));
    BeginAdds(s1.ledger, CloseKey("t"), Close, e.slot);
  }

  lemma CloseReplyLost(e: EntryId, r: Report) returns (s: Sys)
    ensures Reachable(s) && s.venue.running == {} && s.venue.resting == {} && HasClosed(s.venue, "t")
    ensures CloseKey("t") in s.ledger.commands && At(s, Idle)
    ensures s.process.memory.positions == map[e.slot := Pos("t", true, 1)] && s.process.memory.missing == {}
  {
    var s0 := CloseBegins(e, r);
    hide Reachable, Begin;
    OneMore(s0, PostClose);
    var s1 := Next(s0, PostClose);
    OneMore(s1, Outside(Closes("t")));
    var s2 := Next(s1, Outside(Closes("t")));
    OneMore(s2, CloseFails);
    s := Next(s2, CloseFails);
  }

  /**
   The latest inventory read need not list the trade when a close is repeated: the
   read an entry makes updates the unknown trades but not the missing ones, so a
   close whose reply was lost is sent again for a trade that this read shows gone.
   */
  lemma RepeatedCloseDespiteLatestRead(e: EntryId, r: Report) returns (s: Sys)
    ensures Reachable(s) && Enabled(s, BeginClose(e.slot))
    ensures var t := s.process.memory.positions[e.slot].trade;
      CloseKey(t) in s.ledger.commands && t !in s.audit.lastRead && HasClosed(s.venue, t)
  {
    var lost := CloseReplyLost(e, r);
    hide Reachable;
    OneMore(lost, EntryRead);
    s := Next(lost, EntryRead);
  }

  lemma BeginAdds(l: Ledger, key: CommandKey, action: Action, slot: Slot)
    ensures key in Begin(l, key, action, slot).commands
  {
  }
}
