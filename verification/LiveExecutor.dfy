/**
 The executor that opens and closes isolated trades, as the source writes it, and
 the venue it calls.

 Every method is proved to take only steps of the protocol, in the order in which
 it writes, so stopping it anywhere leaves a state the protocol's guarantees cover.
 */
module LiveExecutor {
  import opened Common
  import opened Ledger
  import opened LedgerProperties
  import opened Protocol
  import opened ProtocolProperties
  import opened ProtocolRuns
  import opened ProtocolGuarantees

  // ---- runs ----

  ghost predicate Reaches(s: Sys, s1: Sys) {
    exists script :: Follows(s, script, s1)
  }

  ghost predicate Moves(v: Venue, moves: seq<Move>, v1: Venue)
    decreases |moves|
  {
    if moves == [] then v == v1 else CanMove(v, moves[0]) && Moves(Moved(v, moves[0]), moves[1..], v1)
  }

  ghost predicate Drifts(v: Venue, v1: Venue) {
    exists moves :: Moves(v, moves, v1)
  }

  lemma Stay(s: Sys)
    ensures Reaches(s, s)
  {
    assert Follows(s, [], s);
  }

  lemma Take(s: Sys, mid: Sys, a: Act)
    requires Reaches(s, mid) && Enabled(mid, a)
    ensures Reaches(s, Next(mid, a))
  {
    hide Enabled, Next;
    var script :| Follows(s, script, mid);
    FollowsOneMore(s, script, mid, a);
  }

  lemma {:induction false} TakeMoves(s: Sys, mid: Sys, moves: seq<Move>, v1: Venue)
    requires Reaches(s, mid) && Moves(mid.venue, moves, v1)
    ensures Reaches(s, mid.(venue := v1))
    decreases |moves|
  {
    hide Reaches;
    if moves != [] {
      Take(s, mid, Outside(moves[0]));
      TakeMoves(s, Next(mid, Outside(moves[0])), moves[1..], v1);
    }
  }

  lemma TakeDrift(s: Sys, mid: Sys, v1: Venue)
    requires Reaches(s, mid) && Drifts(mid.venue, v1)
    ensures Reaches(s, mid.(venue := v1))
  {
    var moves :| Moves(mid.venue, moves, v1);
    TakeMoves(s, mid, moves, v1);
  }

  lemma {:induction false} FollowsAppend(s: Sys, a: seq<Act>, mid: Sys, b: seq<Act>, end: Sys)
    requires Follows(s, a, mid) && Follows(mid, b, end)
    ensures Follows(s, a + b, end)
    decreases |a|
  {
    hide Enabled, Next;
    if a == [] {
      assert a + b == b;
    } else {
      assert (a + b)[1..] == a[1..] + b;
      FollowsAppend(Next(s, a[0]), a[1..], mid, b, end);
    }
  }

  lemma ReachesOn(s: Sys, mid: Sys, end: Sys)
    requires Reaches(s, mid) && Reaches(mid, end)
    ensures Reaches(s, end)
  {
    hide Enabled, Next;
    var a :| Follows(s, a, mid);
    var b :| Follows(mid, b, end);
    FollowsAppend(s, a, mid, b, end);
  }

  lemma ReachesReachable(s: Sys, s1: Sys)
    requires Reachable(s) && Reaches(s, s1)
    ensures Reachable(s1) && Inv(s1)
  {
    hide Inv;
    var a :| Follows(Initial, a, s);
    var b :| Follows(s, b, s1);
    FollowsAppend(Initial, a, s, b, s1);
    ReachableInv(s1);
  }

  lemma {:induction false} MovesOneMore(v: Venue, moves: seq<Move>, mid: Venue, move: Move)
    requires Moves(v, moves, mid) && CanMove(mid, move)
    ensures Moves(v, moves + [move], Moved(mid, move))
    decreases |moves|
  {
    if moves == [] {
      assert (moves + [move])[1..] == [];
    } else {
      assert (moves + [move])[1..] == moves[1..] + [move];
      MovesOneMore(Moved(v, moves[0]), moves[1..], mid, move);
    }
  }

  lemma PendingHasPosition(s: Sys, slot: Slot)
    requires Inv(s) && s.process.Up? && slot in s.process.memory.pendingExits
    ensures slot in s.process.memory.positions
  {
    hide Stored;
  }

  lemma AppliedKept(s: Sys, a: Act, key: CommandKey)
    requires Inv(s) && Enabled(s, a) && IsApplied(s.ledger, key)
    ensures IsApplied(Next(s, a).ledger, key)
  {
    hide Stored, Mirrors, OnlySaved, ExitsOk, ReadsOk, RestoredMemory, OpenFits, Fits;
  }

  lemma {:induction false} AppliedAlong(s: Sys, script: seq<Act>, end: Sys, key: CommandKey)
    requires Inv(s) && Follows(s, script, end) && IsApplied(s.ledger, key)
    ensures IsApplied(end.ledger, key)
    decreases |script|
  {
    hide Inv, Enabled, Next, IsApplied;
    if script != [] {
      AppliedKept(s, script[0], key);
      ProcessStepKeeps(s, script[0]);
      AppliedAlong(Next(s, script[0]), script[1..], end, key);
    }
  }

  /** What is in the books stays there. */
  lemma AppliedStays(s: Sys, end: Sys)
    requires Inv(s) && Reaches(s, end)
    ensures forall key :: IsApplied(s.ledger, key) ==> IsApplied(end.ledger, key)
  {
    hide Inv, IsApplied;
    var script :| Follows(s, script, end);
    forall key | IsApplied(s.ledger, key) ensures IsApplied(end.ledger, key) {
      AppliedAlong(s, script, end, key);
    }
  }

  // ---- the venue's API ----

  datatype CloseAnswer = CloseOk(report: Report) | CloseFailed

  datatype OpenAnswer = OpenOk(trade: TradeId, terms: Trade, report: Report) | DefinitiveRejection | NoAnswer

  /** Any number of moves may happen before an answer; an answer that arrives is truthful. */
  class VenueApi {
    var state: Venue
    // How often each list was asked for, and the closures the latest history answer told.
    ghost var inventoryReads: nat
    ghost var historyReads: nat
    ghost var told: set<TradeId>

    constructor (v: Venue)
      ensures state == v
    {
      state, inventoryReads, historyReads, told := v, 0, 0, {};
    }

    method Drift()
      modifies `state
      ensures Drifts(old(state), state)
    {
      var n: nat := *;
      ghost var moves: seq<Move> := [];
      assert Moves(state, [], state);
      while n > 0
        invariant Moves(old(state), moves, state)
      {
        var move: Move := *;
        if CanMove(state, move) {
          MovesOneMore(old(state), moves, state, move);
          state, moves := Moved(state, move), moves + [move];
        }
        n := n - 1;
      }
    }

    /** The running trades with their terms, or nothing when the read fails. */
    method GetRunningTrades() returns (r: Option<map<TradeId, Trade>>)
      modifies this
      ensures Drifts(old(state), state)
      ensures inventoryReads == old(inventoryReads) + 1 && historyReads == old(historyReads) && told == {}
      ensures r.Some? ==> r.value == map t | t in state.running && t in state.trades :: state.trades[t]
    {
      Drift();
      inventoryReads, told := inventoryReads + 1, {};
      var answered: bool := *;
      return if answered then Some(map t | t in state.running && t in state.trades :: state.trades[t]) else None;
    }

    /** Running trades and unfilled orders. */
    method GetInventory() returns (r: Option<set<TradeId>>)
      modifies `state
      ensures Drifts(old(state), state)
      ensures r.Some? ==> r.value == state.running + state.resting
    {
      Drift();
      var answered: bool := *;
      return if answered then Some(state.running + state.resting) else None;
    }

    /** What the closed-trade history says of some of the trades it already lists. */
    method GetClosedTrades() returns (r: Option<map<TradeId, Report>>)
      modifies this
      ensures Drifts(old(state), state)
      ensures r.Some? ==> r.value.Keys <= state.history
      ensures inventoryReads == old(inventoryReads) && historyReads == old(historyReads) + 1
      ensures told == if r.Some? then r.value.Keys else {}
    {
      Drift();
      var answered: bool, reports: map<TradeId, Report> := *, *;
      r := if answered then Some(map t | t in reports && t in state.history :: reports[t]) else None;
      historyReads, told := historyReads + 1, if r.Some? then r.value.Keys else {};
    }

    method CloseTrade(t: TradeId) returns (r: CloseAnswer)
      modifies `state
      ensures Drifts(old(state), state)
      ensures r.CloseOk? ==> HasClosed(state, t)
    {
      Drift();
      var answered: bool, report: Report := *, *;
      return if answered && HasClosed(state, t) then CloseOk(report) else CloseFailed;
    }

    method NewTrade(entry: EntryId, long: bool) returns (r: OpenAnswer)
      modifies `state
      ensures var posted := old(state).(inflight := old(state).inflight[entry := long]);
        if r.DefinitiveRejection? then
          exists v1 :: Drifts(posted, v1) && entry !in v1.bot.Values && state == v1.(inflight := v1.inflight - {entry})
        else Drifts(posted, state)
      ensures r.OpenOk? ==> r.trade in state.bot && state.bot[r.trade] == entry
                            && r.trade in state.trades && r.terms == state.trades[r.trade] && r.terms.long == long
    {
      state := state.(inflight := state.inflight[entry := long]);
      Drift();
      var t: TradeId, report: Report, rejected: bool, answered: bool := *, *, *, *;
      if rejected && entry !in state.bot.Values {
        state := state.(inflight := state.inflight - {entry});
        return DefinitiveRejection;
      }
      if answered && t in state.bot && state.bot[t] == entry && t in state.trades && state.trades[t].long == long {
        return OpenOk(t, state.trades[t], report);
      }
      return NoAnswer;
    }

    method FundingFees() returns (rows: seq<FundingRow>)
      modifies `state
      ensures Drifts(old(state), state)
    {
      Drift();
      rows := *;
    }
  }

  // ---- the executor ----

  datatype Outcome = Done(order: nat) | Noop(reason: string) | Fatal(message: string)

  datatype Kind = EntryKind | ExitKind | NoopKind

  /** What a strategy asks for; the last two fields are read from its metadata. */
  datatype Intent = Intent(
    entry: EntryId, kind: Kind, long: Option<bool>, sizeUsd: real, closeTrade: Option<TradeId>,
        intendedEntryTs: Option<int>)

  /** What the engine reports after an external closure is in the books. */
  function Undeliveries(l: Ledger): set<CommandKey> {
    set key | key in l.commands && Undelivered(l, key)
  }

  // The steps each method takes, and the facts it needs at each of them.

  lemma BeginCloseTaken(s0: Sys, slot: Slot)
    requires Reachable(s0) && At(s0, Idle) && slot in s0.process.memory.positions
    requires !CloseUnresolved(s0.process.memory, s0.ledger, s0.process.memory.positions[slot].trade)
    ensures var m := s0.process.memory;
      var t := m.positions[slot].trade;
      Reaches(s0, s0.(ledger := Begin(s0.ledger, CloseKey(t), Close, slot), process := Up(m, CloseReply(slot, t))))
  {
    hide Reachable, Reaches, Begin;
    Stay(s0);
    Take(s0, s0, BeginClose(slot));
    Take(s0, Next(s0, BeginClose(slot)), PostClose);
  }

  lemma BeginRecords(l: Ledger, key: CommandKey, action: Action, slot: Slot)
    ensures key in Begin(l, key, action, slot).commands
  {
  }

  lemma CloseFailureTaken(s0: Sys, s: Sys)
    requires Reaches(s0, s) && s.process.Up? && s.process.pc.CloseReply?
    ensures var m := s.process.memory;
      Reaches(s0, s.(process := Up(m.(pendingExits := m.pendingExits + {s.process.pc.slot}), Idle)))
  {
    hide Reaches;
    Take(s0, s, CloseFails);
  }

  lemma InventoryFailureTaken(s0: Sys, s: Sys)
    requires Reaches(s0, s) && At(s, Idle)
    ensures Reaches(s0, s.(process := Up(s.process.memory.(unavailable := true), Idle)))
  {
    hide Reaches;
    Take(s0, s, InventoryFails);
  }

  lemma EntryReadTaken(s0: Sys, s: Sys)
    requires Reaches(s0, s) && At(s, Idle)
    ensures var m := s.process.memory;
      var listed := s.venue.running + s.venue.resting;
      Reaches(s0, s.(process := Up(m.(unknown := listed - Known(m), unavailable := false), Idle),
                     audit := s.audit.(lastRead := listed)))
  {
    hide Reaches, Known;
    Take(s0, s, EntryRead);
  }

  lemma BeginEntryTaken(s0: Sys, s: Sys, entry: EntryId, long: bool)
    requires Reaches(s0, s) && At(s, Idle) && entry.slot !in s.process.memory.positions
    requires Admits(s.process.memory, s.ledger) && EntryKey(entry) !in s.ledger.commands
    ensures Reaches(s0, s.(ledger := Begin(s.ledger, EntryKey(entry), Entry, entry.slot),
                           process := Up(s.process.memory, EntryPost(entry, long))))
  {
    hide Reaches, Admits, Begin;
    Take(s0, s, BeginEntry(entry, long));
  }

  lemma RejectionTaken(s0: Sys, s: Sys, v1: Venue)
    requires Reaches(s0, s) && s.process.Up? && s.process.pc.EntryReply?
    requires Drifts(s.venue, v1) && s.process.pc.entry !in v1.bot.Values
    ensures var e := s.process.pc.entry;
      Reaches(s0, s.(venue := v1.(inflight := v1.inflight - {e}), ledger := Reject(s.ledger, EntryKey(e)),
                     process := Up(s.process.memory, Idle)))
  {
    hide Reaches, Drifts, Reject;
    TakeDrift(s0, s, v1);
    var s1 := s.(venue := v1);
    Take(s0, s1, EntryRejected);
    Take(s0, Next(s1, EntryRejected), RecordRejection);
  }

  lemma LossTaken(s0: Sys, s: Sys, v1: Venue)
    requires Reaches(s0, s) && s.process.Up? && s.process.pc.EntryReply? && Drifts(s.venue, v1)
    ensures Reaches(s0, s.(venue := v1, process := Up(s.process.memory, Idle)))
  {
    hide Reaches, Drifts;
    TakeDrift(s0, s, v1);
    Take(s0, s.(venue := v1), EntryLost);
  }

  lemma AcceptanceTaken(s0: Sys, s: Sys, v1: Venue, t: TradeId, report: Report)
    requires Reaches(s0, s) && s.process.Up? && s.process.pc.EntryReply? && Drifts(s.venue, v1)
    requires t in v1.bot && v1.bot[t] == s.process.pc.entry && t in v1.trades
    ensures var e := s.process.pc.entry;
      Reaches(s0, s.(venue := v1,
          process := Up(s.process.memory, EntryOpened(e, OpenResult(e, t, v1.trades[t], report)))))
  {
    hide Reaches, Drifts, OpenResult;
    TakeDrift(s0, s, v1);
    Take(s0, s.(venue := v1), EntryAccepted(t, report));
  }

  lemma PostEntryTaken(s0: Sys, s: Sys)
    requires Reaches(s0, s) && s.process.Up? && s.process.pc.EntryPost?
    ensures var e := s.process.pc.entry;
      Reaches(s0, s.(venue := s.venue.(inflight := s.venue.inflight[e := s.process.pc.long]),
                     process := Up(s.process.memory, EntryReply(e)),
                     audit := s.audit.(posts := s.audit.posts + multiset{e})))
  {
    hide Reaches;
    Take(s0, s, PostEntry);
  }

  lemma SavedEntryResult(s: Sys)
    requires Inv(s) && s.process.Up? && s.process.pc.EntryOpened?
    ensures var s1 := Next(s, SaveEntry); var e := EntryKey(s.process.pc.entry);
      e in s1.ledger.commands && s1.ledger.commands[e].result == Some(s.process.pc.x)
  {
    hide Stored;
  }

  /** The two writes that record an accepted close or entry. */
  lemma CloseRecorded(s0: Sys, s: Sys)
    requires Reachable(s0) && Reaches(s0, s) && s.process.Up? && s.process.pc.CloseCleared?
    ensures var key := CloseKey(s.process.pc.trade); var l1 := Receive(s.ledger, key, s.process.pc.x);
      && Appliable(l1, key) && !IsApplied(l1, key)
      && Reaches(s0, s.(ledger := Post(l1, key), process := Up(s.process.memory, Idle)))
  {
    hide Reaches, Reachable, Inv, Post;
    Take(s0, s, SaveClose);
    var s1 := Next(s, SaveClose);
    ReachesReachable(s0, s1);
    ApplyCloseReady(s1);
    Take(s0, s1, ApplyClose);
  }

  lemma EntryRecorded(s0: Sys, s: Sys)
    requires Reachable(s0) && Reaches(s0, s) && s.process.Up? && s.process.pc.EntryOpened?
    ensures var key, x, m := EntryKey(s.process.pc.entry), s.process.pc.x, s.process.memory;
      var l1 := Receive(s.ledger, key, x);
      && Appliable(l1, key) && !IsApplied(l1, key)
      && Reaches(s0, s.(ledger := Post(l1, key),
                        process := Up(m.(positions := m.positions[x.order.slot := Pos(x.order.trade, x.order.long,
                            x.order.quantity)]), Idle),
                        audit := s.audit.(listed := s.audit.listed + {x.order.trade})))
  {
    hide Reaches, Reachable, Inv, Post;
    ReachesReachable(s0, s);
    SavedEntryResult(s);
    Take(s0, s, SaveEntry);
    var s1 := Next(s, SaveEntry);
    ReachesReachable(s0, s1);
    ApplyEntryReady(s1);
    Take(s0, s1, ApplyEntry);
  }

  lemma ApplyCloseReady(s: Sys)
    requires Inv(s) && s.process.Up? && (s.process.pc.CloseSaved? || s.process.pc.ExternalSaved?)
    ensures Appliable(s.ledger, CloseKey(s.process.pc.trade)) && !IsApplied(s.ledger, CloseKey(s.process.pc.trade))
  {
    PostCloseKeeps(s.venue, s.ledger, s.audit.posts, s.process.pc.trade);
  }

  lemma ApplyEntryReady(s: Sys)
    requires Inv(s) && s.process.Up? && s.process.pc.EntrySaved?
    ensures Appliable(s.ledger, EntryKey(s.process.pc.entry)) && !IsApplied(s.ledger, EntryKey(s.process.pc.entry))
  {
    PostEntryKeeps(s.venue, s.ledger, s.audit.posts, s.process.pc.entry);
  }

  lemma RestoreTaken(s0: Sys, s: Sys)
    requires Reachable(s0) && Reaches(s0, s) && s.process.Starting? && ReceivedKeys(s.ledger) == {}
    ensures !Ambiguous(s.ledger)
    ensures (map t | t in s.venue.running && t in s.venue.trades :: s.venue.trades[t]).Keys == s.venue.running
    ensures Known(RestoredMemory(s.venue, s.ledger)) == LocallyOpenTrades(s.ledger.orders)
    ensures Reaches(s0, s.(process := Up(RestoredMemory(s.venue, s.ledger), Idle),
                           audit := s.audit.(listed := s.venue.running, lastRead := s.venue.running)))
  {
    hide Reachable, Reaches, Ambiguous, LocallyOpenTrades, Known, RestoredMemory;
    ReachesReachable(s0, s);
    NothingReceived(s.ledger);
    StoredIsUnambiguous(s);
    RunningIsComplete(s);
    hide Inv, ReceivedKeys;
    Take(s0, s, Restore);
    ReachesReachable(s0, Next(s, Restore));
    MirroredIsKnown(Next(s, Restore));
  }

  lemma NothingReceived(l: Ledger)
    requires ReceivedKeys(l) == {}
    ensures forall key :: key in l.commands ==> l.commands[key].status != Received
  {
    forall key | key in l.commands ensures l.commands[key].status != Received {
      assert key !in ReceivedKeys(l);
    }
  }

  /** One position per open trade, with the venue's terms where it still runs. */
  method RestorePositions(open: map<TradeId, Order>, running: map<TradeId, Trade>, ghost v: Venue, ghost l: Ledger)
    returns (restored: map<Slot, Pos>)
    requires !Ambiguous(l) && open.Keys == LocallyOpenTrades(l.orders)
    requires forall t :: t in open ==> Latest(l.orders, t) == Some(open[t])
    requires running == map t | t in v.running && t in v.trades :: v.trades[t]
    ensures restored == RestoredPositions(v, l)
  {
    hide Latest, LocallyOpenTrades, LocallyOpen, RestoredPositions, RestoredPos;
    restored := map[];
    OpenTradesAreOpen(l);
    var todo := open.Keys;
    while todo != {}
      invariant todo <= open.Keys
      invariant forall slot :: slot in restored ==> HeldBy(slot, open.Keys - todo, l)
      invariant forall t :: t in open && t !in todo ==> HasPosition(restored, v, l, t)
      decreases |todo|
    {
      var t :| t in todo;
      var o := open[t];
      RestoredIs(v, l, t, o);
      assert o.slot !in restored;
      ghost var before := restored;
      restored := restored[o.slot := if t in running then Pos(t, running[t].long, running[t].quantity)
                                     else Pos(t, o.long, o.quantity)];
      todo := todo - {t};
      forall slot | slot in restored ensures HeldBy(slot, open.Keys - todo, l) {
        assert slot == o.slot || HeldBy(slot, open.Keys - (todo + {t}), l);
      }
    }
    assert open.Keys - todo == open.Keys;
    RestoredAre(restored, v, l);
  }

  ghost predicate HeldBy(slot: Slot, trades: set<TradeId>, l: Ledger) {
    exists t :: t in trades && LocallyOpen(l.orders, t) && SlotOf(l, t) == slot
  }

  lemma OpenTradesAreOpen(l: Ledger)
    ensures forall t :: t in LocallyOpenTrades(l.orders) ==> LocallyOpen(l.orders, t)
  {
    forall t | t in LocallyOpenTrades(l.orders) ensures LocallyOpen(l.orders, t) {
      OpenTradesAreListed(l, t);
    }
  }

  lemma RestoredIs(v: Venue, l: Ledger, t: TradeId, o: Order)
    requires LocallyOpen(l.orders, t) && Latest(l.orders, t) == Some(o)
    ensures SlotOf(l, t) == o.slot
    ensures RestoredPos(v, l, t) ==
            if t in v.running && t in v.trades then Pos(t, v.trades[t].long, v.trades[t].quantity)
            else Pos(t, o.long, o.quantity)
  {
    hide Latest;
  }

  lemma RestoredAre(restored: map<Slot, Pos>, v: Venue, l: Ledger)
    requires !Ambiguous(l)
    requires forall t :: t in LocallyOpenTrades(l.orders) ==> LocallyOpen(l.orders, t) && HasPosition(restored, v, l, t)
    requires forall slot :: slot in restored ==> HeldBy(slot, LocallyOpenTrades(l.orders), l)
    ensures restored == RestoredPositions(v, l)
  {
    hide Latest, LocallyOpenTrades, LocallyOpen, RestoredPos;
    var all := RestoredPositions(v, l);
    forall slot | slot in all ensures slot in restored && restored[slot] == all[slot] {
      var t :| t in LocallyOpenTrades(l.orders) && SlotOf(l, t) == slot && all[slot] == RestoredPos(v, l, t);
      assert HasPosition(restored, v, l, t);
    }
    assert restored.Keys == all.Keys;
  }

  predicate HasPosition(restored: map<Slot, Pos>, v: Venue, l: Ledger, t: TradeId)
    requires LocallyOpen(l.orders, t)
  {
    SlotOf(l, t) in restored && restored[SlotOf(l, t)] == RestoredPos(v, l, t)
  }

  class LiveExecutor {
    const recorder: Recorder
    const api: VenueApi
    var positions: map<Slot, Pos>
    var pendingExits: set<Slot>
    var missingRemote: set<TradeId>
    var unknownRemote: set<TradeId>
    var inventoryUnavailable: bool
    var admissionsEnabled: bool
    var unboundOwners: set<Slot>
    var unhealthyOwners: set<string>
    var maxEntryAge: Option<int>
    ghost var started: bool
    ghost var audit: Audit

    /** The protocol state this object stands for between two calls. */
    ghost function State(): Sys
      reads this, recorder, api
    {
      Sys(api.state, recorder.State(),
          if started then Up(Memory(), Idle)
          else Starting,
          audit)
    }

    ghost predicate Ready()
      reads this, recorder, api
    {
      started && Reachable(State())
    }

    constructor (recorder: Recorder, api: VenueApi, admissionsEnabled: bool, maxEntryAge: Option<int>,
        ghost audit: Audit)
      ensures this.recorder == recorder && this.api == api
      ensures State() == Sys(api.state, recorder.State(), Starting, audit)
    {
      this.recorder, this.api, this.admissionsEnabled, this.maxEntryAge := recorder, api, admissionsEnabled,
          maxEntryAge;
      positions, pendingExits, missingRemote, unknownRemote := map[], {}, {}, {};
      inventoryUnavailable, unboundOwners, unhealthyOwners := false, {}, {};
      started, this.audit := false, audit;
    }

    method SyncFunding(runId: int, ghost s0: Sys, ghost s: Sys)
      requires Reaches(s0, s) && s.process.Up? && s.venue == api.state && s.ledger == recorder.State()
      modifies recorder, api
      ensures Reaches(s0, s.(venue := api.state, ledger := recorder.State()))
      ensures recorder.commands == old(recorder.commands) && recorder.orders == old(recorder.orders)
      ensures Drifts(old(api.state), api.state)
    {
      hide Reaches, Drifts;
      var rows := api.FundingFees();
      TakeDrift(s0, s, api.state);
      ghost var now := s.(venue := api.state);
      var i := 0;
      while i < |rows|
        invariant 0 <= i <= |rows| && Reaches(s0, now)
        invariant now == s.(venue := api.state, ledger := recorder.State())
        invariant recorder.commands == old(recorder.commands) && recorder.orders == old(recorder.orders)
        invariant Drifts(old(api.state), api.state)
      {
        var owner := OwnerOf(recorder.orders, rows[i].trade);
        if owner.Some? {
          Take(s0, now, Fund(runId, owner.value, rows[i]));
          now := Next(now, Fund(runId, owner.value, rows[i]));
          recorder.SyncFundingRow(runId, owner.value, rows[i]);
        }
        i := i + 1;
      }
    }

    /** Close the trade of a slot, unless an earlier attempt may still succeed unseen. */
    method DoExit(slot: Slot, closeTrade: Option<TradeId>, runId: int) returns (r: Outcome)
      requires Ready()
      modifies this, recorder, api
      ensures started && Reaches(old(State()), State())
      ensures r.Done? ==> slot in old(positions) && positions == old(positions) - {slot} && slot !in pendingExits
                          && IsApplied(recorder.State(), CloseKey(old(positions)[slot].trade))
      ensures !r.Done? ==> positions == old(positions)
      ensures r.Fatal? ==> State() == old(State())
      ensures slot !in old(positions) ==> r == Noop("no_position") && State() == old(State())
      ensures pendingExits == if r.Done? then old(pendingExits) - {slot}
                              else if r == Noop("close_failed") then old(pendingExits) + {slot} else old(pendingExits)
      ensures r == Noop("close_failed") ==> CloseKey(old(positions)[slot].trade) in recorder.commands
      ensures audit == old(audit)
    {
      hide Reaches, Reachable, Drifts, Inv, Enabled, Next, Begin;
      ghost var s0 := State();
      Stay(s0);
      if slot !in positions {
        return Noop("no_position");
      }
      var p := positions[slot];
      if closeTrade.Some? && closeTrade.value != p.trade {
        return Fatal("close obligation belongs to a different owned trade");
      }
      var key := CloseKey(p.trade);
      if (inventoryUnavailable || p.trade in missingRemote)
         && key in recorder.commands && recorder.commands[key].status == Submitted {
        return Noop("close_outcome_unresolved");
      }
      BeginCloseTaken(s0, slot);
      var inserted := recorder.BeginCommand(key, Close, slot);
      ghost var s := s0.(ledger := recorder.State(), process := Up(s0.process.memory, CloseReply(slot, p.trade)));
      var answer := api.CloseTrade(p.trade);
      TakeDrift(s0, s, api.state);
      s := s.(venue := api.state);
      if answer.CloseFailed? {
        CloseFailureTaken(s0, s);
        pendingExits := pendingExits + {slot};
        BeginRecords(s0.ledger, key, Close, slot);
        return Noop("close_failed");
      }
      SyncFunding(runId, s0, s);
      DriftKeepsClosed(s.venue, api.state, p.trade);
      s := s.(venue := api.state, ledger := recorder.State());
      r := RecordClose(slot, p, answer.report, s0, s);
    }

    /** After the venue accepted a close: clear memory first, then write the rows. */
    method RecordClose(slot: Slot, p: Pos, report: Report, ghost s0: Sys, ghost s: Sys) returns (r: Outcome)
      requires started && Reachable(s0) && Reaches(s0, s) && slot in positions && positions[slot] == p
      requires s == State().(process := Up(State().process.memory, CloseReply(slot, p.trade)))
      requires HasClosed(s.venue, p.trade)
      modifies `positions, `pendingExits, recorder
      ensures Reaches(s0, State()) && r.Done?
      ensures positions == old(positions) - {slot} && pendingExits == old(pendingExits) - {slot}
      ensures IsApplied(recorder.State(), CloseKey(p.trade))
    {
      hide Reaches, Reachable, Inv;
      Take(s0, s, CloseAccepted(report));
      CloseRecorded(s0, Next(s, CloseAccepted(report)));
      positions, pendingExits := positions - {slot}, pendingExits - {slot};
      recorder.CommandResult(CloseKey(p.trade), CloseResult(slot, p, report));
      var applied := recorder.ApplyCommand(CloseKey(p.trade));
      r := Done(applied.value.order);
    }

    // ---- admission ----

    function Memory(): Memory
      reads this
    {
      Protocol.Memory(positions, pendingExits, missingRemote, unknownRemote, inventoryUnavailable)
    }

    method EntriesBlockedReason() returns (r: Option<string>)
      ensures r.None? <==> admissionsEnabled && unboundOwners == {} && Admits(Memory(), recorder.State())
    {
      if !admissionsEnabled { return Some("recovery_admissions_disabled"); }
      if unboundOwners != {} { return Some("owned_position_without_binding"); }
      if inventoryUnavailable { return Some("venue_inventory_unavailable"); }
      if missingRemote != {} { return Some("owned_trade_outcome_unresolved"); }
      if unknownRemote != {} { return Some("unowned_remote_exposure"); }
      if EntryUnresolved(recorder.State()) { return Some("entry_outcome_unresolved"); }
      return None;
    }

    /** An entry needs healthy evidence, an unblocked executor, and a fresh decision and quote. */
    method EntryAdmissionReason(intent: Intent, ts: int, now: int) returns (r: Option<string>)
      ensures r.None? <==>
        && intent.entry.slot.owner !in unhealthyOwners
        && admissionsEnabled && unboundOwners == {} && Admits(Memory(), recorder.State())
        && (maxEntryAge.Some? ==>
              var intended := if intent.intendedEntryTs.Some? then intent.intendedEntryTs.value else ts;
              -60 <= now - intended <= maxEntryAge.value && now - ts <= 90)
    {
      if intent.entry.slot.owner in unhealthyOwners { return Some("market_evidence_incomplete"); }
      r := EntriesBlockedReason();
      if r.Some? { return; }
      if maxEntryAge.Some? {
        var intended := if intent.intendedEntryTs.Some? then intent.intendedEntryTs.value else ts;
        var age := now - intended;
        if age < -60 || age > maxEntryAge.value { return Some("entry_expired"); }
        if now - ts > 90 { return Some("quote_stale"); }
      }
    }

    // ---- entering ----

    /** Enter a flat slot: read the inventory, record the intention, post, record the answer. */
    method EnterFlat(intent: Intent, runId: int, ts: int, now: int) returns (r: Outcome)
      requires Ready() && intent.long.Some? && intent.entry.slot !in positions
      modifies this, recorder, api
      ensures started && Reaches(old(State()), State())
      ensures r.Done? ==>
        && intent.entry.slot in positions && positions.Keys == old(positions).Keys + {intent.entry.slot}
        && positions[intent.entry.slot].long == intent.long.value
        && IsApplied(recorder.State(), EntryKey(intent.entry))
      ensures !r.Done? ==> positions == old(positions)
      ensures positions - {intent.entry.slot} == old(positions) - {intent.entry.slot}
      ensures audit.posts == old(audit.posts)
           || (audit.posts == old(audit.posts) + multiset{intent.entry}
               && EntryKey(intent.entry) !in old(recorder.commands))
      ensures r.Done? ==> audit.posts != old(audit.posts)
      ensures !r.Fatal? && pendingExits == old(pendingExits)
    {
      hide Reaches, Reachable, Drifts, Inv, Admits, IsApplied, Held, Recorded;
      ghost var s0 := State();
      Stay(s0);
      var entry, long := intent.entry, intent.long.value;
      var inventory := api.GetInventory();
      TakeDrift(s0, s0, api.state);
      ghost var s := s0.(venue := api.state);
      if inventory.None? {
        InventoryFailureTaken(s0, s);
        inventoryUnavailable := true;
        return Noop("venue_inventory_unavailable");
      }
      EntryReadTaken(s0, s);
      inventoryUnavailable := false;
      unknownRemote := inventory.value - Known(Memory());
      audit := audit.(lastRead := api.state.running + api.state.resting);
      s := State();
      var blocked := EntriesBlockedReason();
      if blocked.Some? {
        return Noop(blocked.value);
      }
      blocked := EntryAdmissionReason(intent, ts, now);
      if blocked.Some? {
        return Noop(blocked.value);
      }
      var inserted := recorder.BeginCommand(EntryKey(entry), Entry, entry.slot);
      if !inserted {
        return Noop("decision_already_submitted");
      }
      BeginEntryTaken(s0, s, entry, long);
      r := PostNewTrade(entry, long, s0,
                        s.(ledger := recorder.State(), process := Up(s.process.memory, EntryPost(entry, long))));
    }

    /** The entry is recorded as submitted; only a definitive rejection takes that back. */
    method PostNewTrade(entry: EntryId, long: bool, ghost s0: Sys, ghost s: Sys) returns (r: Outcome)
      requires started && Reachable(s0) && Reaches(s0, s) && entry.slot !in positions
      requires s == State().(process := Up(Memory(), EntryPost(entry, long)))
      modifies `positions, `audit, recorder, api
      ensures Reaches(s0, State()) && !r.Fatal?
      ensures r.Done? ==>
        && positions.Keys == old(positions).Keys + {entry.slot} && positions[entry.slot].long == long
        && IsApplied(recorder.State(), EntryKey(entry))
      ensures !r.Done? ==> positions == old(positions)
      ensures positions - {entry.slot} == old(positions) - {entry.slot}
      ensures audit.posts == old(audit.posts) + multiset{entry}
    {
      hide Reaches, Reachable, Drifts, Inv;
      PostEntryTaken(s0, s);
      audit := audit.(posts := audit.posts + multiset{entry});
      ghost var s1 := s.(venue := api.state.(inflight := api.state.inflight[entry := long]),
                         process := Up(Memory(), EntryReply(entry)), audit := audit);
      var answer := api.NewTrade(entry, long);
      match answer {
        case DefinitiveRejection =>
          ghost var v1 :| Drifts(s1.venue, v1) && entry !in v1.bot.Values
              && api.state == v1.(inflight := v1.inflight - {entry});
          RejectionTaken(s0, s1, v1);
          recorder.RejectCommand(EntryKey(entry));
          return Noop("entry_rejected");
        case NoAnswer =>
          LossTaken(s0, s1, api.state);
          return Noop("entry_outcome_unresolved");
        case OpenOk(t, terms, report) =>
          AcceptanceTaken(s0, s1, api.state, t, report);
          r := RecordOpen(entry, t, terms, report, s0,
                          s1.(venue := api.state,
                              process := Up(Memory(), EntryOpened(entry, OpenResult(entry, t, terms, report)))));
      }
    }

    method RecordOpen(entry: EntryId, t: TradeId, terms: Trade, report: Report, ghost s0: Sys,
        ghost s: Sys) returns (r: Outcome)
      requires started && Reachable(s0) && Reaches(s0, s) && entry.slot !in positions
      requires s == State().(process := Up(Memory(), EntryOpened(entry, OpenResult(entry, t, terms, report))))
      modifies `positions, `audit, recorder
      ensures Reaches(s0, State()) && r.Done?
      ensures positions == old(positions)[entry.slot := Pos(t, terms.long, terms.quantity)]
      ensures IsApplied(recorder.State(), EntryKey(entry)) && audit.posts == old(audit.posts)
    {
      hide Reaches, Reachable, Inv;
      var x := OpenResult(entry, t, terms, report);
      EntryRecorded(s0, s);
      recorder.CommandResult(EntryKey(entry), x);
      var applied := recorder.ApplyCommand(EntryKey(entry));
      positions := positions[entry.slot := Pos(t, terms.long, terms.quantity)];
      audit := audit.(listed := audit.listed + {t});
      r := Done(applied.value.order);
    }

    /** Enter a slot: a position on the same side is kept, one on the other side is closed first. */
    method DoEntry(intent: Intent, runId: int, ts: int, now: int) returns (r: Outcome)
      requires Ready() && intent.long.Some?
      modifies this, recorder, api
      ensures started && Reaches(old(State()), State())
      ensures r.Done? ==>
        && intent.entry.slot in positions && positions[intent.entry.slot].long == intent.long.value
        && positions.Keys == old(positions).Keys + {intent.entry.slot}
        && IsApplied(recorder.State(), EntryKey(intent.entry))
      ensures !r.Done? ==> positions == old(positions) || positions == old(positions) - {intent.entry.slot}
      ensures positions - {intent.entry.slot} == old(positions) - {intent.entry.slot}
      ensures audit.posts == old(audit.posts) || audit.posts == old(audit.posts) + multiset{intent.entry}
      ensures r.Done? ==> audit.posts != old(audit.posts)
      ensures intent.sizeUsd.Floor <= 0 ==> State() == old(State()) && r == Noop("non_positive_qty")
      ensures intent.sizeUsd.Floor > 0 && intent.entry.slot in old(positions)
              && old(positions)[intent.entry.slot].long == intent.long.value
              ==> State() == old(State()) && r == Noop("position_already_open")
    {
      hide Reaches, Reachable, Drifts, Inv;
      ghost var s0 := State();
      Stay(s0);
      var slot := intent.entry.slot;
      if intent.sizeUsd.Floor <= 0 {
        return Noop("non_positive_qty");
      }
      if slot in positions {
        if positions[slot].long == intent.long.value {
          return Noop("position_already_open");
        }
        r := DoExit(slot, intent.closeTrade, runId);
        if !r.Done? {
          return;
        }
        ReachesReachable(s0, State());
      }
      ghost var s1 := State();
      r := EnterFlat(intent, runId, ts, now);
      ReachesOn(s0, s1, State());
    }

    /** The entry point of the risk guard: nothing happens without a side or a price. */
    method Submit(intent: Intent, runId: int, ts: int, now: int, lastClose: Option<real>) returns (r: Outcome)
      requires Ready()
      modifies this, recorder, api
      ensures started && Reaches(old(State()), State())
      ensures intent.kind.NoopKind? || (intent.kind.EntryKind? && intent.long.None?) || lastClose.None?
              ==> r.Noop? && State() == old(State())
      ensures intent.kind.EntryKind? && r.Done? ==> IsApplied(recorder.State(), EntryKey(intent.entry))
      ensures intent.kind.ExitKind? && r.Done? ==> positions == old(positions) - {intent.entry.slot}
      ensures !intent.kind.EntryKind? ==> audit.posts == old(audit.posts)
      ensures positions - {intent.entry.slot} == old(positions) - {intent.entry.slot}
    {
      hide Reaches, Reachable, Inv;
      Stay(State());
      if intent.kind.NoopKind? || (intent.kind.EntryKind? && intent.long.None?) {
        return Noop("noop");
      }
      if lastClose.None? {
        return Noop("no_price");
      }
      if intent.kind.ExitKind? {
        r := DoExit(intent.entry.slot, intent.closeTrade, runId);
        return;
      }
      var blocked := EntryAdmissionReason(intent, ts, now);
      if blocked.Some? {
        return Noop(blocked.value);
      }
      r := DoEntry(intent, runId, ts, now);
    }

    /** Try the failed closes again. A pending exit always has a position, so none is dropped unattempted. */
    method RetryPendingExits(runId: int) returns (completed: set<Slot>)
      requires Ready()
      modifies this, recorder, api
      ensures started && Reaches(old(State()), State())
      ensures completed <= old(pendingExits) && positions == old(positions) - completed
      ensures forall slot :: slot in completed ==>
                slot in old(positions) && IsApplied(recorder.State(), CloseKey(old(positions)[slot].trade))
      ensures pendingExits <= old(pendingExits) - completed
    {
      hide Reaches, Reachable, Inv;
      ghost var s0 := State();
      Stay(s0);
      completed := {};
      var todo := pendingExits;
      while todo != {}
        invariant todo <= pendingExits && todo <= old(pendingExits) && completed <= old(pendingExits) - todo
        invariant started && Reaches(s0, State()) && positions == old(positions) - completed
        invariant pendingExits <= old(pendingExits) - completed
        invariant forall slot :: slot in completed ==>
                    slot in old(positions) && IsApplied(recorder.State(), CloseKey(old(positions)[slot].trade))
        decreases |todo|
      {
        var slot :| slot in todo;
        todo := todo - {slot};
        ReachesReachable(s0, State());
        PendingHasPosition(State(), slot);
        ghost var s := State();
        var r := DoExit(slot, None, runId);
        ReachesOn(s0, s, State());
        AppliedStays(s, State());
        if r.Done? {
          completed := completed + {slot};
        }
      }
    }

    // ---- reconciliation ----

    /**
     Take in what the venue closed on its own. The answer is every closure still to be
     delivered, or nothing when a closed trade has no usable price.
     */
    method ReconcileExternalClosures(runId: int) returns (events: Option<set<CommandKey>>)
      requires Ready()
      modifies this, recorder, api
      ensures started && Reaches(old(State()), State())
      ensures events.Some? ==> events.value == Undeliveries(recorder.State())
      ensures positions == old(positions) - (old(positions).Keys - positions.Keys)
      ensures forall slot :: slot in old(positions) && slot !in positions ==>
                IsApplied(recorder.State(), CloseKey(old(positions)[slot].trade))
      ensures audit.posts == old(audit.posts)
      ensures api.inventoryReads == old(api.inventoryReads) + 1
      ensures inventoryUnavailable || missingRemote == {} || api.historyReads == old(api.historyReads) + 1
      ensures events.Some? ==> forall slot :: slot in positions && positions[slot].trade in missingRemote ==>
                positions[slot].trade !in api.told
    {
      hide Reaches, Reachable, Drifts, Inv;
      ghost var s0 := State();
      Stay(s0);
      ReachableInv(s0);
      var running := api.GetRunningTrades();
      TakeDrift(s0, s0, api.state);
      ghost var s := s0.(venue := api.state);
      ReachesReachable(s0, s);
      if running.None? {
        Take(s0, s, InventoryFails);
        inventoryUnavailable := true;
        assert State() == Next(s, InventoryFails);
        return Some(Undeliveries(recorder.State()));
      }
      RunningIsComplete(s);
      Take(s0, s, ReadInventory);
      var known := Known(Memory());
      inventoryUnavailable, unknownRemote, missingRemote := false, running.value.Keys - known,
          known - running.value.Keys;
      audit := Next(s, ReadInventory).audit;
      assert State() == Next(s, ReadInventory);
      if missingRemote == {} {
        return Some(Undeliveries(recorder.State()));
      }
      s := State();
      var closed := api.GetClosedTrades();
      TakeDrift(s0, s, api.state);
      if closed.None? {
        return Some(Undeliveries(recorder.State()));
      }
      events := RecordClosures(closed.value, s0);
    }

    /** Book every missing trade the history tells about; a closure without a price stops the process. */
    method RecordClosures(closed: map<TradeId, Report>, ghost s0: Sys) returns (events: Option<set<CommandKey>>)
      requires started && Reachable(s0) && Reaches(s0, State()) && closed.Keys <= api.state.history
      modifies `positions, `pendingExits, `missingRemote, recorder
      ensures Reaches(s0, State())
      ensures events.Some? ==> events.value == Undeliveries(recorder.State())
      ensures events.Some? ==> forall slot :: slot in positions && positions[slot].trade in missingRemote ==>
                positions[slot].trade !in closed
      ensures positions == old(positions) - (old(positions).Keys - positions.Keys)
      ensures forall slot :: slot in old(positions) && slot !in positions ==>
                IsApplied(recorder.State(), CloseKey(old(positions)[slot].trade))
    {
      hide Reaches, Reachable, Inv, Undelivered, IsApplied;
      var todo := set slot | slot in positions && positions[slot].trade in missingRemote;
      while todo != {}
        invariant todo <= positions.Keys && forall slot :: slot in todo ==> positions[slot].trade in missingRemote
        invariant Reaches(s0, State())
        invariant forall slot :: slot in positions && slot !in todo && positions[slot].trade in missingRemote ==>
                    positions[slot].trade !in closed
        invariant positions == old(positions) - (old(positions).Keys - positions.Keys)
        invariant forall slot :: slot in old(positions) && slot !in positions ==>
                    IsApplied(recorder.State(), CloseKey(old(positions)[slot].trade))
        decreases |todo|
      {
        var slot :| slot in todo;
        todo := todo - {slot};
        var t := positions[slot].trade;
        if t in closed {
          if closed[t].price <= 0.0 {
            return None;
          }
          ghost var before := State();
          ReachesReachable(s0, before);
          RecordExternal(slot, closed[t], s0);
          AppliedStays(before, State());
          OthersStayMissing(before, slot, todo);
        }
      }
      return Some(Undeliveries(recorder.State()));
    }

    /** Apply every saved result; none is refused. */
    method ApplyReceived()
      requires !started && Reachable(State())
      modifies recorder
      ensures Reaches(old(State()), State()) && ReceivedKeys(recorder.State()) == {}
    {
      hide Reaches, Reachable, Inv;
      ghost var s0 := State();
      Stay(s0);
      var received := ReceivedKeys(recorder.State());
      while received != {}
        invariant Reaches(s0, State()) && received == ReceivedKeys(recorder.State())
        decreases |received|
      {
        var key :| key in received;
        ghost var s := State();
        ReachesReachable(s0, s);
        SavedResultIsApplied(s, key);
        Take(s0, s, Recover(key));
        var applied := recorder.ApplyCommand(key);
        received := received - {key};
      }
    }

    /**
     Start: apply every saved result, then rebuild the positions from the ledger and the
     venue. It fails only when the venue cannot be read, never on its own ledger.
     */
    method Reconcile() returns (ok: bool)
      requires !started && Reachable(State())
      modifies this, recorder, api
      ensures Reaches(old(State()), State()) && started == ok
      ensures ok ==> Known(Memory()) == LocallyOpenTrades(recorder.orders)
      ensures ok ==> missingRemote == Known(Memory()) - api.state.running
      ensures audit.posts == old(audit.posts) && api.inventoryReads == old(api.inventoryReads) + 1
    {
      hide Reaches, Reachable, Drifts, Inv, ReceivedKeys;
      ghost var s0 := State();
      ApplyReceived();
      ghost var s := State();
      var running := api.GetRunningTrades();
      TakeDrift(s0, s, api.state);
      if running.None? {
        return false;
      }
      Resume(running.value, s0);
      return true;
    }

    method Resume(running: map<TradeId, Trade>, ghost s0: Sys)
      requires !started && Reachable(s0) && Reaches(s0, State()) && ReceivedKeys(recorder.State()) == {}
      requires running == map t | t in api.state.running && t in api.state.trades :: api.state.trades[t]
      modifies this
      ensures started && Reaches(s0, State()) && audit.posts == old(audit.posts)
      ensures Known(Memory()) == LocallyOpenTrades(recorder.orders)
      ensures missingRemote == Known(Memory()) - api.state.running
    {
      hide Reaches, Reachable, Inv, Latest, LocallyOpenTrades, RestoredPositions, Ambiguous, Known;
      ghost var s := State();
      RestoreTaken(s0, s);
      var open := recorder.LatestLocallyOpenTrades();
      positions := RestorePositions(open, running, s.venue, s.ledger);
      pendingExits := set key | key in recorder.commands && key.CloseKey? && recorder.commands[key].status == Submitted
                                && recorder.commands[key].slot in positions
                                && positions[recorder.commands[key].slot].trade in running
                      :: recorder.commands[key].slot;
      missingRemote, unknownRemote, inventoryUnavailable := open.Keys - running.Keys, running.Keys - open.Keys, false;
      started, audit := true, audit.(listed := api.state.running, lastRead := api.state.running);
      assert Memory() == RestoredMemory(s.venue, s.ledger);
    }

    method RecordExternal(slot: Slot, report: Report, ghost s0: Sys)
      requires started && Reachable(s0) && Reaches(s0, State())
      requires slot in positions && positions[slot].trade in missingRemote && positions[slot].trade in api.state.history
      modifies `positions, `pendingExits, `missingRemote, recorder
      ensures Reaches(s0, State()) && Reaches(old(State()), State())
      ensures positions == old(positions) - {slot} && missingRemote == old(missingRemote) - {old(positions)[slot].trade}
      ensures IsApplied(recorder.State(), CloseKey(old(positions)[slot].trade))
    {
      hide Reaches, Reachable, Inv, Post, Begin, Receive, Apply, ExternalResult, IsApplied, Appliable, Enabled, Drifts;
      ghost var s := State();
      var p := positions[slot];
      ReachesReachable(s0, s);
      MayBeginExternal(s, slot, report);
      ExternalRecorded(s, slot, report);
      var inserted := recorder.BeginCommand(CloseKey(p.trade), Close, slot);
      recorder.CommandResult(CloseKey(p.trade), ExternalResult(slot, p, report));
      var applied := recorder.ApplyCommand(CloseKey(p.trade));
      missingRemote := missingRemote - {p.trade};
      positions, pendingExits := positions - {slot}, pendingExits - {slot};
      ReachesOn(s0, s, State());
    }
  }

  lemma RunningIsComplete(s: Sys)
    requires Inv(s)
    ensures (map t | t in s.venue.running && t in s.venue.trades :: s.venue.trades[t]).Keys == s.venue.running
  {
  }

  /** No two slots hold the same trade, so recording one closure leaves the others missing. */
  lemma OthersStayMissing(s: Sys, slot: Slot, others: set<Slot>)
    requires Inv(s) && s.process.Up? && slot in s.process.memory.positions && slot !in others
    requires others <= s.process.memory.positions.Keys
    ensures forall other :: other in others ==>
              s.process.memory.positions[other].trade != s.process.memory.positions[slot].trade
  {
    hide Stored;
    var m := s.process.memory;
    forall other | other in others ensures m.positions[other].trade != m.positions[slot].trade {
      assert Holds(s.venue, s.ledger, other, m.positions[other]) && Holds(s.venue, s.ledger, slot, m.positions[slot]);
    }
  }

  lemma MayBeginExternal(s: Sys, slot: Slot, report: Report)
    requires At(s, Idle) && slot in s.process.memory.positions
    requires s.process.memory.positions[slot].trade in s.process.memory.missing
    requires s.process.memory.positions[slot].trade in s.venue.history
    ensures Enabled(s, BeginExternal(slot, report))
  {
  }

  lemma ExternalRecorded(s: Sys, slot: Slot, report: Report)
    requires Reachable(s) && Enabled(s, BeginExternal(slot, report))
    ensures var m := s.process.memory;
      var p := m.positions[slot];
      var key, x := CloseKey(p.trade), ExternalResult(slot, p, report);
      var l1 := Receive(Begin(s.ledger, key, Close, slot), key, x);
      && Appliable(l1, key) && Apply(l1, key).Committed? && Apply(l1, key).l == Post(l1, key)
          && IsApplied(Post(l1, key), key)
      && Reaches(s, s.(ledger := Post(l1, key),
                       process := Up(Clear(m, slot).(missing := m.missing - {p.trade}), Idle)))
  {
    hide Reaches, Reachable, Inv, Post, Receive, Begin, Clear, ExternalResult;
    Stay(s);
    Take(s, s, BeginExternal(slot, report));
    var s1 := Next(s, BeginExternal(slot, report));
    Take(s, s1, SaveExternal);
    var s2 := Next(s1, SaveExternal);
    ReachesReachable(s, s2);
    ApplyCloseReady(s2);
    Take(s, s2, ApplyExternal);
    PostApplies(s2.ledger, CloseKey(s.process.memory.positions[slot].trade));
  }

  lemma PostApplies(l: Ledger, key: CommandKey)
    requires Appliable(l, key)
    ensures IsApplied(Post(l, key), key)
  {
  }

  lemma DriftKeepsClosed(v: Venue, v1: Venue, t: TradeId)
    requires Drifts(v, v1) && HasClosed(v, t)
    ensures HasClosed(v1, t)
  {
    var moves :| Moves(v, moves, v1);
    MovesKeepClosed(v, moves, v1, t);
  }

  lemma {:induction false} MovesKeepClosed(v: Venue, moves: seq<Move>, v1: Venue, t: TradeId)
    requires Moves(v, moves, v1) && HasClosed(v, t)
    ensures HasClosed(v1, t)
    decreases |moves|
  {
    if moves != [] {
      MovesKeepClosed(Moved(v, moves[0]), moves[1..], v1, t);
    }
  }

  /** The owner and slot under which a trade was opened, if this bot opened it. */
  function OwnerOf(orders: seq<Order>, t: TradeId): Option<Slot> {
    if orders == [] then None
    else
      var o := orders[|orders| - 1];
      if o.trade == t && o.action == Open then Some(o.slot) else OwnerOf(orders[..|orders| - 1], t)
  }
}
