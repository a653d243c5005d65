/**
 The durable execution protocol as a transition system: the venue, the ledger and
 a process that can stop between any two writes.

 Every remote call is split into the request, what the venue does with it, and
 the reply; a reply can be lost and an accepted request can take effect later.
 A definitive rejection means the venue opens no trade for that request.
 */
module Protocol {
  import opened Common
  import opened Ledger
  import opened LedgerProperties

  datatype Trade = Trade(long: bool, quantity: int)

  /**
   Every trade ever opened, those still running, unfilled orders, the trades the
   closed-trade history already lists, entry requests still in flight with their
   side, and which request opened a trade (the venue does not report this).
   */
  datatype Venue = Venue(
    trades: map<TradeId, Trade>, running: set<TradeId>, resting: set<TradeId>, history: set<TradeId>,
    inflight: map<EntryId, bool>, bot: map<TradeId, EntryId>)

  /** An open position; an absent slot is flat. */
  datatype Pos = Pos(trade: TradeId, long: bool, quantity: int)

  datatype Memory = Memory(
    positions: map<Slot, Pos>, pendingExits: set<Slot>, missing: set<TradeId>, unknown: set<TradeId>, unavailable: bool)

  /** Where the process stands inside an exit, an entry or an external closure. */
  datatype Pc =
    | Idle
    | ClosePost(slot: Slot, trade: TradeId)
    | CloseReply(slot: Slot, trade: TradeId)
    | CloseCleared(trade: TradeId, x: Execution)
    | CloseSaved(trade: TradeId)
    | EntryPost(entry: EntryId, long: bool)
    | EntryReply(entry: EntryId)
    | EntryRefused(entry: EntryId)
    | EntryOpened(entry: EntryId, x: Execution)
    | EntrySaved(entry: EntryId)
    | ExternalBegun(slot: Slot, trade: TradeId, x: Execution)
    | ExternalSaved(slot: Slot, trade: TradeId)

  datatype Process = Down | Starting | Up(memory: Memory, pc: Pc)

  /**
   Bookkeeping that only theorems read: how often each entry was posted, the
   trades listed by the latest reconciliation read or opened since, and the
   answer of the latest inventory read of any kind.
   */
  datatype Audit = Audit(posts: multiset<EntryId>, listed: set<TradeId>, lastRead: set<TradeId>)

  datatype Sys = Sys(venue: Venue, ledger: Ledger, process: Process, audit: Audit)

  const Initial := Sys(Venue(map[], {}, {}, {}, map[], map[]), Empty, Down, Audit(multiset{}, {}, {}))

  /** What the venue reports about a fill or a closure. */
  datatype Report = Report(runId: int, ts: int, price: real, fee: int, pl: int, liquidated: Option<bool>)

  /**
   What the venue and the network do at any moment: act on a request in flight or
   lose it, close a trade (asked to, by liquidation or by hand), let the history
   catch up, and serve other clients of the account.
   */
  datatype Move =
    | Opens(entry: EntryId, trade: TradeId, quantity: int)
    | Drops(entry: EntryId)
    | Closes(trade: TradeId)
    | Shows(trade: TradeId)
    | StrangerTrades(trade: TradeId, terms: Trade)
    | StrangerOrders(trade: TradeId)

  datatype Act =
    | Outside(move: Move)
    | Crash
    | Start
    | Recover(key: CommandKey)
    | Restore
    | Fund(runId: int, slot: Slot, row: FundingRow)
    | ReadInventory
    | InventoryFails
    | EntryRead
    | BeginClose(slot: Slot)
    | PostClose
    | CloseAccepted(report: Report)
    | CloseFails
    | SaveClose
    | ApplyClose
    | BeginEntry(entry: EntryId, long: bool)
    | PostEntry
    | EntryAccepted(trade: TradeId, report: Report)
    | EntryRejected
    | EntryLost
    | RecordRejection
    | SaveEntry
    | ApplyEntry
    | BeginExternal(slot: Slot, report: Report)
    | SaveExternal
    | ApplyExternal

  // ---- vocabulary ----

  predicate Is(l: Ledger, key: CommandKey, status: Status) {
    key in l.commands && l.commands[key].status == status
  }

  /** An entry whose outcome is not yet in the rows. */
  predicate Pending(l: Ledger, entry: EntryId) {
    Is(l, EntryKey(entry), Submitted) || Is(l, EntryKey(entry), Received)
  }

  predicate HasClosed(v: Venue, t: TradeId) {
    t in v.trades && t !in v.running
  }

  /** A trade this bot opened and has recorded as opened. */
  predicate Recorded(v: Venue, l: Ledger, t: TradeId) {
    t in v.bot && IsApplied(l, EntryKey(v.bot[t]))
  }

  predicate IsOpen(v: Venue, l: Ledger, t: TradeId) {
    Recorded(v, l, t) && !IsApplied(l, CloseKey(t))
  }

  function Known(m: Memory): set<TradeId> {
    set slot | slot in m.positions :: m.positions[slot].trade
  }

  function Clear(m: Memory, slot: Slot): Memory {
    m.(positions := m.positions - {slot}, pendingExits := m.pendingExits - {slot})
  }

  // ---- results ----

  function OpenResult(entry: EntryId, t: TradeId, terms: Trade, r: Report): Execution {
    Execution(Order(r.runId, r.ts, entry.slot, terms.long, terms.quantity, r.price, t, Open),
              r.fee, PnlEvent(r.runId, OpenEvent(t), entry.slot, r.ts, -r.fee), None)
  }

  function CloseResult(slot: Slot, p: Pos, r: Report): Execution {
    Execution(Order(r.runId, r.ts, slot, !p.long, p.quantity, r.price, p.trade, IsolatedAction.Closed),
              r.fee, PnlEvent(r.runId, CloseEvent(p.trade), slot, r.ts, r.pl - r.fee), None)
  }

  function ExternalResult(slot: Slot, p: Pos, r: Report): Execution {
    Execution(Order(r.runId, r.ts, slot, !p.long, p.quantity, r.price, p.trade, ExternalClose),
              r.fee, PnlEvent(r.runId, CloseEvent(p.trade), slot, r.ts, r.pl - r.fee),
              Some(ExternalEvent(slot, p.trade, r.ts, r.liquidated, r.price)))
  }

  // ---- admission ----

  predicate EntryUnresolved(l: Ledger) {
    exists key :: key in l.commands && l.commands[key].action == Entry
        && l.commands[key].status in {Submitted, Received}
  }

  /** The reasons common to every entry; configuration can only block more. */
  predicate Admits(m: Memory, l: Ledger) {
    !m.unavailable && m.missing == {} && m.unknown == {} && !EntryUnresolved(l)
  }

  /** A close whose outcome is open is not repeated while the trade is missing or unreadable. */
  predicate CloseUnresolved(m: Memory, l: Ledger, t: TradeId) {
    (m.unavailable || t in m.missing) && Is(l, CloseKey(t), Submitted)
  }

  // ---- recovery ----

  function SlotOf(l: Ledger, t: TradeId): Slot
    requires LocallyOpen(l.orders, t)
  {
    Latest(l.orders, t).value.slot
  }

  ghost predicate Ambiguous(l: Ledger) {
    exists t, u :: t != u && LocallyOpen(l.orders, t) && LocallyOpen(l.orders, u) && SlotOf(l, t) == SlotOf(l, u)
  }

  /** The venue's terms where the trade still runs, the recorded ones otherwise. */
  function RestoredPos(v: Venue, l: Ledger, t: TradeId): Pos
    requires LocallyOpen(l.orders, t)
  {
    var o := Latest(l.orders, t).value;
    if t in v.running && t in v.trades then Pos(t, v.trades[t].long, v.trades[t].quantity)
        else Pos(t, o.long, o.quantity)
  }

  lemma OpenTradesAreListed(l: Ledger, t: TradeId)
    ensures t in LocallyOpenTrades(l.orders) <==> LocallyOpen(l.orders, t)
  {
    if LocallyOpen(l.orders, t) {
      LatestIsRow(l.orders, t);
    }
  }

  ghost function RestoredPositions(v: Venue, l: Ledger): map<Slot, Pos>
    requires !Ambiguous(l)
  {
    map t | t in LocallyOpenTrades(l.orders) :: SlotOf(l, t) := RestoredPos(v, l, t)
  }

  /** Exits resume for submitted closes whose trade still runs. */
  ghost function RestoredExits(v: Venue, l: Ledger, positions: map<Slot, Pos>): set<Slot> {
    set key | key in l.commands && key.CloseKey? && l.commands[key].status == Submitted
              && l.commands[key].slot in positions && positions[l.commands[key].slot].trade in v.running
      :: l.commands[key].slot
  }

  ghost function RestoredMemory(v: Venue, l: Ledger): Memory
    requires !Ambiguous(l)
  {
    var open := LocallyOpenTrades(l.orders);
    var positions := RestoredPositions(v, l);
    Memory(positions, RestoredExits(v, l, positions), open - v.running, v.running - open, false)
  }

  // ---- the venue ----

  predicate CanMove(v: Venue, move: Move) {
    match move
    case Opens(entry, t, quantity) => entry in v.inflight && t !in v.trades && t !in v.resting && quantity > 0
    case Drops(entry) => entry in v.inflight
    case Closes(t) => t in v.running
    case Shows(t) => HasClosed(v, t)
    case StrangerTrades(t, terms) => t !in v.trades && terms.quantity > 0
    case StrangerOrders(t) => t !in v.trades
  }

  function Moved(v: Venue, move: Move): Venue
    requires CanMove(v, move)
  {
    match move
    case Opens(entry, t, quantity) =>
      v.(trades := v.trades[t := Trade(v.inflight[entry], quantity)], running := v.running + {t},
         inflight := v.inflight - {entry}, bot := v.bot[t := entry])
    case Drops(entry) => v.(inflight := v.inflight - {entry})
    case Closes(t) => v.(running := v.running - {t})
    case Shows(t) => v.(history := v.history + {t})
    case StrangerTrades(t, terms) =>
      v.(trades := v.trades[t := terms], running := v.running + {t}, resting := v.resting - {t})
    case StrangerOrders(t) => v.(resting := v.resting + {t})
  }

  // ---- steps ----

  predicate At(s: Sys, pc: Pc) {
    s.process.Up? && s.process.pc == pc
  }

  ghost predicate Enabled(s: Sys, a: Act) {
    var v, l, p := s.venue, s.ledger, s.process;
    match a
    case Outside(move) => CanMove(v, move)
    case Crash => true
    case Start => p.Down?
    case Recover(key) => p.Starting? && Is(l, key, Received)
    case Restore => p.Starting? && (forall key :: key in l.commands ==> l.commands[key].status != Received)
        && !Ambiguous(l)
    case Fund(_, _, _) => p.Up?
    case ReadInventory => At(s, Idle)
    case InventoryFails => At(s, Idle)
    case EntryRead => At(s, Idle)
    case BeginClose(slot) =>
      && At(s, Idle) && slot in p.memory.positions
      && !CloseUnresolved(p.memory, l, p.memory.positions[slot].trade)
    case PostClose => p.Up? && p.pc.ClosePost?
    case CloseAccepted(_) => p.Up? && p.pc.CloseReply? && HasClosed(v, p.pc.trade) && p.pc.slot in p.memory.positions
    case CloseFails => p.Up? && p.pc.CloseReply?
    case SaveClose => p.Up? && p.pc.CloseCleared?
    case ApplyClose => p.Up? && p.pc.CloseSaved? && Apply(l, CloseKey(p.pc.trade)).Committed?
    case BeginEntry(entry, _) =>
      At(s, Idle) && entry.slot !in p.memory.positions && Admits(p.memory, l) && EntryKey(entry) !in l.commands
    case PostEntry => p.Up? && p.pc.EntryPost?
    case EntryAccepted(t, _) => p.Up? && p.pc.EntryReply? && t in v.bot && v.bot[t] == p.pc.entry && t in v.trades
    case EntryRejected => p.Up? && p.pc.EntryReply? && p.pc.entry !in v.bot.Values
    case EntryLost => p.Up? && p.pc.EntryReply?
    case RecordRejection => p.Up? && p.pc.EntryRefused?
    case SaveEntry => p.Up? && p.pc.EntryOpened?
    case ApplyEntry =>
      p.Up? && p.pc.EntrySaved? && Apply(l, EntryKey(p.pc.entry)).Committed? && Appliable(l, EntryKey(p.pc.entry))
    case BeginExternal(slot, _) =>
      && At(s, Idle) && slot in p.memory.positions
      && p.memory.positions[slot].trade in p.memory.missing && p.memory.positions[slot].trade in v.history
    case SaveExternal => p.Up? && p.pc.ExternalBegun?
    case ApplyExternal => p.Up? && p.pc.ExternalSaved? && Apply(l, CloseKey(p.pc.trade)).Committed?
  }

  function Goto(s: Sys, m: Memory, pc: Pc): Sys {
    s.(process := Up(m, pc))
  }

  function Write(s: Sys, l: Ledger, m: Memory, pc: Pc): Sys {
    s.(ledger := l, process := Up(m, pc))
  }

  ghost function Next(s: Sys, a: Act): Sys
    requires Enabled(s, a)
  {
    var v, l, p := s.venue, s.ledger, s.process;
    match a
    case Outside(move) => s.(venue := Moved(v, move))
    case Crash => s.(process := Down)
    case Start => s.(process := Starting)
    case Recover(key) => if Appliable(l, key) then s.(ledger := Post(l, key)) else s.(process := Down)
    case Restore =>
      s.(process := Up(RestoredMemory(v, l), Idle), audit := s.audit.(listed := v.running, lastRead := v.running))
    case Fund(runId, slot, row) => s.(ledger := RecordFunding(l, runId, slot, row))
    case ReadInventory =>
      var known := Known(p.memory);
      Goto(s, p.memory.(missing := known - v.running, unknown := v.running - known, unavailable := false), Idle)
      .(audit := s.audit.(listed := v.running, lastRead := v.running))
    case InventoryFails => Goto(s, p.memory.(unavailable := true), Idle)
    case EntryRead =>
      Goto(s, p.memory.(unknown := v.running + v.resting - Known(p.memory), unavailable := false), Idle)
      .(audit := s.audit.(lastRead := v.running + v.resting))
    case BeginClose(slot) =>
      var t := p.memory.positions[slot].trade;
      Write(s, Begin(l, CloseKey(t), Close, slot), p.memory, ClosePost(slot, t))
    case PostClose => Goto(s, p.memory, CloseReply(p.pc.slot, p.pc.trade))
    case CloseAccepted(r) =>
      Goto(s, Clear(p.memory, p.pc.slot),
           CloseCleared(p.pc.trade, CloseResult(p.pc.slot, p.memory.positions[p.pc.slot], r)))
    case CloseFails => Goto(s, p.memory.(pendingExits := p.memory.pendingExits + {p.pc.slot}), Idle)
    case SaveClose => Write(s, Receive(l, CloseKey(p.pc.trade), p.pc.x), p.memory, CloseSaved(p.pc.trade))
    case ApplyClose => Write(s, Apply(l, CloseKey(p.pc.trade)).l, p.memory, Idle)
    case BeginEntry(entry, long) =>
      Write(s, Begin(l, EntryKey(entry), Entry, entry.slot), p.memory, EntryPost(entry, long))
    case PostEntry =>
      Goto(s, p.memory, EntryReply(p.pc.entry))
      .(venue := v.(inflight := v.inflight[p.pc.entry := p.pc.long]),
        audit := s.audit.(posts := s.audit.posts + multiset{p.pc.entry}))
    case EntryAccepted(t, r) =>
      Goto(s, p.memory, EntryOpened(p.pc.entry, OpenResult(p.pc.entry, t, v.trades[t], r)))
    case EntryRejected =>
      Goto(s, p.memory, EntryRefused(p.pc.entry)).(venue := v.(inflight := v.inflight - {p.pc.entry}))
    case EntryLost => Goto(s, p.memory, Idle)
    case RecordRejection => Write(s, Reject(l, EntryKey(p.pc.entry)), p.memory, Idle)
    case SaveEntry => Write(s, Receive(l, EntryKey(p.pc.entry), p.pc.x), p.memory, EntrySaved(p.pc.entry))
    case ApplyEntry =>
      var o := l.commands[EntryKey(p.pc.entry)].result.value.order;
      Write(s, Apply(l, EntryKey(p.pc.entry)).l,
            p.memory.(positions := p.memory.positions[o.slot := Pos(o.trade, o.long, o.quantity)]), Idle)
      .(audit := s.audit.(listed := s.audit.listed + {o.trade}))
    case BeginExternal(slot, r) =>
      var pos := p.memory.positions[slot];
      Write(s, Begin(l, CloseKey(pos.trade), Close, slot), p.memory,
            ExternalBegun(slot, pos.trade, ExternalResult(slot, pos, r)))
    case SaveExternal =>
      Write(s, Receive(l, CloseKey(p.pc.trade), p.pc.x), p.memory, ExternalSaved(p.pc.slot, p.pc.trade))
    case ApplyExternal =>
      Write(s, Apply(l, CloseKey(p.pc.trade)).l,
            Clear(p.memory, p.pc.slot).(missing := p.memory.missing - {p.pc.trade}), Idle)
  }

  /** The states a sequence of steps can lead to, each step enabled when it is taken. */
  ghost predicate Follows(s: Sys, script: seq<Act>, end: Sys)
    decreases |script|
  {
    if script == [] then s == end else Enabled(s, script[0]) && Follows(Next(s, script[0]), script[1..], end)
  }

  ghost predicate Reachable(s: Sys) {
    exists script :: Follows(Initial, script, s)
  }
}
