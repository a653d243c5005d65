/**
 The durable execution ledger: the tables and the transactions on them.

 Each function is one committed transaction. Keys that the source builds by
 concatenating or hashing strings are injective constructors here, and a result
 saved as JSON is the value itself.
 */
module Ledger {
  import opened Common

  type TradeId = string

  /** The address of one position: strategy instance and position key. */
  datatype Slot = Slot(owner: string, key: string)

  /** The identity hashed into an entry's command key. */
  datatype EntryId = EntryId(slot: Slot, ts: int, kind: string, reason: string, metadata: string)

  datatype CommandKey = EntryKey(entry: EntryId) | CloseKey(trade: TradeId)

  datatype Action = Entry | Close

  datatype Status = Submitted | Received | Applied | Rejected

  datatype IsolatedAction = Open | Closed | ExternalClose

  datatype Order = Order(
    runId: int, ts: int, slot: Slot, long: bool, quantity: int, price: real, trade: TradeId, action: IsolatedAction)

  datatype Fill = Fill(orderId: nat, ts: int, quantity: int, price: real, fee: int)

  datatype EventKey =
    | OpenEvent(trade: TradeId)
    | CloseEvent(trade: TradeId)
    | FundingEvent(trade: TradeId, settlement: string)

  datatype PnlEvent = PnlEvent(runId: int, key: EventKey, slot: Slot, ts: int, amount: int)

  datatype ExternalEvent = ExternalEvent(slot: Slot, trade: TradeId, observedAt: int, liquidated: Option<bool>,
      price: real)

  /** The authoritative result of a command: an order, its fill and its P&L. */
  datatype Execution = Execution(order: Order, fee: int, pnl: PnlEvent, external: Option<ExternalEvent>)

  datatype RowIds = RowIds(order: nat, fill: nat)

  datatype Command = Command(
    action: Action, status: Status, slot: Slot, result: Option<Execution>, ids: Option<RowIds>, notified: bool)

  datatype Daily = Daily(runId: int, date: int, realized: int, funding: int)

  datatype Ledger = Ledger(
    commands: map<CommandKey, Command>, orders: seq<Order>, fills: seq<Fill>, events: seq<PnlEvent>,
    daily: seq<Daily>, fees: map<(TradeId, string), int>)

  const Empty := Ledger(map[], [], [], [], [], map[])

  function Date(ts: int): int { ts / DAY }

  // ---- rows ----

  predicate HasEvent(events: seq<PnlEvent>, key: EventKey) {
    exists i :: 0 <= i < |events| && events[i].key == key
  }

  /** Insert unless the key exists. */
  function AddEvent(events: seq<PnlEvent>, e: PnlEvent): seq<PnlEvent> {
    if HasEvent(events, e.key) then events else events + [e]
  }

  /** Add to the totals of one run and date. */
  function Upsert(daily: seq<Daily>, runId: int, date: int, realized: int, funding: int): seq<Daily> {
    if daily == [] then [Daily(runId, date, realized, funding)]
    else if daily[0].runId == runId && daily[0].date == date then
      [daily[0].(realized := daily[0].realized + realized, funding := daily[0].funding + funding)] + daily[1..]
    else [daily[0]] + Upsert(daily[1..], runId, date, realized, funding)
  }

  // ---- transactions ----

  function Begin(l: Ledger, key: CommandKey, action: Action, slot: Slot): Ledger {
    if key in l.commands then l
    else l.(commands := l.commands[key := Command(action, Submitted, slot, None, None, false)])
  }

  function Receive(l: Ledger, key: CommandKey, result: Execution): Ledger {
    if key !in l.commands || l.commands[key].status == Applied then l
    else l.(commands := l.commands[key := l.commands[key].(status := Received, result := Some(result))])
  }

  function Reject(l: Ledger, key: CommandKey): Ledger {
    if key !in l.commands then l
    else l.(commands := l.commands[key := l.commands[key].(status := Rejected, notified := true)])
  }

  predicate Appliable(l: Ledger, key: CommandKey) {
    key in l.commands && l.commands[key].status == Received && l.commands[key].result.Some?
  }

  /** The rows one execution commits together with its command's new status. */
  function Post(l: Ledger, key: CommandKey): Ledger
    requires Appliable(l, key)
  {
    var command := l.commands[key];
    var x := command.result.value;
    var orderId, fillId := |l.orders| + 1, |l.fills| + 1;
    var isNew := !HasEvent(l.events, x.pnl.key);
    Ledger(
      l.commands[key := command.(
        status := Applied, ids := Some(RowIds(orderId, fillId)), notified := x.external.None?)],
      l.orders + [x.order],
      l.fills + [Fill(orderId, x.order.ts, x.order.quantity, x.order.price, x.fee)],
      AddEvent(l.events, x.pnl),
      if isNew then Upsert(l.daily, x.order.runId, Date(x.order.ts), x.pnl.amount, 0) else l.daily,
      l.fees)
  }

  datatype ApplyOutcome = Committed(l: Ledger, ids: RowIds) | Refused(error: string)

  /** Applying an applied command answers its row ids again and writes nothing. */
  function Apply(l: Ledger, key: CommandKey): ApplyOutcome {
    if key !in l.commands then Refused("No row was found when one was required")
    else if l.commands[key].status == Applied && l.commands[key].ids.Some? then
      Committed(l, l.commands[key].ids.value)
    else if !Appliable(l, key) then Refused("command has no authoritative execution result")
    else Committed(Post(l, key), RowIds(|l.orders| + 1, |l.fills| + 1))
  }

  function Acknowledge(l: Ledger, keys: set<CommandKey>): Ledger {
    l.(commands := map k | k in l.commands ::
      if k in keys then l.commands[k].(notified := true) else l.commands[k])
  }

  datatype FundingRow = FundingRow(trade: TradeId, settlement: string, ts: int, fee: int)

  /** Record one settlement once: a paid fee is positive and lowers P&L. */
  function RecordFunding(l: Ledger, runId: int, slot: Slot, row: FundingRow): Ledger {
    if (row.trade, row.settlement) in l.fees then l
    else l.(
      fees := l.fees[(row.trade, row.settlement) := row.fee],
      daily := Upsert(l.daily, runId, Date(row.ts), 0, -row.fee),
      events := AddEvent(l.events, PnlEvent(runId, FundingEvent(row.trade, row.settlement), slot, row.ts, -row.fee)))
  }

  // ---- queries ----

  /** The latest recorded action on a trade. */
  function Latest(orders: seq<Order>, trade: TradeId): Option<Order> {
    if orders == [] then None
    else
      var last := orders[|orders| - 1];
      if last.trade == trade then Some(last) else Latest(orders[..|orders| - 1], trade)
  }

  predicate LocallyOpen(orders: seq<Order>, trade: TradeId) {
    Latest(orders, trade).Some? && Latest(orders, trade).value.action == Open
  }

  function LocallyOpenTrades(orders: seq<Order>): set<TradeId> {
    set i | 0 <= i < |orders| && LocallyOpen(orders, orders[i].trade) :: orders[i].trade
  }

  predicate Undelivered(l: Ledger, key: CommandKey) {
    && key in l.commands
    && var c := l.commands[key];
    c.status == Applied && !c.notified && c.result.Some? && c.result.value.external.Some?
  }

  function EventTotal(events: seq<PnlEvent>, date: int): int {
    if events == [] then 0
    else
      var last := events[|events| - 1];
      EventTotal(events[..|events| - 1], date) + (if Date(last.ts) == date then last.amount else 0)
  }

  /** Realized P&L plus funding of a date, over all runs. */
  function DailyTotal(daily: seq<Daily>, date: int): int {
    if daily == [] then 0
    else (if daily[0].date == date then daily[0].realized + daily[0].funding else 0) + DailyTotal(daily[1..], date)
  }

  // ---- the class ----

  class Recorder {
    var commands: map<CommandKey, Command>
    var orders: seq<Order>
    var fills: seq<Fill>
    var events: seq<PnlEvent>
    var daily: seq<Daily>
    var fees: map<(TradeId, string), int>

    function State(): Ledger
      reads this
    {
      Ledger(commands, orders, fills, events, daily, fees)
    }

    constructor ()
      ensures State() == Empty
    {
      commands, orders, fills, events, daily, fees := map[], [], [], [], [], map[];
    }

    method BeginCommand(key: CommandKey, action: Action, slot: Slot) returns (inserted: bool)
      modifies `commands
      ensures State() == Begin(old(State()), key, action, slot)
      ensures inserted <==> key !in old(commands)
    {
      if key in commands {
        return false;
      }
      commands := commands[key := Command(action, Submitted, slot, None, None, false)];
      return true;
    }

    method CommandResult(key: CommandKey, result: Execution)
      modifies `commands
      ensures State() == Receive(old(State()), key, result)
    {
      if key in commands && commands[key].status != Applied {
        commands := commands[key := commands[key].(status := Received, result := Some(result))];
      }
    }

    method RejectCommand(key: CommandKey)
      modifies `commands
      ensures State() == Reject(old(State()), key)
    {
      if key in commands {
        commands := commands[key := commands[key].(status := Rejected, notified := true)];
      }
    }

    method RecordOrder(order: Order) returns (orderId: nat)
      modifies `orders
      ensures orders == old(orders) + [order] && orderId == |orders|
    {
      orders := orders + [order];
      orderId := |orders|;
    }

    method RecordFill(orderId: nat, ts: int, quantity: int, price: real, fee: int) returns (fillId: nat)
      modifies `fills
      ensures fills == old(fills) + [Fill(orderId, ts, quantity, price, fee)] && fillId == |fills|
    {
      fills := fills + [Fill(orderId, ts, quantity, price, fee)];
      fillId := |fills|;
    }

    method RecordPnlEvent(e: PnlEvent) returns (isNew: bool)
      modifies `events
      ensures events == AddEvent(old(events), e)
      ensures isNew <==> !HasEvent(old(events), e.key)
    {
      isNew := !HasEvent(events, e.key);
      if isNew {
        events := events + [e];
      }
    }

    method UpsertDaily(runId: int, date: int, realized: int, funding: int)
      modifies `daily
      ensures daily == Upsert(old(daily), runId, date, realized, funding)
    {
      var i := 0;
      while i < |daily| && !(daily[i].runId == runId && daily[i].date == date)
        invariant 0 <= i <= |daily| && daily == old(daily)
        invariant forall j :: 0 <= j < i ==> !(daily[j].runId == runId && daily[j].date == date)
      {
        i := i + 1;
      }
      UpsertAt(daily, i, runId, date, realized, funding);
      if i < |daily| {
        var row := daily[i];
        daily := daily[i := row.(realized := row.realized + realized, funding := row.funding + funding)];
      } else {
        daily := daily + [Daily(runId, date, realized, funding)];
      }
    }

    method ApplyCommand(key: CommandKey) returns (r: Result<RowIds>)
      modifies this
      ensures Apply(old(State()), key).Committed? ==>
        r == Ok(Apply(old(State()), key).ids) && State() == Apply(old(State()), key).l
      ensures Apply(old(State()), key).Refused? ==>
        r == Err(Apply(old(State()), key).error) && State() == old(State())
    {
      if key !in commands {
        return Err("No row was found when one was required");
      }
      var command := commands[key];
      if command.status == Applied && command.ids.Some? {
        return Ok(command.ids.value);
      }
      if command.status != Received || command.result.None? {
        return Err("command has no authoritative execution result");
      }
      var x := command.result.value;
      var orderId := RecordOrder(x.order);
      var fillId := RecordFill(orderId, x.order.ts, x.order.quantity, x.order.price, x.fee);
      var isNew := RecordPnlEvent(x.pnl);
      if isNew {
        UpsertDaily(x.order.runId, Date(x.order.ts), x.pnl.amount, 0);
      }
      commands := commands[key := command.(
        status := Applied, ids := Some(RowIds(orderId, fillId)), notified := x.external.None?)];
      return Ok(RowIds(orderId, fillId));
    }

    method AcknowledgeCommands(keys: set<CommandKey>)
      modifies `commands
      ensures State() == Acknowledge(old(State()), keys)
    {
      commands := map k | k in commands ::
        if k in keys then commands[k].(notified := true) else commands[k];
    }

    method SyncFundingRow(runId: int, slot: Slot, row: FundingRow)
      modifies `fees, `daily, `events
      ensures State() == RecordFunding(old(State()), runId, slot, row)
    {
      if (row.trade, row.settlement) in fees {
        return;
      }
      fees := fees[(row.trade, row.settlement) := row.fee];
      UpsertDaily(runId, Date(row.ts), 0, -row.fee);
      var isNew := RecordPnlEvent(
        PnlEvent(runId, FundingEvent(row.trade, row.settlement), slot, row.ts, -row.fee));
    }

    /** Trades whose latest recorded action is still an open, scanning the order table once. */
    method LatestLocallyOpenTrades() returns (rows: map<TradeId, Order>)
      ensures rows.Keys == LocallyOpenTrades(orders)
      ensures forall t :: t in rows ==> Latest(orders, t) == Some(rows[t])
    {
      var latest: map<TradeId, Order>, i := map[], 0;
      while i < |orders|
        invariant 0 <= i <= |orders|
        invariant forall t :: t in latest <==> Latest(orders[..i], t).Some?
        invariant forall t :: t in latest ==> Latest(orders[..i], t) == Some(latest[t])
      {
        assert orders[..i + 1][..i] == orders[..i];
        latest := latest[orders[i].trade := orders[i]];
        i := i + 1;
      }
      assert orders[..i] == orders;
      rows := map t | t in latest && latest[t].action == Open :: latest[t];
      forall t | LocallyOpen(orders, t) ensures t in LocallyOpenTrades(orders) {
        LatestIsRow(orders, t);
      }
    }
  }

  lemma {:induction false} UpsertAt(daily: seq<Daily>, i: nat, runId: int, date: int, realized: int, funding: int)
    requires i <= |daily|
    requires forall j :: 0 <= j < i ==> !(daily[j].runId == runId && daily[j].date == date)
    requires i < |daily| ==> daily[i].runId == runId && daily[i].date == date
    ensures Upsert(daily, runId, date, realized, funding)
         == if i < |daily| then
              daily[i := daily[i].(realized := daily[i].realized + realized, funding := daily[i].funding + funding)]
            else daily + [Daily(runId, date, realized, funding)]
  {
    if i > 0 {
      UpsertAt(daily[1..], i - 1, runId, date, realized, funding);
    }
  }

  lemma {:induction false} LatestIsRow(orders: seq<Order>, t: TradeId)
    requires Latest(orders, t).Some?
    ensures exists i :: 0 <= i < |orders| && orders[i] == Latest(orders, t).value && orders[i].trade == t
  {
    var n := |orders| - 1;
    if orders[n].trade != t {
      LatestIsRow(orders[..n], t);
      var i :| 0 <= i < n && orders[..n][i] == Latest(orders[..n], t).value && orders[..n][i].trade == t;
      assert orders[i] == Latest(orders, t).value;
    } else {
      assert orders[n] == Latest(orders, t).value;
    }
  }
}
