/**
 What every transaction keeps: rows and applied commands correspond one to one,
 event keys are unique, and the daily totals are the sums of the events.
 */
module LedgerProperties {
  import opened Common
  import opened Ledger

  /** The result a command may carry: it accounts for that command's own trade. */
  predicate Fits(key: CommandKey, x: Execution) {
    && x.pnl.ts == x.order.ts
    && x.pnl.slot == x.order.slot
    && match key
       case EntryKey(entry) =>
         x.order.action == Open && x.order.slot == entry.slot && x.pnl.key == OpenEvent(x.order.trade)
             && x.external.None?
       case CloseKey(trade) =>
         x.order.action != Open && x.order.trade == trade && x.pnl.key == CloseEvent(trade)
  }

  predicate IsApplied(l: Ledger, key: CommandKey) {
    key in l.commands && l.commands[key].status == Applied
  }

  ghost predicate ResultsFit(l: Ledger) {
    forall key :: key in l.commands && l.commands[key].status in {Received, Applied} ==>
      l.commands[key].result.Some? && Fits(key, l.commands[key].result.value)
  }

  /** The row ids stored with an applied command point at its own order and fill. */
  predicate OwnRows(l: Ledger, key: CommandKey)
    requires key in l.commands
  {
    var c := l.commands[key];
    && c.result.Some? && c.ids.Some?
    && c.ids.value.order == c.ids.value.fill
    && 1 <= c.ids.value.order <= |l.orders| == |l.fills|
    && var x, i := c.result.value, c.ids.value.order;
    && l.orders[i - 1] == x.order
    && l.fills[i - 1] == Fill(i, x.order.ts, x.order.quantity, x.order.price, x.fee)
  }

  predicate Writes(l: Ledger, key: CommandKey, i: int) {
    IsApplied(l, key) && l.commands[key].ids.Some? && l.commands[key].ids.value.order == i
  }

  ghost predicate Written(l: Ledger, i: int) {
    exists key :: Writes(l, key, i)
  }

  /** Orders, fills and applied commands correspond one to one. */
  ghost predicate OneRowEach(l: Ledger) {
    && |l.orders| == |l.fills|
    && (forall key :: IsApplied(l, key) ==> OwnRows(l, key))
    && (forall i :: 1 <= i <= |l.orders| ==> Written(l, i))
    && (forall a, b, i :: Writes(l, a, i) && Writes(l, b, i) ==> a == b)
  }

  ghost predicate UniqueEvents(events: seq<PnlEvent>) {
    forall i, j :: 0 <= i < j < |events| ==> events[i].key != events[j].key
  }

  ghost predicate FeesMatchEvents(l: Ledger) {
    forall t, s :: (t, s) in l.fees <==> HasEvent(l.events, FundingEvent(t, s))
  }

  /** The readiness report's check: no date on which the totals disagree. */
  ghost predicate Conserved(l: Ledger) {
    forall date :: EventTotal(l.events, date) == DailyTotal(l.daily, date)
  }

  ghost predicate Sound(l: Ledger) {
    ResultsFit(l) && OneRowEach(l) && UniqueEvents(l.events) && FeesMatchEvents(l) && Conserved(l)
  }

  lemma EmptyIsSound()
    ensures Sound(Empty)
  {
  }

  // ---- money ----

  lemma {:induction false} UpsertAdds(daily: seq<Daily>, runId: int, d: int, realized: int, funding: int, date: int)
    ensures DailyTotal(Upsert(daily, runId, d, realized, funding), date)
         == DailyTotal(daily, date) + if d == date then realized + funding else 0
  {
    if daily != [] && !(daily[0].runId == runId && daily[0].date == d) {
      UpsertAdds(daily[1..], runId, d, realized, funding, date);
    }
  }

  lemma AddEventAdds(events: seq<PnlEvent>, e: PnlEvent, date: int)
    requires !HasEvent(events, e.key)
    ensures EventTotal(AddEvent(events, e), date)
         == EventTotal(events, date) + if Date(e.ts) == date then e.amount else 0
  {
    assert (events + [e])[..|events|] == events;
  }

  /** A new event and the matching daily delta keep the totals equal on every date. */
  lemma BothSidesMove(l: Ledger, l1: Ledger, e: PnlEvent, runId: int, realized: int, funding: int)
    requires Conserved(l) && !HasEvent(l.events, e.key)
    requires l1.events == AddEvent(l.events, e)
    requires l1.daily == Upsert(l.daily, runId, Date(e.ts), realized, funding)
    requires realized + funding == e.amount
    ensures Conserved(l1)
  {
    forall date ensures EventTotal(l1.events, date) == DailyTotal(l1.daily, date) {
      AddEventAdds(l.events, e, date);
      UpsertAdds(l.daily, runId, Date(e.ts), realized, funding, date);
    }
  }

  /** A total recorded without its event, as the manual close script does, agrees exactly when it is zero. */
  lemma TotalWithoutEventBalances(l: Ledger, runId: int, date: int, realized: int)
    requires Conserved(l)
    ensures Conserved(l.(daily := Upsert(l.daily, runId, date, realized, 0))) <==> realized == 0
  {
    var l1 := l.(daily := Upsert(l.daily, runId, date, realized, 0));
    forall d ensures DailyTotal(l1.daily, d) == DailyTotal(l.daily, d) + if d == date then realized else 0 {
      UpsertAdds(l.daily, runId, date, realized, 0, d);
    }
    assert EventTotal(l.events, date) == DailyTotal(l.daily, date);
  }

  lemma AddEventKeepsUnique(events: seq<PnlEvent>, e: PnlEvent)
    requires UniqueEvents(events)
    ensures UniqueEvents(AddEvent(events, e))
    ensures forall k :: HasEvent(AddEvent(events, e), k) <==> HasEvent(events, k) || k == e.key
  {
    var after := AddEvent(events, e);
    forall k ensures HasEvent(after, k) <==> HasEvent(events, k) || k == e.key {
      if HasEvent(events, k) {
        var i :| 0 <= i < |events| && events[i].key == k;
        assert after[i].key == k;
      }
      if k == e.key && !HasEvent(events, k) {
        assert after[|events|].key == k;
      }
    }
  }

  // ---- each transaction ----

  lemma BeginKeeps(l: Ledger, key: CommandKey, action: Action, slot: Slot)
    requires Sound(l)
    ensures Sound(Begin(l, key, action, slot))
  {
    StatusKeeps(l, Begin(l, key, action, slot));
  }

  /** Changes to commands that apply nothing and un-apply nothing keep the rows. */
  lemma StatusKeeps(l: Ledger, l1: Ledger)
    requires Sound(l) && l1 == l.(commands := l1.commands)
    requires ResultsFit(l1)
    requires forall key :: IsApplied(l, key) <==> IsApplied(l1, key)
    requires forall key :: IsApplied(l, key) ==>
      && key in l1.commands
      && l1.commands[key].ids == l.commands[key].ids
      && l1.commands[key].result == l.commands[key].result
    ensures Sound(l1)
  {
    assert forall key, i :: Writes(l, key, i) <==> Writes(l1, key, i);
    forall key | IsApplied(l1, key) ensures OwnRows(l1, key) {
      assert OwnRows(l, key);
    }
    forall i | 1 <= i <= |l1.orders| ensures Written(l1, i) {
      assert Written(l, i);
      var key :| Writes(l, key, i);
      assert Writes(l1, key, i);
    }
  }

  lemma ReceiveKeeps(l: Ledger, key: CommandKey, x: Execution)
    requires Sound(l) && Fits(key, x)
    ensures Sound(Receive(l, key, x))
  {
    StatusKeeps(l, Receive(l, key, x));
  }

  lemma RejectKeeps(l: Ledger, key: CommandKey)
    requires Sound(l) && !IsApplied(l, key)
    ensures Sound(Reject(l, key))
  {
    StatusKeeps(l, Reject(l, key));
  }

  lemma AcknowledgeKeeps(l: Ledger, keys: set<CommandKey>)
    requires Sound(l)
    ensures Sound(Acknowledge(l, keys))
  {
    StatusKeeps(l, Acknowledge(l, keys));
  }

  lemma PostRows(l: Ledger, key: CommandKey)
    requires Sound(l) && Appliable(l, key)
    ensures OneRowEach(Post(l, key))
  {
    var l1 := Post(l, key);
    var n := |l.orders|;
    assert forall k, i :: Writes(l1, k, i) <==> Writes(l, k, i) || (k == key && i == n + 1);
    forall k | IsApplied(l1, k) ensures OwnRows(l1, k) {
      if k != key {
        assert IsApplied(l, k) && OwnRows(l, k);
      }
    }
    forall i | 1 <= i <= |l1.orders| ensures Written(l1, i) {
      if i <= n {
        assert Written(l, i);
        var k :| Writes(l, k, i);
        assert Writes(l1, k, i);
      } else {
        assert Writes(l1, key, i);
      }
    }
    forall a, b, i | Writes(l1, a, i) && Writes(l1, b, i) ensures a == b {
      if Writes(l, a, i) {
        assert OwnRows(l, a);
      }
      if Writes(l, b, i) {
        assert OwnRows(l, b);
      }
    }
  }

  lemma PostKeeps(l: Ledger, key: CommandKey)
    requires Sound(l) && Appliable(l, key)
    ensures Sound(Post(l, key))
  {
    var x := l.commands[key].result.value;
    PostRows(l, key);
    AddEventKeepsUnique(l.events, x.pnl);
    if !HasEvent(l.events, x.pnl.key) {
      BothSidesMove(l, Post(l, key), x.pnl, x.order.runId, x.pnl.amount, 0);
    }
    assert Fits(key, x);
  }

  lemma FundingKeeps(l: Ledger, runId: int, slot: Slot, row: FundingRow)
    requires Sound(l)
    ensures Sound(RecordFunding(l, runId, slot, row))
  {
    var l1 := RecordFunding(l, runId, slot, row);
    if (row.trade, row.settlement) !in l.fees {
      var e := PnlEvent(runId, FundingEvent(row.trade, row.settlement), slot, row.ts, -row.fee);
      AddEventKeepsUnique(l.events, e);
      BothSidesMove(l, l1, e, runId, 0, -row.fee);
      StatusKeeps(l, l.(commands := l1.commands));
      forall key | IsApplied(l1, key) ensures OwnRows(l1, key) {
        assert OwnRows(l, key);
      }
      forall i | 1 <= i <= |l1.orders| ensures Written(l1, i) {
        assert Written(l, i);
        var key :| Writes(l, key, i);
        assert Writes(l1, key, i);
      }
      forall a, b, i | Writes(l1, a, i) && Writes(l1, b, i) ensures a == b {
        assert Writes(l, a, i) && Writes(l, b, i);
      }
    }
  }

  // ---- exactly once ----

  predicate IsCloseAt(l: Ledger, trade: TradeId, i: int) {
    0 <= i < |l.orders| && l.orders[i].trade == trade && l.orders[i].action != Open
  }

  /** A trade has at most one closing order and fill, and exactly one once its close is applied. */
  lemma CloseIsAccountedOnce(l: Ledger, trade: TradeId)
    requires Sound(l)
    ensures forall i, j :: IsCloseAt(l, trade, i) && IsCloseAt(l, trade, j) ==> i == j
    ensures IsApplied(l, CloseKey(trade)) <==> exists i :: IsCloseAt(l, trade, i)
  {
    forall i | IsCloseAt(l, trade, i) ensures Writes(l, CloseKey(trade), i + 1) {
      assert Written(l, i + 1);
      var key :| Writes(l, key, i + 1);
      assert OwnRows(l, key) && Fits(key, l.commands[key].result.value);
    }
    if IsApplied(l, CloseKey(trade)) {
      var i := l.commands[CloseKey(trade)].ids.value.order - 1;
      assert OwnRows(l, CloseKey(trade)) && Fits(CloseKey(trade), l.commands[CloseKey(trade)].result.value);
      assert IsCloseAt(l, trade, i);
    }
  }

  /** Applying again, however often, changes nothing and answers the same rows. */
  lemma ApplyIsIdempotent(l: Ledger, key: CommandKey)
    requires Sound(l) && Apply(l, key).Committed?
    ensures var once := Apply(l, key); Apply(once.l, key) == once
  {
    if IsApplied(l, key) {
      assert OwnRows(l, key);
    }
  }

  function RecordAll(l: Ledger, runId: int, slot: Slot, rows: seq<FundingRow>): Ledger
    decreases |rows|
  {
    if rows == [] then l else RecordAll(RecordFunding(l, runId, slot, rows[0]), runId, slot, rows[1..])
  }

  lemma {:induction false} RecordedStays(l: Ledger, runId: int, slot: Slot, rows: seq<FundingRow>)
    ensures forall key :: key in l.fees ==> key in RecordAll(l, runId, slot, rows).fees
    ensures forall r :: r in rows ==> (r.trade, r.settlement) in RecordAll(l, runId, slot, rows).fees
    decreases |rows|
  {
    if rows != [] {
      RecordedStays(RecordFunding(l, runId, slot, rows[0]), runId, slot, rows[1..]);
    }
  }

  lemma {:induction false} RecordedAgain(l: Ledger, runId: int, slot: Slot, rows: seq<FundingRow>)
    requires forall r :: r in rows ==> (r.trade, r.settlement) in l.fees
    ensures RecordAll(l, runId, slot, rows) == l
    decreases |rows|
  {
    if rows != [] {
      assert rows[0] in rows;
      RecordedAgain(l, runId, slot, rows[1..]);
    }
  }

  /**
   Replaying the whole funding history is idempotent: any list of settlements
   already seen, in any order, under any run, records nothing new.
   */
  lemma FundingReplayIsIdempotent(l: Ledger, runId: int, slot: Slot, rows: seq<FundingRow>, again: seq<FundingRow>,
      run2: int)
    requires forall r :: r in again ==> r in rows
    ensures RecordAll(RecordAll(l, runId, slot, rows), run2, slot, again) == RecordAll(l, runId, slot, rows)
  {
    RecordedStays(l, runId, slot, rows);
    RecordedAgain(RecordAll(l, runId, slot, rows), run2, slot, again);
  }
}
