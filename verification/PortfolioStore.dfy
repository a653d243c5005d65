/**
 The portfolio database object. Every method is one transaction on its tables,
 proved against the transaction function; an error leaves every table as it was.
 */
module PortfolioStore {
  import opened Common
  import opened CloseRange
  import opened Portfolio

  class PortfolioStore {
    var instances: map<string, Instance>
    var cash: seq<Cash>
    var reservations: seq<Row>
    var positions: seq<Position>
    var machines: map<string, MachineRow>
    var decisions: set<DecisionRow>

    function State(): Book
      reads this
    {
      Book(instances, cash, reservations, positions, machines, decisions)
    }

    /** The answer and the tables after a transaction; an error leaves them as they were. */
    ghost predicate Transacts(before: Book, r: Result<bool>, expected: Outcome)
      reads this
    {
      match expected
      case Committed(book) => r == Ok(true) && State() == book
      case RolledBack(error) => r == Err(error) && State() == before
    }

    constructor ()
      ensures State() == EmptyBook
    {
      instances, cash, reservations, positions, machines, decisions := map[], [], [], [], map[], {};
    }

    method Register(instance: string, mode: Mode, rules: string) returns (r: Result<bool>)
      modifies `instances
      ensures Transacts(old(State()), r, Portfolio.Register(old(State()), instance, mode, rules))
    {
      if instance == "" || rules == "" {
        return Err("instance identity, mode and rule hash are required");
      }
      if instance in instances {
        return if instances[instance] == Instance(mode, rules) then Ok(true)
               else Err("instance configuration cannot change implicitly");
      }
      instances := instances[instance := Instance(mode, rules)];
      return Ok(true);
    }

    /** Mark the acknowledged reservations one by one; the first that does not qualify rolls everything back. */
    method AccountReflected(reflected: seq<string>, mode: Mode) returns (ok: bool)
      requires NoDuplicates(reflected)
      modifies `reservations
      ensures ok <==> forall id :: id in reflected ==> Reflectable(old(reservations), id, mode)
      ensures ok ==> reservations == SetStatus(old(reservations), Ids(reflected), Accounted)
      ensures !ok ==> reservations == old(reservations)
    {
      var before, i := reservations, 0;
      while i < |reflected|
        invariant 0 <= i <= |reflected|
        invariant reservations == SetStatus(before, Ids(reflected[..i]), Accounted)
        invariant forall id :: id in reflected[..i] ==> Reflectable(before, id, mode)
      {
        var id := reflected[i];
        assert id !in Ids(reflected[..i]);
        FindKept(before, Ids(reflected[..i]), Accounted, id);
        if !HasRow(reservations, id) || RowOf(reservations, id).status != Posted || RowOf(reservations,
            id).mode != mode {
          reservations := before;
          assert id in reflected;
          return false;
        }
        SetStatusTwice(before, Ids(reflected[..i]), id, Accounted);
        reservations := SetStatus(reservations, {id}, Accounted);
        assert Ids(reflected[..i + 1]) == Ids(reflected[..i]) + {id};
        i := i + 1;
      }
      assert reflected[..i] == reflected;
      return true;
    }

    method ObserveCash(event: string, mode: Mode, ts: int, available: int,
        reflected: seq<string>) returns (r: Result<bool>)
      modifies `reservations, `cash
      ensures Transacts(old(State()), r, Portfolio.ObserveCash(old(State()), event, mode, ts, available, reflected))
    {
      if available < 0 {
        return Err("sats must be nonnegative");
      }
      if !NoDuplicates(reflected) {
        return Err("duplicate cash reflection");
      }
      var row := Cash(event, mode, ts, available, Ids(reflected));
      if HasEvent(cash, event) {
        return if EventOf(cash, event) == row then Ok(true) else Err("cash observation identity conflict");
      }
      var latest := LatestCash(cash, mode);
      if latest.Some? && ts <= latest.value.ts {
        return Err("cash observations must advance");
      }
      var ok := AccountReflected(reflected, mode);
      if !ok {
        return Err("cash reconciliation may acknowledge only this book's posted margin");
      }
      cash := cash + [row];
      return Ok(true);
    }

    /** What reserved and posted margin already takes from one book. */
    method CommittedSats(mode: Mode) returns (total: int)
      ensures total == CommittedMargin(reservations, mode)
    {
      total := 0;
      var i := |reservations|;
      while i > 0
        invariant 0 <= i <= |reservations| && total == CommittedMargin(reservations[i..], mode)
      {
        i := i - 1;
        assert reservations[i..][1..] == reservations[i + 1..];
        if Commits(reservations[i], mode) {
          total := total + reservations[i].amount;
        }
      }
      assert reservations[0..] == reservations;
    }

    method Reserve(id: string, instance: string, campaign: string, amount: int, now: int, maxAge: int)
      returns (r: Result<bool>)
      modifies `reservations
      ensures Transacts(old(State()), r, Portfolio.Reserve(old(State()), id, instance, campaign, amount, now, maxAge))
    {
      if amount < 1 {
        return Err("sats must be positive");
      }
      if HasRow(reservations, id) {
        var row := RowOf(reservations, id);
        return if row.instance == instance && row.campaign == campaign && row.amount == amount then Ok(true)
               else Err("reservation identity conflict");
      }
      if instance !in instances {
        return Err("unknown strategy instance");
      }
      var mode := instances[instance].mode;
      var latest := LatestCash(cash, mode);
      if latest.None? || !(0 <= now - latest.value.ts <= maxAge) {
        return Err("fresh reconciled cash required");
      }
      var committed := CommittedSats(mode);
      if amount + committed > latest.value.available {
        return Err("insufficient shared cash");
      }
      reservations := reservations + [Row(id, instance, mode, campaign, amount, Reserved)];
      return Ok(true);
    }

    method Release(id: string) returns (r: Result<bool>)
      modifies `reservations
      ensures Transacts(old(State()), r, Portfolio.Release(old(State()), id))
    {
      if !HasRow(reservations, id) || RowOf(reservations, id).status in {Posted, Accounted} {
        return Err("cannot release unknown or posted reservation");
      }
      reservations := SetStatus(reservations, {id}, Released);
      return Ok(true);
    }

    method RecordPosition(id: string, reservation: string, k: int, remote: Option<string>) returns (r: Result<bool>)
      modifies `reservations, `positions
      ensures Transacts(old(State()), r, Portfolio.RecordPosition(old(State()), id, reservation, k, remote))
    {
      if !(0 <= k <= 3) {
        return Err("invalid unit number");
      }
      if !HasRow(reservations, reservation) || RowOf(reservations, reservation).status == Released {
        return Err("position requires a reservation");
      }
      var row := RowOf(reservations, reservation);
      var p := Position(id, row.instance, row.campaign, k, remote, reservation);
      if HasPosition(positions, id) {
        return if PositionOf(positions, id) == p then Ok(true) else Err("position ownership conflict");
      }
      if exists q :: q in positions && Collides(p, q) {
        return Err("UNIQUE constraint failed");
      }
      positions := positions + [p];
      reservations := SetStatus(reservations, {reservation}, Posted);
      return Ok(true);
    }

    method InitializeMachine(instance: string, lastTs: int, state: Snapshot, activatedAt: int) returns (r: Result<bool>)
      modifies `machines
      ensures Transacts(old(State()), r,
          Portfolio.InitializeMachine(old(State()), instance, lastTs, state, activatedAt))
    {
      if instance !in instances || instances[instance].mode != PaperBook {
        return Err("forward shadow requires a registered paper instance");
      }
      var row := MachineRow(lastTs, state, activatedAt);
      if instance in machines {
        return if machines[instance] == row then Ok(true) else Err("machine initialization conflict");
      }
      machines := machines[instance := row];
      return Ok(true);
    }

    method AdvanceMachine(instance: string, previous: int, candleTs: int, state: Snapshot, ds: seq<Decision>)
      returns (r: Result<bool>)
      modifies `machines, `decisions
      ensures Transacts(old(State()), r,
          Portfolio.AdvanceMachine(old(State()), instance, previous, candleTs, state, ds))
    {
      if candleTs != previous + DAY {
        return Err("machine steps must advance exactly one day");
      }
      if instance !in machines {
        return Err("machine is not initialized");
      }
      var row := machines[instance];
      if row.lastTs == candleTs {
        if row.state != state {
          return Err("completed machine state changed");
        }
        return if StoredRows(State(), instance, candleTs) == DayRows(instance, candleTs, ds) then Ok(true)
               else Err("completed decision set changed");
      }
      if row.lastTs != previous {
        return Err("stale or gapped machine writer");
      }
      var i, before := 0, decisions;
      while i < |ds|
        invariant 0 <= i <= |ds| && decisions == before + DayRows(instance, candleTs, ds[..i])
            && machines == old(machines)
      {
        decisions := decisions + {DecisionRow(instance, candleTs, ds[i])};
        assert DayRows(instance, candleTs, ds[..i + 1]) == DayRows(instance, candleTs, ds[..i])
          + {DecisionRow(instance, candleTs, ds[i])} by {
          DayRowsStep(instance, candleTs, ds, i);
        }
        i := i + 1;
      }
      assert ds[..i] == ds;
      machines := machines[instance := row.(lastTs := candleTs, state := state)];
      return Ok(true);
    }
  }

  lemma DayRowsStep(instance: string, ts: int, ds: seq<Decision>, i: nat)
    requires i < |ds|
    ensures DayRows(instance, ts, ds[..i + 1]) == DayRows(instance, ts, ds[..i]) + {DecisionRow(instance, ts, ds[i])}
  {
    assert ds[..i + 1] == ds[..i] + [ds[i]];
    assert forall d :: d in ds[..i + 1] <==> d in ds[..i] || d == ds[i];
  }

  lemma {:induction false} FindKept(rows: seq<Row>, ids: set<string>, status: Status, id: string)
    requires id !in ids
    ensures HasRow(SetStatus(rows, ids, status), id) <==> HasRow(rows, id)
    ensures HasRow(rows, id) ==> RowOf(SetStatus(rows, ids, status), id) == RowOf(rows, id)
  {
    var after := SetStatus(rows, ids, status);
    if HasRow(rows, id) {
      var i :| 0 <= i < |rows| && rows[i].id == id;
      assert after[i].id == id;
      if rows[0].id != id {
        assert rows[1..][i - 1].id == id;
        FindKept(rows[1..], ids, status, id);
        assert after[1..] == SetStatus(rows[1..], ids, status);
      }
    }
    if HasRow(after, id) {
      var i :| 0 <= i < |after| && after[i].id == id;
      assert rows[i].id == id;
    }
  }

  lemma SetStatusTwice(rows: seq<Row>, ids: set<string>, id: string, status: Status)
    ensures SetStatus(SetStatus(rows, ids, status), {id}, status) == SetStatus(rows, ids + {id}, status)
  {
  }
}
