/**
 The shared cash book and the restartable shadow book: tables and transactions.

 Each function is one transaction; an error rolls it back. Hashes of encoded rows
 are injective, so the rows stand for them.
 */
module Portfolio {
  import opened Common
  import opened CloseRange

  datatype Mode = LiveBook | PaperBook

  datatype Instance = Instance(mode: Mode, rules: string)

  datatype Status = Reserved | Released | Posted | Accounted

  /** A reservation, joined with the book of its instance. */
  datatype Row = Row(id: string, instance: string, mode: Mode, campaign: string, amount: int, status: Status)

  datatype Cash = Cash(event: string, mode: Mode, ts: int, available: int, reflected: set<string>)

  datatype Position = Position(
    id: string, instance: string, campaign: string, k: int, remote: Option<string>, reservation: string)

  datatype MachineRow = MachineRow(lastTs: int, state: Snapshot, activatedAt: int)

  datatype DecisionRow = DecisionRow(instance: string, candleTs: int, decision: Decision)

  datatype Book = Book(
    instances: map<string, Instance>, cash: seq<Cash>, rows: seq<Row>, positions: seq<Position>,
    machines: map<string, MachineRow>, decisions: set<DecisionRow>)

  const EmptyBook := Book(map[], [], [], [], map[], {})

  datatype Outcome = Committed(book: Book) | RolledBack(error: string)

  // ---- queries ----

  predicate HasRow(rows: seq<Row>, id: string) {
    exists i :: 0 <= i < |rows| && rows[i].id == id
  }

  function RowOf(rows: seq<Row>, id: string): (r: Row)
    requires HasRow(rows, id)
    ensures r in rows && r.id == id
  {
    if rows[0].id == id then rows[0] else RowOf(rows[1..], id)
  }

  function SetStatus(rows: seq<Row>, ids: set<string>, status: Status): seq<Row> {
    seq(|rows|, i requires 0 <= i < |rows| => if rows[i].id in ids then rows[i].(status := status) else rows[i])
  }

  predicate Commits(r: Row, mode: Mode) {
    r.mode == mode && r.status in {Reserved, Posted}
  }

  function CommittedMargin(rows: seq<Row>, mode: Mode): int {
    if rows == [] then 0 else (if Commits(rows[0], mode) then rows[0].amount else 0) + CommittedMargin(rows[1..], mode)
  }

  predicate HasEvent(cash: seq<Cash>, event: string) {
    exists i :: 0 <= i < |cash| && cash[i].event == event
  }

  function EventOf(cash: seq<Cash>, event: string): (c: Cash)
    requires HasEvent(cash, event)
    ensures c in cash && c.event == event
  {
    if cash[0].event == event then cash[0] else EventOf(cash[1..], event)
  }

  /** The newest observation of one book: the highest timestamp, then the last row. */
  function LatestCash(cash: seq<Cash>, mode: Mode): Option<Cash> {
    if cash == [] then None
    else
      var last := cash[|cash| - 1];
      var rest := LatestCash(cash[..|cash| - 1], mode);
      if last.mode == mode && (rest.None? || last.ts >= rest.value.ts) then Some(last) else rest
  }

  predicate HasPosition(ps: seq<Position>, id: string) {
    exists i :: 0 <= i < |ps| && ps[i].id == id
  }

  function PositionOf(ps: seq<Position>, id: string): (p: Position)
    requires HasPosition(ps, id)
    ensures p in ps && p.id == id
  {
    if ps[0].id == id then ps[0] else PositionOf(ps[1..], id)
  }

  /** The uniqueness constraints of the position table. */
  predicate Collides(a: Position, b: Position) {
    || a.id == b.id || a.reservation == b.reservation || (a.remote.Some? && a.remote == b.remote)
    || (a.instance == b.instance && a.campaign == b.campaign && a.k == b.k)
  }

  // ---- cash ----

  predicate Reflectable(rows: seq<Row>, id: string, mode: Mode) {
    HasRow(rows, id) && RowOf(rows, id).status == Posted && RowOf(rows, id).mode == mode
  }

  predicate NoDuplicates(ids: seq<string>) {
    forall i, j :: 0 <= i < j < |ids| ==> ids[i] != ids[j]
  }

  function Ids(ids: seq<string>): set<string> {
    set id | id in ids
  }

  function Register(b: Book, instance: string, mode: Mode, rules: string): Outcome {
    if instance == "" || rules == "" then RolledBack("instance identity, mode and rule hash are required")
    else if instance in b.instances then
      if b.instances[instance] == Instance(mode, rules) then Committed(b)
      else RolledBack("instance configuration cannot change implicitly")
    else Committed(b.(instances := b.instances[instance := Instance(mode, rules)]))
  }

  function ObserveCash(b: Book, event: string, mode: Mode, ts: int, available: int, reflected: seq<string>): Outcome {
    if available < 0 then RolledBack("sats must be nonnegative")
    else if !NoDuplicates(reflected) then RolledBack("duplicate cash reflection")
    else
      var row := Cash(event, mode, ts, available, Ids(reflected));
      if HasEvent(b.cash, event) then
        if EventOf(b.cash, event) == row then Committed(b) else RolledBack("cash observation identity conflict")
      else if LatestCash(b.cash, mode).Some? && ts <= LatestCash(b.cash, mode).value.ts then
        RolledBack("cash observations must advance")
      else if exists id :: id in reflected && !Reflectable(b.rows, id, mode) then
        RolledBack("cash reconciliation may acknowledge only this book's posted margin")
      else Committed(b.(rows := SetStatus(b.rows, Ids(reflected), Accounted), cash := b.cash + [row]))
  }

  function Reserve(
    b: Book, id: string, instance: string, campaign: string, amount: int, now: int, maxAge: int): Outcome
  {
    if amount < 1 then RolledBack("sats must be positive")
    else if HasRow(b.rows, id) then
      var r := RowOf(b.rows, id);
      if r.instance == instance && r.campaign == campaign && r.amount == amount then Committed(b)
      else RolledBack("reservation identity conflict")
    else if instance !in b.instances then RolledBack("unknown strategy instance")
    else
      var mode := b.instances[instance].mode;
      var cash := LatestCash(b.cash, mode);
      if cash.None? || !(0 <= now - cash.value.ts <= maxAge) then RolledBack("fresh reconciled cash required")
      else if amount + CommittedMargin(b.rows, mode) > cash.value.available then RolledBack("insufficient shared cash")
      else Committed(b.(rows := b.rows + [Row(id, instance, mode, campaign, amount, Reserved)]))
  }

  function Release(b: Book, id: string): Outcome {
    if !HasRow(b.rows, id) || RowOf(b.rows, id).status in {Posted, Accounted} then
      RolledBack("cannot release unknown or posted reservation")
    else Committed(b.(rows := SetStatus(b.rows, {id}, Released)))
  }

  function RecordPosition(b: Book, id: string, reservation: string, k: int, remote: Option<string>): Outcome {
    if !(0 <= k <= 3) then RolledBack("invalid unit number")
    else if !HasRow(b.rows, reservation) || RowOf(b.rows, reservation).status == Released then
      RolledBack("position requires a reservation")
    else
      var r := RowOf(b.rows, reservation);
      var p := Position(id, r.instance, r.campaign, k, remote, reservation);
      if HasPosition(b.positions, id) then
        if PositionOf(b.positions, id) == p then Committed(b) else RolledBack("position ownership conflict")
      else if exists q :: q in b.positions && Collides(p, q) then RolledBack("UNIQUE constraint failed")
      else
        Committed(b.(rows := SetStatus(b.rows, {reservation}, Posted), positions := b.positions + [p]))
  }

  // ---- machine ----

  function InitializeMachine(b: Book, instance: string, lastTs: int, state: Snapshot, activatedAt: int): Outcome {
    if instance !in b.instances || b.instances[instance].mode != PaperBook then
      RolledBack("forward shadow requires a registered paper instance")
    else if instance in b.machines then
      if b.machines[instance] == MachineRow(lastTs, state, activatedAt) then Committed(b)
      else RolledBack("machine initialization conflict")
    else Committed(b.(machines := b.machines[instance := MachineRow(lastTs, state, activatedAt)]))
  }

  function DayRows(instance: string, candleTs: int, ds: seq<Decision>): set<DecisionRow> {
    set d | d in ds :: DecisionRow(instance, candleTs, d)
  }

  function StoredRows(b: Book, instance: string, candleTs: int): set<DecisionRow> {
    set r | r in b.decisions && r.instance == instance && r.candleTs == candleTs
  }

  /** Append one completed day if the stored machine is exactly one day behind. */
  function AdvanceMachine(
    b: Book, instance: string, previous: int, candleTs: int, state: Snapshot, ds: seq<Decision>): Outcome
  {
    if candleTs != previous + DAY then RolledBack("machine steps must advance exactly one day")
    else if instance !in b.machines then RolledBack("machine is not initialized")
    else
      var row := b.machines[instance];
      if row.lastTs == candleTs then
        if row.state != state then RolledBack("completed machine state changed")
        else if StoredRows(b, instance, candleTs) != DayRows(instance, candleTs, ds) then
          RolledBack("completed decision set changed")
        else Committed(b)
      else if row.lastTs != previous then RolledBack("stale or gapped machine writer")
      else
        Committed(b.(
          machines := b.machines[instance := row.(lastTs := candleTs, state := state)],
          decisions := b.decisions + DayRows(instance, candleTs, ds)))
  }
}
