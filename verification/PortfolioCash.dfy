/**
 Shared cash under any interleaving of clients, the venue and the reconciler: what
 is reserved and not yet taken by the venue never exceeds the true wallet.
 */
module PortfolioCash {
  import opened Common
  import opened Portfolio

  /** A wallet read: its value and the postings it already includes. */
  datatype Read = Read(mode: Mode, ts: int, cash: int, seen: set<string>)

  /**
   The book and the truth around it: the wallets, what the venue took for each
   posting, every wallet read so far, and the read behind the newest observation.
   */
  datatype World = World(
    book: Book, live: int, paper: int, taken: map<string, int>, walletReads: seq<Read>, observed: map<Mode, Read>)

  function Wallet(w: World, mode: Mode): int {
    if mode == LiveBook then w.live else w.paper
  }

  function Move(w: World, mode: Mode, delta: int): World {
    if mode == LiveBook then w.(live := w.live + delta) else w.(paper := w.paper + delta)
  }

  datatype Act =
    | ClientRegisters(instance: string, book: Mode, rules: string)
    | ClientReserves(id: string, instance: string, campaign: string, amount: int, now: int, maxAge: int)
    | ClientReleases(id: string)
    | ClientRecords(position: string, reservation: string, k: int, remote: Option<string>)
    | VenueTakes(id: string, debit: int)
    | WalletGains(book: Mode, credit: int)
    | WalletRead(book: Mode, ts: int)
    | CashObserved(event: string, read: int, reflected: seq<string>)

  const Initial := World(EmptyBook, 0, 0, map[], [], map[])

  predicate IsStatus(b: Book, id: string, status: Status) {
    HasRow(b.rows, id) && RowOf(b.rows, id).status == status
  }

  /**
   Clients release only what they never submitted and record only what the venue
   took; the venue takes at most what was reserved; reads come in time order; an
   observation acknowledges only postings its wallet read already includes.
   */
  predicate Enabled(w: World, a: Act) {
    match a
    case ClientRegisters(_, _, _) => true
    case ClientReserves(_, _, _, _, _, _) => true
    case ClientReleases(id) => id !in w.taken
    case ClientRecords(_, reservation, _, _) => reservation in w.taken
    case VenueTakes(id, debit) =>
      IsStatus(w.book, id, Reserved) && id !in w.taken && 0 <= debit <= RowOf(w.book.rows, id).amount
    case WalletGains(_, credit) => credit >= 0
    case WalletRead(mode, ts) => forall r :: r in w.walletReads && r.mode == mode ==> r.ts <= ts
    case CashObserved(_, i, reflected) => 0 <= i < |w.walletReads| && Ids(reflected) <= w.walletReads[i].seen
  }

  function Keep(w: World, o: Outcome): World {
    if o.Committed? then w.(book := o.book) else w
  }

  function Next(w: World, a: Act): World
    requires Enabled(w, a)
  {
    match a
    case ClientRegisters(instance, mode, rules) => Keep(w, Register(w.book, instance, mode, rules))
    case ClientReserves(id, instance, campaign, amount, now, maxAge) =>
      Keep(w, Reserve(w.book, id, instance, campaign, amount, now, maxAge))
    case ClientReleases(id) => Keep(w, Release(w.book, id))
    case ClientRecords(position, reservation, k, remote) => Keep(w,
        RecordPosition(w.book, position, reservation, k, remote))
    case VenueTakes(id, debit) =>
      var mode := RowOf(w.book.rows, id).mode;
      Move(w, mode, -debit).(taken := w.taken[id := debit])
    case WalletGains(mode, credit) => Move(w, mode, credit)
    case WalletRead(mode, ts) => w.(walletReads := w.walletReads + [Read(mode, ts, Wallet(w, mode), w.taken.Keys)])
    case CashObserved(event, i, reflected) =>
      var r := w.walletReads[i];
      var o := ObserveCash(w.book, event, r.mode, r.ts, r.cash, reflected);
      if o.RolledBack? || HasEvent(w.book.cash, event) then Keep(w, o)
      else Keep(w, o).(observed := w.observed[r.mode := r])
  }

  // ---- sums over the reservation table ----

  datatype Weight = Commitment | Unposted(taken: map<string, int>) | Unseen(taken: map<string, int>, seen: set<string>)

  function Weigh(k: Weight, mode: Mode, r: Row): int {
    if r.mode != mode then 0
    else match k
      case Commitment => if Commits(r, mode) then r.amount else 0
      case Unposted(taken) => if r.status == Reserved && r.id !in taken then r.amount else 0
      case Unseen(taken, seen) => if r.id in taken && r.id !in seen then taken[r.id] else 0
  }

  function SumOfRows(k: Weight, mode: Mode, rows: seq<Row>): int {
    if rows == [] then 0 else Weigh(k, mode, rows[0]) + SumOfRows(k, mode, rows[1..])
  }

  lemma {:induction false} SumIsCommitted(rows: seq<Row>, mode: Mode)
    ensures SumOfRows(Commitment, mode, rows) == CommittedMargin(rows, mode)
  {
    if rows != [] {
      SumIsCommitted(rows[1..], mode);
    }
  }

  lemma {:induction false} SumAppend(k: Weight, mode: Mode, rows: seq<Row>, r: Row)
    ensures SumOfRows(k, mode, rows + [r]) == SumOfRows(k, mode, rows) + Weigh(k, mode, r)
  {
    if rows == [] {
      assert SumOfRows(k, mode, [r]) == Weigh(k, mode, r) + SumOfRows(k, mode, []);
    } else {
      assert (rows + [r])[1..] == rows[1..] + [r];
      SumAppend(k, mode, rows[1..], r);
    }
  }

  /** Row by row comparison of two tables of the same length. */
  lemma {:induction false} SumCompares(k: Weight, k1: Weight, mode: Mode, rows: seq<Row>, rows1: seq<Row>)
    requires |rows| == |rows1|
    requires forall i :: 0 <= i < |rows| ==> Weigh(k, mode, rows[i]) <= Weigh(k1, mode, rows1[i])
    ensures SumOfRows(k, mode, rows) <= SumOfRows(k1, mode, rows1)
  {
    if rows != [] {
      forall i | 0 <= i < |rows[1..]| ensures Weigh(k, mode, rows[1..][i]) <= Weigh(k1, mode, rows1[1..][i]) {
        assert rows[1..][i] == rows[i + 1] && rows1[1..][i] == rows1[i + 1];
      }
      SumCompares(k, k1, mode, rows[1..], rows1[1..]);
    }
  }

  /** What is reserved and what the venue took unseen are both part of the commitments. */
  lemma {:induction false} SumSplits(k: Weight, k1: Weight, mode: Mode, rows: seq<Row>)
    requires forall r :: r in rows ==> Weigh(k, mode, r) + Weigh(k1, mode, r) <= Weigh(Commitment, mode, r)
    ensures SumOfRows(k, mode, rows) + SumOfRows(k1, mode, rows) <= SumOfRows(Commitment, mode, rows)
  {
    if rows != [] {
      assert rows[0] in rows;
      SumSplits(k, k1, mode, rows[1..]);
    }
  }

  /** Changing the weight of the one row with an id moves the sum by that much. */
  lemma {:induction false} SumMoves(k: Weight, k1: Weight, mode: Mode, rows: seq<Row>, id: string, delta: int)
    requires HasRow(rows, id) && UniqueIds(rows)
    requires forall r :: r in rows && r.id != id ==> Weigh(k1, mode, r) == Weigh(k, mode, r)
    requires Weigh(k1, mode, RowOf(rows, id)) == Weigh(k, mode, RowOf(rows, id)) + delta
    ensures SumOfRows(k1, mode, rows) == SumOfRows(k, mode, rows) + delta
  {
    if rows[0].id == id {
      forall r | r in rows[1..] ensures r.id != id {
        var j :| 0 <= j < |rows[1..]| && rows[1..][j] == r;
        assert rows[j + 1] == r;
      }
      SumEqual(k, k1, mode, rows[1..]);
    } else {
      var i :| 0 <= i < |rows| && rows[i].id == id;
      assert rows[1..][i - 1].id == id;
      assert rows[0] in rows;
      SumMoves(k, k1, mode, rows[1..], id, delta);
    }
  }

  lemma {:induction false} SumEqual(k: Weight, k1: Weight, mode: Mode, rows: seq<Row>)
    requires forall r :: r in rows ==> Weigh(k1, mode, r) == Weigh(k, mode, r)
    ensures SumOfRows(k1, mode, rows) == SumOfRows(k, mode, rows)
  {
    if rows != [] {
      assert rows[0] in rows;
      SumEqual(k, k1, mode, rows[1..]);
    }
  }

  predicate UniqueIds(rows: seq<Row>) {
    forall i, j :: 0 <= i < j < |rows| ==> rows[i].id != rows[j].id
  }

  // ---- the invariant ----

  predicate HasReservation(ps: seq<Position>, reservation: string) {
    exists i :: 0 <= i < |ps| && ps[i].reservation == reservation
  }

  /** Margin is posted or accounted exactly when its position exists, and at most one position draws on it. */
  ghost predicate PositionsOk(b: Book) {
    && (forall r :: r in b.rows ==> (r.status in {Posted, Accounted} <==> HasReservation(b.positions, r.id)))
    && (forall p :: p in b.positions ==> HasRow(b.rows, p.reservation))
    && (forall i, j :: 0 <= i < j < |b.positions| ==> !Collides(b.positions[i], b.positions[j]))
  }

  /** The venue has taken what is posted or accounted and nothing that was released. */
  predicate TakenRowOk(w: World, r: Row) {
    && r.amount >= 1
    && (r.status in {Posted, Accounted} ==> r.id in w.taken)
    && (r.status == Released ==> r.id !in w.taken)
    && (r.id in w.taken ==> 0 <= w.taken[r.id] <= r.amount)
  }

  ghost predicate TakenOk(w: World) {
    && (forall r :: r in w.book.rows ==> TakenRowOk(w, r))
    && (forall id :: id in w.taken ==> HasRow(w.book.rows, id))
  }

  ghost predicate WalletReadsOk(w: World) {
    && (forall i, j :: 0 <= i < j < |w.walletReads| && w.walletReads[i].mode == w.walletReads[j].mode ==>
          w.walletReads[i].ts <= w.walletReads[j].ts && w.walletReads[i].seen <= w.walletReads[j].seen)
    && (forall r :: r in w.walletReads ==>
          && r.seen <= w.taken.Keys
          && Wallet(w, r.mode) >= r.cash - SumOfRows(Unseen(w.taken, r.seen), r.mode, w.book.rows))
  }

  predicate ObservedFor(w: World, mode: Mode) {
    && (mode in w.observed <==> LatestCash(w.book.cash, mode).Some?)
    && (mode in w.observed ==>
          && w.observed[mode] in w.walletReads && w.observed[mode].mode == mode
          && w.observed[mode].ts == LatestCash(w.book.cash, mode).value.ts
          && w.observed[mode].cash == LatestCash(w.book.cash, mode).value.available)
    && (forall r :: r in w.book.rows && r.mode == mode && r.status == Accounted ==>
          mode in w.observed && r.id in w.observed[mode].seen)
  }

  /** The newest observation of a book comes from a wallet read that includes everything accounted. */
  predicate ObservedOk(w: World) {
    ObservedFor(w, LiveBook) && ObservedFor(w, PaperBook)
  }

  ghost predicate Covered(w: World) {
    forall mode :: SumOfRows(Unposted(w.taken), mode, w.book.rows) <= Wallet(w, mode)
  }

  ghost predicate Inv(w: World) {
    && UniqueIds(w.book.rows)
    && PositionsOk(w.book) && TakenOk(w) && WalletReadsOk(w) && ObservedOk(w) && Covered(w)
  }

  // ---- each act ----

  lemma Room(w: World, mode: Mode)
    requires Inv(w) && mode in w.observed
    ensures SumOfRows(Unposted(w.taken), mode, w.book.rows) + w.observed[mode].cash - Wallet(w, mode)
         <= CommittedMargin(w.book.rows, mode)
  {
    var seen := w.observed[mode].seen;
    SumSplits(Unposted(w.taken), Unseen(w.taken, seen), mode, w.book.rows);
    SumIsCommitted(w.book.rows, mode);
  }

  lemma AppendedRow(rows: seq<Row>, r: Row)
    requires UniqueIds(rows) && !HasRow(rows, r.id)
    ensures UniqueIds(rows + [r])
    ensures forall id :: HasRow(rows + [r], id) <==> HasRow(rows, id) || id == r.id
  {
    var all := rows + [r];
    forall id ensures HasRow(all, id) <==> HasRow(rows, id) || id == r.id {
      if HasRow(rows, id) {
        var i :| 0 <= i < |rows| && rows[i].id == id;
        assert all[i].id == id;
      }
      if id == r.id {
        assert all[|rows|].id == id;
      }
    }
    forall i, j | 0 <= i < j < |all| ensures all[i].id != all[j].id {
      if j == |rows| {
        assert rows[i].id != r.id;
      }
    }
  }

  /** A new reservation has taken nothing that a wallet read could have seen. */
  lemma ReservedKeepsReads(w: World, row: Row)
    requires WalletReadsOk(w) && row.id !in w.taken
    ensures WalletReadsOk(w.(book := w.book.(rows := w.book.rows + [row])))
  {
    hide SumOfRows;
    var rows := w.book.rows + [row];
    forall r | r in w.walletReads
      ensures Wallet(w, r.mode) >= r.cash - SumOfRows(Unseen(w.taken, r.seen), r.mode, rows) {
      SumAppend(Unseen(w.taken, r.seen), r.mode, w.book.rows, row);
    }
  }

  lemma ReservesKeeps(w: World, id: string, instance: string, campaign: string, amount: int, now: int, maxAge: int)
    requires Inv(w)
    ensures Inv(Next(w, ClientReserves(id, instance, campaign, amount, now, maxAge)))
  {
    hide SumOfRows, CommittedMargin;
    var o := Reserve(w.book, id, instance, campaign, amount, now, maxAge);
    var w1 := Next(w, ClientReserves(id, instance, campaign, amount, now, maxAge));
    if o.Committed? && !HasRow(w.book.rows, id) {
      var mode := w.book.instances[instance].mode;
      var row := Row(id, instance, mode, campaign, amount, Reserved);
      AppendedRow(w.book.rows, row);
      Room(w, mode);
      assert SumOfRows(Unposted(w.taken), mode, w.book.rows) + amount <= Wallet(w, mode);
      hide LatestCash;
      assert row.id !in w.taken;
      forall m ensures SumOfRows(Unposted(w.taken), m, w1.book.rows) <= Wallet(w, m) {
        SumAppend(Unposted(w.taken), m, w.book.rows, row);
      }
      ReservedKeepsReads(w, row);
      hide WalletReadsOk;
      assert PositionsOk(w1.book) by {
        NoPositionYet(w, id);
      }
    }
  }

  lemma NoPositionYet(w: World, id: string)
    requires PositionsOk(w.book) && !HasRow(w.book.rows, id)
    ensures !HasReservation(w.book.positions, id)
  {
    forall i | 0 <= i < |w.book.positions| ensures w.book.positions[i].reservation != id {
      assert w.book.positions[i] in w.book.positions;
    }
  }

  /** Changing statuses keeps the rows and their ids. */
  lemma StatusesKeepIds(rows: seq<Row>, ids: set<string>, status: Status)
    requires UniqueIds(rows)
    ensures var after := SetStatus(rows, ids, status);
      && UniqueIds(after) && (forall id :: HasRow(after, id) <==> HasRow(rows, id))
      && (forall r :: r in after ==> exists i :: 0 <= i < |rows| && after[i] == r)
  {
    var after := SetStatus(rows, ids, status);
    forall id ensures HasRow(after, id) <==> HasRow(rows, id) {
      if HasRow(rows, id) {
        var i :| 0 <= i < |rows| && rows[i].id == id;
        assert after[i].id == id;
      }
      if HasRow(after, id) {
        var i :| 0 <= i < |after| && after[i].id == id;
        assert rows[i].id == id;
      }
    }
  }

  lemma UniqueRow(rows: seq<Row>, r: Row)
    requires UniqueIds(rows) && r in rows
    ensures HasRow(rows, r.id) && RowOf(rows, r.id) == r
  {
    var i :| 0 <= i < |rows| && rows[i] == r;
    assert rows[i].id == r.id;
    var other := RowOf(rows, r.id);
    assert other in rows && other.id == r.id;
    var j :| 0 <= j < |rows| && rows[j] == other;
  }

  predicate MaySet(w: World, r: Row, ids: set<string>, status: Status) {
    r.id in ids ==>
      && status != Reserved
      && (status == Released ==> r.id !in w.taken)
      && (status in {Posted, Accounted} ==> r.id in w.taken)
      && (status == Accounted ==> r.mode in w.observed && r.id in w.observed[r.mode].seen)
  }

  /** A status change the truth agrees with keeps the cash invariants. */
  lemma StatusKeepsCash(w: World, ids: set<string>, status: Status)
    requires UniqueIds(w.book.rows) && TakenOk(w) && WalletReadsOk(w) && ObservedOk(w) && Covered(w)
    requires forall r :: r in w.book.rows ==> MaySet(w, r, ids, status)
    ensures var w1 := w.(book := w.book.(rows := SetStatus(w.book.rows, ids, status)));
      UniqueIds(w1.book.rows) && TakenOk(w1) && WalletReadsOk(w1) && ObservedOk(w1) && Covered(w1)
  {
    var rows, after := w.book.rows, SetStatus(w.book.rows, ids, status);
    var w1 := w.(book := w.book.(rows := after));
    StatusesKeepIds(rows, ids, status);
    StatusKeepsTaken(w, ids, status);
    StatusKeepsObserved(w, ids, status, LiveBook);
    StatusKeepsObserved(w, ids, status, PaperBook);
    StatusKeepsSums(w, ids, status);
    hide TakenOk, ObservedFor, SetStatus, MaySet;
  }

  lemma StatusKeepsTaken(w: World, ids: set<string>, status: Status)
    requires UniqueIds(w.book.rows) && TakenOk(w) && forall r :: r in w.book.rows ==> MaySet(w, r, ids, status)
    ensures TakenOk(w.(book := w.book.(rows := SetStatus(w.book.rows, ids, status))))
  {
    var rows, after := w.book.rows, SetStatus(w.book.rows, ids, status);
    StatusesKeepIds(rows, ids, status);
    forall r | r in after ensures TakenRowOk(w, r) {
      var i :| 0 <= i < |rows| && after[i] == r;
      assert rows[i] in rows && MaySet(w, rows[i], ids, status);
    }
  }

  lemma StatusKeepsObserved(w: World, ids: set<string>, status: Status, mode: Mode)
    requires ObservedFor(w, mode) && forall r :: r in w.book.rows ==> MaySet(w, r, ids, status)
    ensures ObservedFor(w.(book := w.book.(rows := SetStatus(w.book.rows, ids, status))), mode)
  {
    var rows, after := w.book.rows, SetStatus(w.book.rows, ids, status);
    forall r | r in after && r.mode == mode && r.status == Accounted
      ensures mode in w.observed && r.id in w.observed[mode].seen {
      var i :| 0 <= i < |after| && after[i] == r;
      assert rows[i] in rows && MaySet(w, rows[i], ids, status);
    }
  }

  lemma StatusKeepsSums(w: World, ids: set<string>, status: Status)
    requires TakenOk(w) && forall r :: r in w.book.rows ==> MaySet(w, r, ids, status)
    ensures var after := SetStatus(w.book.rows, ids, status);
      && (forall m :: SumOfRows(Unposted(w.taken), m, after) <= SumOfRows(Unposted(w.taken), m, w.book.rows))
      && (forall m, seen ::
          SumOfRows(Unseen(w.taken, seen), m, after) == SumOfRows(Unseen(w.taken, seen), m, w.book.rows))
  {
    var rows, after := w.book.rows, SetStatus(w.book.rows, ids, status);
    forall m ensures SumOfRows(Unposted(w.taken), m, after) <= SumOfRows(Unposted(w.taken), m, rows) {
      forall i | 0 <= i < |rows| ensures Weigh(Unposted(w.taken), m, after[i]) <= Weigh(Unposted(w.taken), m, rows[i]) {
        assert rows[i] in rows && MaySet(w, rows[i], ids, status);
      }
      SumCompares(Unposted(w.taken), Unposted(w.taken), m, after, rows);
    }
    forall m, seen ensures SumOfRows(Unseen(w.taken, seen), m, after) == SumOfRows(Unseen(w.taken, seen), m, rows) {
      SumCompares(Unseen(w.taken, seen), Unseen(w.taken, seen), m, after, rows);
      SumCompares(Unseen(w.taken, seen), Unseen(w.taken, seen), m, rows, after);
    }
  }

  lemma ReleasesKeeps(w: World, id: string)
    requires Inv(w) && Enabled(w, ClientReleases(id))
    ensures Inv(Next(w, ClientReleases(id)))
  {
    hide Covered, HasRow;
    if Release(w.book, id).Committed? {
      StatusesKeepIds(w.book.rows, {id}, Released);
      UniqueRow(w.book.rows, RowOf(w.book.rows, id));
      forall r | r in w.book.rows && r.id == id ensures r.status !in {Posted, Accounted} {
        UniqueRow(w.book.rows, r);
      }
      StatusKeepsCash(w, {id}, Released);
    }
  }

  lemma AppendedPosition(ps: seq<Position>, p: Position)
    ensures forall id :: HasReservation(ps + [p], id) <==> HasReservation(ps, id) || id == p.reservation
  {
    var all := ps + [p];
    forall id ensures HasReservation(all, id) <==> HasReservation(ps, id) || id == p.reservation {
      if HasReservation(ps, id) {
        var i :| 0 <= i < |ps| && ps[i].reservation == id;
        assert all[i].reservation == id;
      }
      if id == p.reservation {
        assert all[|ps|].reservation == id;
      }
    }
  }

  lemma RecordsKeeps(w: World, position: string, reservation: string, k: int, remote: Option<string>)
    requires Inv(w) && Enabled(w, ClientRecords(position, reservation, k, remote))
    ensures Inv(Next(w, ClientRecords(position, reservation, k, remote)))
  {
    var o := RecordPosition(w.book, position, reservation, k, remote);
    if o.Committed? && !HasPosition(w.book.positions, position) {
      var r := RowOf(w.book.rows, reservation);
      var p := Position(position, r.instance, r.campaign, k, remote, reservation);
      StatusKeepsCash(w, {reservation}, Posted);
      PositionsAfter(w.book, r, p);
      hide PositionsOk, TakenOk, WalletReadsOk, ObservedOk, Covered;
      StatusOnly(w.(book := w.book.(rows := o.book.rows)), o.book.positions);
    }
  }

  /** The cash invariants do not look at the position table. */
  lemma StatusOnly(w: World, ps: seq<Position>)
    ensures var w1 := w.(book := w.book.(positions := ps));
      && (TakenOk(w1) <==> TakenOk(w)) && (WalletReadsOk(w1) <==> WalletReadsOk(w))
      && (ObservedOk(w1) <==> ObservedOk(w)) && (Covered(w1) <==> Covered(w))
  {
  }

  lemma PositionsAfter(b: Book, r: Row, p: Position)
    requires PositionsOk(b) && UniqueIds(b.rows) && r in b.rows && r.id == p.reservation
    requires forall q :: q in b.positions ==> !Collides(p, q)
    ensures PositionsOk(b.(rows := SetStatus(b.rows, {r.id}, Posted), positions := b.positions + [p]))
  {
    var after, ps := SetStatus(b.rows, {r.id}, Posted), b.positions + [p];
    StatusesKeepIds(b.rows, {r.id}, Posted);
    AppendedPosition(b.positions, p);
    UniqueRow(b.rows, r);
    forall row | row in after ensures row.status in {Posted, Accounted} <==> HasReservation(ps, row.id) {
      var i :| 0 <= i < |b.rows| && after[i] == row;
      assert b.rows[i] in b.rows;
    }
    forall i, j | 0 <= i < j < |ps| ensures !Collides(ps[i], ps[j]) {
      if j == |b.positions| {
        assert b.positions[i] in b.positions && !Collides(p, b.positions[i]);
      }
    }
    forall q | q in ps ensures HasRow(after, q.reservation) {
      assert q in b.positions || q == p;
    }
  }

  lemma TakesKeeps(w: World, id: string, debit: int)
    requires Inv(w) && Enabled(w, VenueTakes(id, debit))
    ensures Inv(Next(w, VenueTakes(id, debit)))
  {
    hide HasRow, PositionsOk, WalletReadsOk;
    var w1, row, rows := Next(w, VenueTakes(id, debit)), RowOf(w.book.rows, id), w.book.rows;
    forall r | r in rows && r.id == id ensures r == row {
      UniqueRow(rows, r);
    }
    forall m ensures SumOfRows(Unposted(w1.taken), m, rows)
                  == SumOfRows(Unposted(w.taken), m, rows) - if m == row.mode then row.amount else 0 {
      SumMoves(Unposted(w.taken), Unposted(w1.taken), m, rows, id, if m == row.mode then -row.amount else 0);
    }
    TakesKeepsReads(w, id, debit);
    assert TakenRowOk(w, row);
    assert TakenOk(w1) && PositionsOk(w1.book) && ObservedOk(w1);
    hide TakenOk, PositionsOk, ObservedOk, WalletReadsOk, UniqueIds;
  }

  lemma TakesKeepsReads(w: World, id: string, debit: int)
    requires Inv(w) && Enabled(w, VenueTakes(id, debit))
    ensures WalletReadsOk(Next(w, VenueTakes(id, debit)))
  {
    hide ObservedOk, Covered, PositionsOk, TakenRowOk;
    var w1, row, rows := Next(w, VenueTakes(id, debit)), RowOf(w.book.rows, id), w.book.rows;
    forall r | r in w.walletReads
      ensures SumOfRows(Unseen(w1.taken, r.seen), r.mode, rows)
           == SumOfRows(Unseen(w.taken, r.seen), r.mode, rows) + if r.mode == row.mode then debit else 0 {
      SumMoves(Unseen(w.taken, r.seen), Unseen(w1.taken, r.seen), r.mode, rows, id, if r.mode == row.mode then debit
          else 0);
    }
  }

  lemma WalletKeeps(w: World, mode: Mode, n: int)
    requires Inv(w)
    ensures n >= 0 ==> Inv(Next(w, WalletGains(mode, n)))
    ensures Enabled(w, WalletRead(mode, n)) ==> Inv(Next(w, WalletRead(mode, n)))
  {
    hide Inv, Enabled, Next;
    if n >= 0 {
      WalletGainsKeeps(w, mode, n);
    }
    if Enabled(w, WalletRead(mode, n)) {
      WalletReadKeeps(w, mode, n);
    }
  }

  lemma WalletGainsKeeps(w: World, mode: Mode, n: nat)
    requires Inv(w)
    ensures Inv(Next(w, WalletGains(mode, n)))
  {
    hide SumOfRows, LatestCash, PositionsOk, HasEvent;
  }

  lemma WalletReadKeeps(w: World, mode: Mode, ts: int)
    requires Inv(w) && Enabled(w, WalletRead(mode, ts))
    ensures Inv(Next(w, WalletRead(mode, ts)))
  {
    hide SumOfRows, LatestCash, PositionsOk, HasEvent;
    SeenEverything(w.taken, mode, w.book.rows);
    var w1 := Next(w, WalletRead(mode, ts));
    forall i, j | 0 <= i < j < |w1.walletReads| && w1.walletReads[i].mode == w1.walletReads[j].mode
      ensures w1.walletReads[i].ts <= w1.walletReads[j].ts && w1.walletReads[i].seen <= w1.walletReads[j].seen {
      assert w.walletReads[i] in w.walletReads;
    }
  }

  lemma {:induction false} SeenEverything(taken: map<string, int>, mode: Mode, rows: seq<Row>)
    ensures SumOfRows(Unseen(taken, taken.Keys), mode, rows) == 0
  {
    if rows != [] {
      SeenEverything(taken, mode, rows[1..]);
    }
  }

  lemma LatestAfter(cash: seq<Cash>, c: Cash, mode: Mode)
    requires c.mode == mode ==> LatestCash(cash, mode).None? || c.ts >= LatestCash(cash, mode).value.ts
    ensures LatestCash(cash + [c], mode) == if c.mode == mode then Some(c) else LatestCash(cash, mode)
  {
    assert (cash + [c])[..|cash|] == cash;
  }

  /** A later observation of a book has seen everything an earlier one had. */
  lemma LaterSeesMore(w: World, i: int, earlier: Read)
    requires WalletReadsOk(w) && 0 <= i < |w.walletReads| && earlier in w.walletReads
    requires earlier.mode == w.walletReads[i].mode && earlier.ts < w.walletReads[i].ts
    ensures earlier.seen <= w.walletReads[i].seen
  {
    var j :| 0 <= j < |w.walletReads| && w.walletReads[j] == earlier;
    assert j != i;
  }

  /** Neither an observation nor a registration moves margin. */
  lemma OtherTablesMoveNoMargin(w: World, w1: World)
    requires TakenOk(w) && WalletReadsOk(w) && Covered(w)
    requires w1 == w.(book := w.book.(cash := w1.book.cash, instances := w1.book.instances), observed := w1.observed)
    ensures TakenOk(w1) && WalletReadsOk(w1) && Covered(w1)
  {
    hide SumOfRows;
  }

  /** Every row that a reading may acknowledge was posted, and its margin had left the wallet when it was read. */
  lemma ReflectedMayBeSet(w: World, i: int, reflected: seq<string>)
    requires UniqueIds(w.book.rows) && TakenOk(w) && 0 <= i < |w.walletReads|
    requires var r := w.walletReads[i];
      && r.mode in w.observed && w.observed[r.mode] == r && Ids(reflected) <= r.seen
      && forall id :: id in reflected ==> Reflectable(w.book.rows, id, r.mode)
    ensures forall x :: x in w.book.rows ==> MaySet(w, x, Ids(reflected), Accounted)
  {
    var ids := Ids(reflected);
    forall x | x in w.book.rows ensures MaySet(w, x, ids, Accounted) {
      if x.id in ids {
        assert x.id in reflected && Reflectable(w.book.rows, x.id, w.walletReads[i].mode);
        UniqueRow(w.book.rows, x);
        assert TakenRowOk(w, x);
      }
    }
  }

  lemma ObservedKeeps(w: World, event: string, i: int, reflected: seq<string>)
    requires Inv(w) && Enabled(w, CashObserved(event, i, reflected))
    ensures Inv(Next(w, CashObserved(event, i, reflected)))
  {
    hide SumOfRows, CommittedMargin, LatestCash, Reflectable, MaySet, TakenOk, WalletReadsOk, Covered;
    var r := w.walletReads[i];
    var o := ObserveCash(w.book, event, r.mode, r.ts, r.cash, reflected);
    if o.Committed? && !HasEvent(w.book.cash, event) {
      var ids := Ids(reflected);
      var row := Cash(event, r.mode, r.ts, r.cash, ids);
      var w1 := w.(book := w.book.(cash := w.book.cash + [row]), observed := w.observed[r.mode := r]);
      NewestObserved(w, row, i);
      OtherTablesMoveNoMargin(w, w1);
      ReflectedMayBeSet(w1, i, reflected);
      AccountedKeepsPositions(w.book, ids, r.mode);
      hide ObservedOk, PositionsOk;
      StatusKeepsCash(w1, ids, Accounted);
    }
  }

  lemma NewestObserved(w: World, row: Cash, i: int)
    requires ObservedOk(w) && WalletReadsOk(w) && 0 <= i < |w.walletReads|
    requires var r := w.walletReads[i]; row.mode == r.mode && row.ts == r.ts && row.available == r.cash
    requires var latest := LatestCash(w.book.cash, row.mode); latest.Some? ==> row.ts > latest.value.ts
    ensures ObservedOk(w.(book := w.book.(cash := w.book.cash + [row]),
        observed := w.observed[row.mode := w.walletReads[i]]))
  {
    var w1 := w.(book := w.book.(cash := w.book.cash + [row]), observed := w.observed[row.mode := w.walletReads[i]]);
    assert ObservedFor(w, row.mode);
    if row.mode in w.observed {
      LaterSeesMore(w, i, w.observed[row.mode]);
    }
    hide WalletReadsOk, LatestCash;
    LatestAfter(w.book.cash, row, LiveBook);
    LatestAfter(w.book.cash, row, PaperBook);
  }

  lemma AccountedKeepsPositions(b: Book, ids: set<string>, mode: Mode)
    requires PositionsOk(b) && UniqueIds(b.rows) && forall id :: id in ids ==> Reflectable(b.rows, id, mode)
    ensures PositionsOk(b.(rows := SetStatus(b.rows, ids, Accounted)))
  {
    var after := SetStatus(b.rows, ids, Accounted);
    StatusesKeepIds(b.rows, ids, Accounted);
    forall row | row in after ensures row.status in {Posted, Accounted} <==> HasReservation(b.positions, row.id) {
      var i :| 0 <= i < |b.rows| && after[i] == row;
      assert b.rows[i] in b.rows;
      UniqueRow(b.rows, b.rows[i]);
    }
  }

  lemma RegistersKeeps(w: World, instance: string, mode: Mode, rules: string)
    requires Inv(w)
    ensures Inv(Next(w, ClientRegisters(instance, mode, rules)))
  {
    hide SumOfRows, LatestCash, HasEvent, HasRow, RowOf, HasReservation, TakenOk, WalletReadsOk, Covered;
    OtherTablesMoveNoMargin(w, Next(w, ClientRegisters(instance, mode, rules)));
  }

  lemma StepKeeps(w: World, a: Act)
    requires Inv(w) && Enabled(w, a)
    ensures Inv(Next(w, a))
  {
    hide Inv, Enabled, Next;
    match a
    case ClientRegisters(instance, mode, rules) => RegistersKeeps(w, instance, mode, rules);
    case ClientReserves(id, instance, campaign, amount, now, maxAge) =>
      ReservesKeeps(w, id, instance, campaign, amount, now, maxAge);
    case ClientReleases(id) => ReleasesKeeps(w, id);
    case ClientRecords(position, reservation, k, remote) => RecordsKeeps(w, position, reservation, k, remote);
    case VenueTakes(id, debit) => TakesKeeps(w, id, debit);
    case WalletGains(mode, credit) => GainIsPositive(w, mode, credit); WalletKeeps(w, mode, credit);
    case WalletRead(mode, ts) => WalletKeeps(w, mode, ts);
    case CashObserved(event, i, reflected) => ObservedKeeps(w, event, i, reflected);
  }

  lemma GainIsPositive(w: World, mode: Mode, credit: int)
    requires Enabled(w, WalletGains(mode, credit))
    ensures credit >= 0
  {
  }

  // ---- every run ----

  ghost predicate Follows(w: World, script: seq<Act>, end: World)
    decreases |script|
  {
    if script == [] then w == end else Enabled(w, script[0]) && Follows(Next(w, script[0]), script[1..], end)
  }

  ghost predicate Reachable(w: World) {
    exists script :: Follows(Initial, script, w)
  }

  lemma {:induction false} RunKeeps(w: World, script: seq<Act>, end: World)
    requires Inv(w) && Follows(w, script, end)
    ensures Inv(end)
    decreases |script|
  {
    if script != [] {
      hide Inv, Enabled, Next;
      StepKeeps(w, script[0]);
      RunKeeps(Next(w, script[0]), script[1..], end);
    }
  }

  lemma ReachableInv(w: World)
    requires Reachable(w)
    ensures Inv(w)
  {
    var script :| Follows(Initial, script, w);
    RunKeeps(Initial, script, w);
  }

  /**
   However many clients reserve, cancel and post concurrently, and however old the
   newest observation is, what is reserved but not yet taken never exceeds the true
   wallet of its book.
   */
  lemma NeverOversubscribed(w: World, mode: Mode)
    requires Reachable(w)
    ensures SumOfRows(Unposted(w.taken), mode, w.book.rows) <= Wallet(w, mode)
  {
    ReachableInv(w);
  }

  predicate DrawsOn(b: Book, i: int, reservation: string) {
    0 <= i < |b.positions| && b.positions[i].reservation == reservation
  }

  /** Posted or accounted margin has exactly one owned position, any other reservation none. */
  lemma OnePositionPerPosting(w: World, r: Row)
    requires Reachable(w) && r in w.book.rows
    ensures r.status in {Posted, Accounted} <==> HasReservation(w.book.positions, r.id)
    ensures forall i, j :: DrawsOn(w.book, i, r.id) && DrawsOn(w.book, j, r.id) ==> i == j
  {
    ReachableInv(w);
    var ps := w.book.positions;
    forall i, j | DrawsOn(w.book, i, r.id) && DrawsOn(w.book, j, r.id) ensures i == j {
      assert i < j ==> !Collides(ps[i], ps[j]);
      assert j < i ==> !Collides(ps[j], ps[i]);
    }
  }

  predicate Forward(before: Status, after: Status) {
    || before == after
    || (before == Reserved && after == Released)
    || (before == Reserved && after == Posted)
    || (before == Posted && after == Accounted)
  }

  /** One row of the reservation table after a step. */
  predicate MovesForward(before: seq<Row>, after: seq<Row>, i: nat)
    requires i < |before|
  {
    && i < |after| && after[i] == before[i].(status := after[i].status) && Forward(before[i].status, after[i].status)
  }

  lemma ReservesForward(w: World, a: Act, i: nat)
    requires Inv(w) && a.ClientReserves? && Enabled(w, a) && i < |w.book.rows|
    ensures MovesForward(w.book.rows, Next(w, a).book.rows, i)
  {
    hide Inv, CommittedMargin, LatestCash, HasRow, RowOf;
  }

  lemma ReleasesForward(w: World, a: Act, i: nat)
    requires Inv(w) && a.ClientReleases? && Enabled(w, a) && i < |w.book.rows|
    ensures MovesForward(w.book.rows, Next(w, a).book.rows, i)
  {
    hide TakenOk, WalletReadsOk, Covered, ObservedOk, PositionsOk;
    UniqueRow(w.book.rows, w.book.rows[i]);
  }

  lemma RecordsForward(w: World, a: Act, i: nat)
    requires Inv(w) && a.ClientRecords? && Enabled(w, a) && i < |w.book.rows|
    ensures MovesForward(w.book.rows, Next(w, a).book.rows, i)
  {
    hide TakenOk, WalletReadsOk, Covered, ObservedOk;
    var r := w.book.rows[i];
    UniqueRow(w.book.rows, r);
    if RecordPosition(w.book, a.position, a.reservation, a.k, a.remote).Committed? && a.reservation == r.id
       && !HasPosition(w.book.positions, a.position) {
      NotYetPosted(w, a, r);
    }
  }

  lemma ObservesForward(w: World, a: Act, i: nat)
    requires Inv(w) && a.CashObserved? && Enabled(w, a) && i < |w.book.rows|
    ensures MovesForward(w.book.rows, Next(w, a).book.rows, i)
  {
    hide TakenOk, WalletReadsOk, Covered, ObservedOk, PositionsOk, LatestCash;
    var r, read := w.book.rows[i], w.walletReads[a.read];
    UniqueRow(w.book.rows, r);
    if r.id in a.reflected && !HasEvent(w.book.cash, a.event)
       && ObserveCash(w.book, a.event, read.mode, read.ts, read.cash, a.reflected).Committed? {
      assert Reflectable(w.book.rows, r.id, read.mode);
    }
  }

  /** A reservation only moves forward, and nothing else about it ever changes. */
  lemma ReservationsMoveForward(w: World, a: Act, i: int)
    requires Reachable(w) && Enabled(w, a) && 0 <= i < |w.book.rows|
    ensures i < |Next(w, a).book.rows|
    ensures Next(w, a).book.rows[i] == w.book.rows[i].(status := Next(w, a).book.rows[i].status)
    ensures Forward(w.book.rows[i].status, Next(w, a).book.rows[i].status)
  {
    hide Reachable, Inv, Reserve, Release, RecordPosition, ObserveCash, Register;
    ReachableInv(w);
    match a {
      case ClientReserves(_, _, _, _, _, _) => ReservesForward(w, a, i);
      case ClientReleases(_) => ReleasesForward(w, a, i);
      case ClientRecords(_, _, _, _) => RecordsForward(w, a, i);
      case CashObserved(_, _, _) => ObservesForward(w, a, i);
      case ClientRegisters(_, _, _) => RegistersForward(w, a, i);
      case _ =>
    }
  }

  lemma RegistersForward(w: World, a: Act, i: nat)
    requires a.ClientRegisters? && Enabled(w, a) && i < |w.book.rows|
    ensures MovesForward(w.book.rows, Next(w, a).book.rows, i)
  {
  }

  lemma NotYetPosted(w: World, a: Act, r: Row)
    requires PositionsOk(w.book) && r in w.book.rows && a.ClientRecords? && a.reservation == r.id
    requires UniqueIds(w.book.rows) && !HasPosition(w.book.positions, a.position)
    requires RecordPosition(w.book, a.position, a.reservation, a.k, a.remote).Committed?
    ensures r.status == Reserved
  {
    UniqueRow(w.book.rows, r);
    var p := Position(a.position, r.instance, r.campaign, a.k, a.remote, r.id);
    forall i | 0 <= i < |w.book.positions| ensures w.book.positions[i].reservation != r.id {
      assert w.book.positions[i] in w.book.positions && !Collides(p, w.book.positions[i]);
    }
  }

  // ---- two books ----

  /** The book an act belongs to. */
  predicate Touches(w: World, a: Act, mode: Mode)
    requires Enabled(w, a)
  {
    match a
    case ClientRegisters(_, _, _) => false
    case ClientReserves(_, instance, _, _, _, _) => instance in w.book.instances
        && w.book.instances[instance].mode == mode
    case ClientReleases(id) => HasRow(w.book.rows, id) && RowOf(w.book.rows, id).mode == mode
    case ClientRecords(_, reservation, _, _) =>
      HasRow(w.book.rows, reservation) && RowOf(w.book.rows, reservation).mode == mode
    case VenueTakes(id, _) => RowOf(w.book.rows, id).mode == mode
    case WalletGains(m, _) => m == mode
    case WalletRead(m, _) => m == mode
    case CashObserved(_, i, _) => w.walletReads[i].mode == mode
  }

  lemma {:induction false} OtherMarginStays(rows: seq<Row>, ids: set<string>, status: Status, mode: Mode)
    requires forall r :: r in rows && r.id in ids ==> r.mode != mode
    ensures CommittedMargin(SetStatus(rows, ids, status), mode) == CommittedMargin(rows, mode)
  {
    if rows != [] {
      assert rows[0] in rows;
      assert SetStatus(rows, ids, status)[1..] == SetStatus(rows[1..], ids, status);
      OtherMarginStays(rows[1..], ids, status, mode);
    }
  }

  lemma {:induction false} MarginAppend(rows: seq<Row>, r: Row, mode: Mode)
    requires r.mode != mode
    ensures CommittedMargin(rows + [r], mode) == CommittedMargin(rows, mode)
  {
    if rows != [] {
      assert (rows + [r])[1..] == rows[1..] + [r];
      MarginAppend(rows[1..], r, mode);
    } else {
      assert CommittedMargin([r], mode) == CommittedMargin([], mode);
    }
  }

  lemma LatestOther(cash: seq<Cash>, c: Cash, mode: Mode)
    requires c.mode != mode
    ensures LatestCash(cash + [c], mode) == LatestCash(cash, mode)
  {
    assert (cash + [c])[..|cash|] == cash;
  }

  predicate SameBook(w: World, w1: World, mode: Mode) {
    && Wallet(w1, mode) == Wallet(w, mode)
    && CommittedMargin(w1.book.rows, mode) == CommittedMargin(w.book.rows, mode)
    && LatestCash(w1.book.cash, mode) == LatestCash(w.book.cash, mode)
  }

  lemma OtherReserves(w: World, id: string, instance: string, campaign: string, amount: int, now: int, maxAge: int,
      mode: Mode)
    requires !Touches(w, ClientReserves(id, instance, campaign, amount, now, maxAge), mode)
    ensures SameBook(w, Next(w, ClientReserves(id, instance, campaign, amount, now, maxAge)), mode)
  {
    hide LatestCash, CommittedMargin;
    var o := Reserve(w.book, id, instance, campaign, amount, now, maxAge);
    if o.Committed? && !HasRow(w.book.rows, id) {
      MarginAppend(w.book.rows, Row(id, instance, w.book.instances[instance].mode, campaign, amount, Reserved), mode);
    }
  }

  lemma OtherRecords(w: World, position: string, reservation: string, k: int, remote: Option<string>, mode: Mode)
    requires UniqueIds(w.book.rows) && Enabled(w, ClientRecords(position, reservation, k, remote))
    requires !Touches(w, ClientRecords(position, reservation, k, remote), mode)
    ensures SameBook(w, Next(w, ClientRecords(position, reservation, k, remote)), mode)
  {
    hide LatestCash, CommittedMargin, SetStatus, Collides;
    ForeignRows(w, {reservation}, mode);
    OtherMarginStays(w.book.rows, {reservation}, Posted, mode);
  }

  lemma OtherObserves(w: World, event: string, i: int, reflected: seq<string>, mode: Mode)
    requires UniqueIds(w.book.rows) && Enabled(w, CashObserved(event, i, reflected))
    requires !Touches(w, CashObserved(event, i, reflected), mode)
    ensures SameBook(w, Next(w, CashObserved(event, i, reflected)), mode)
  {
    var r := w.walletReads[i];
    var o := ObserveCash(w.book, event, r.mode, r.ts, r.cash, reflected);
    if o.Committed? && !HasEvent(w.book.cash, event) {
      ForeignReflections(w, reflected, r.mode, mode);
      hide LatestCash, CommittedMargin, SetStatus;
      OtherMarginStays(w.book.rows, Ids(reflected), Accounted, mode);
      LatestOther(w.book.cash, Cash(event, r.mode, r.ts, r.cash, Ids(reflected)), mode);
    }
  }

  lemma OtherReleases(w: World, id: string, mode: Mode)
    requires UniqueIds(w.book.rows) && Enabled(w, ClientReleases(id)) && !Touches(w, ClientReleases(id), mode)
    ensures SameBook(w, Next(w, ClientReleases(id)), mode)
  {
    hide LatestCash, CommittedMargin, SetStatus;
    ForeignRows(w, {id}, mode);
    OtherMarginStays(w.book.rows, {id}, Released, mode);
  }

  /** The live and the paper book never draw on each other: not on cash, nor on observations, nor on margin. */
  lemma BooksApart(w: World, a: Act, mode: Mode)
    requires Reachable(w) && Enabled(w, a) && !Touches(w, a, mode)
    ensures SameBook(w, Next(w, a), mode)
  {
    ReachableInv(w);
    InvUnique(w);
    hide Inv, LatestCash, CommittedMargin;
    match a {
      case ClientReserves(id, instance, campaign, amount, now, maxAge) =>
        OtherReserves(w, id, instance, campaign, amount, now, maxAge, mode);
      case ClientReleases(id) => OtherReleases(w, id, mode);
      case ClientRecords(position, reservation, k, remote) => OtherRecords(w, position, reservation, k, remote, mode);
      case CashObserved(event, i, reflected) => OtherObserves(w, event, i, reflected, mode);
      case _ =>
    }
  }

  lemma InvUnique(w: World)
    requires Inv(w)
    ensures UniqueIds(w.book.rows)
  {
  }

  lemma ForeignRows(w: World, ids: set<string>, mode: Mode)
    requires UniqueIds(w.book.rows)
    requires forall id :: id in ids && HasRow(w.book.rows, id) ==> RowOf(w.book.rows, id).mode != mode
    ensures forall r :: r in w.book.rows && r.id in ids ==> r.mode != mode
  {
    forall r | r in w.book.rows && r.id in ids ensures r.mode != mode {
      UniqueRow(w.book.rows, r);
    }
  }

  lemma ForeignReflections(w: World, reflected: seq<string>, other: Mode, mode: Mode)
    requires UniqueIds(w.book.rows) && other != mode
    requires forall id :: id in reflected ==> Reflectable(w.book.rows, id, other)
    ensures forall r :: r in w.book.rows && r.id in Ids(reflected) ==> r.mode != mode
  {
    ForeignRows(w, Ids(reflected), mode);
  }
}
