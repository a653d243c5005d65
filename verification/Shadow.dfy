/**
 The order-incapable shadow book: a daily pass over completed candles that any
 number of runs may start, stop or race, on whatever source each of them reads.
 */
module Shadow {
  import opened Common
  import opened CloseRange
  import opened CloseRangeProperties
  import opened Portfolio
  import CloseRangeMachine
  import PortfolioStore

  const INSTANCE := "btc_close_range_v1_shadow"

  // ---- one uninterrupted pass ----

  function Day(m: Machine, c: DailyCandle, activation: int): Step {
    Advance(m, c, activation, Both)
  }

  predicate Passes(m: Machine, days: seq<DailyCandle>, activation: int)
    decreases |days|
  {
    days == [] || (Passes(m, days[..|days| - 1], activation)
                   && Day(Pass(m, days[..|days| - 1], activation), days[|days| - 1], activation).out.Ok?)
  }

  function Pass(m: Machine, days: seq<DailyCandle>, activation: int): Machine
    decreases |days|
  {
    if days == [] then m else Day(Pass(m, days[..|days| - 1], activation), days[|days| - 1], activation).m
  }

  function PassRows(m: Machine, days: seq<DailyCandle>, activation: int): set<DecisionRow>
    requires Passes(m, days, activation)
    decreases |days|
  {
    if days == [] then {}
    else
      var c, before := days[|days| - 1], days[..|days| - 1];
      PassRows(m, before, activation)
          + DayRows(INSTANCE, c.ts, Day(Pass(m, before, activation), c, activation).out.value)
  }

  // ---- the source ----

  function UpTo(daily: seq<DailyCandle>, ts: int): seq<DailyCandle> {
    if daily == [] || daily[0].ts > ts then [] else [daily[0]] + UpTo(daily[1..], ts)
  }

  function Beyond(daily: seq<DailyCandle>, ts: int): seq<DailyCandle> {
    if daily == [] then [] else if daily[0].ts > ts then daily else Beyond(daily[1..], ts)
  }

  /** The stored chain must be exactly the source up to the stored day. */
  function VerifyProcessedSource(m: Machine, daily: seq<DailyCandle>): Result<bool> {
    if m.lastBarTs.None? then Err("stored machine has no completed candle")
    else
      var processed := UpTo(daily, m.lastBarTs.value);
      if processed == [] || processed[|processed| - 1].ts != m.lastBarTs.value then
        Err("daily source is truncated before stored machine state")
      else
        var verifier := Warmup(Blank, processed);
        if verifier.out.Err? then Err(verifier.out.error)
        else if verifier.m.ind.count != m.ind.count || verifier.m.ind.digest != m.ind.digest then
          Err("completed daily source changed after it was processed")
        else Ok(true)
  }

  lemma {:induction false} WarmupChain(m: Machine, candles: seq<DailyCandle>)
    requires WarmupFrom(m, candles).out.Ok?
    ensures WarmupFrom(m, candles).m.ind.digest == m.ind.digest + candles
    ensures WarmupFrom(m, candles).m.ind.count == m.ind.count + |candles|
    decreases |candles|
  {
    if candles != [] {
      hide CandidateOf;
      var next := m.(pendingCandidate := CandidateOf(m.ind, candles[0]),
                     ind := AppendIndicators(m.ind, candles[0]), lastBarTs := Some(candles[0].ts));
      WarmupChain(next, candles[1..]);
      assert m.ind.digest + [candles[0]] + candles[1..] == m.ind.digest + candles;
    }
  }

  predicate Contiguous(candles: seq<DailyCandle>) {
    forall i :: 0 < i < |candles| ==> candles[i].ts == candles[i - 1].ts + DAY
  }

  lemma {:induction false} WarmupAccepts(m: Machine, candles: seq<DailyCandle>)
    requires candles != [] ==> IsNext(m, candles[0].ts)
    ensures WarmupFrom(m, candles).out.Ok? <==> Contiguous(candles)
    decreases |candles|
  {
    if |candles| > 1 {
      hide CandidateOf, AppendIndicators;
      var next := m.(pendingCandidate := CandidateOf(m.ind, candles[0]),
                     ind := AppendIndicators(m.ind, candles[0]), lastBarTs := Some(candles[0].ts));
      if IsNext(next, candles[1].ts) {
        WarmupAccepts(next, candles[1..]);
        assert Contiguous(candles) <==> Contiguous(candles[1..]) by {
          TailContiguous(candles);
        }
      } else {
        assert WarmupFrom(next, candles[1..]).out.Err?;
      }
    } else if |candles| == 1 {
      assert candles[1..] == [];
    }
  }

  lemma TailContiguous(candles: seq<DailyCandle>)
    requires |candles| > 1 && candles[1].ts == candles[0].ts + DAY
    ensures Contiguous(candles) <==> Contiguous(candles[1..])
  {
    if Contiguous(candles[1..]) {
      forall i | 0 < i < |candles| ensures candles[i].ts == candles[i - 1].ts + DAY {
        if i > 1 {
          assert candles[1..][i - 1].ts == candles[1..][i - 2].ts + DAY;
        }
      }
    }
  }

  /** A run continues exactly when its source up to the stored day is the chain that was processed. */
  lemma AlteredSourceIsRefused(m: Machine, daily: seq<DailyCandle>)
    requires m.lastBarTs.Some? && m.ind.count == |m.ind.digest|
    ensures var processed := UpTo(daily, m.lastBarTs.value);
      VerifyProcessedSource(m, daily).Ok? <==>
        processed != [] && processed[|processed| - 1].ts == m.lastBarTs.value && Contiguous(processed)
        && processed == m.ind.digest
  {
    var processed := UpTo(daily, m.lastBarTs.value);
    BlankWarmup(processed);
    hide Warmup, UpTo;
  }

  lemma BlankWarmup(candles: seq<DailyCandle>)
    ensures Warmup(Blank, candles).out.Ok? <==> Contiguous(candles)
    ensures Warmup(Blank, candles).out.Ok? ==>
      Warmup(Blank, candles).m.ind.digest == candles && Warmup(Blank, candles).m.ind.count == |candles|
  {
    WarmupAccepts(Blank, candles);
    if WarmupFrom(Blank, candles).out.Ok? {
      WarmupChain(Blank, candles);
      assert [] + candles == candles;
    }
    hide WarmupFrom, Contiguous;
  }

  // ---- runs that stop and race ----

  /** One run of the job: the machine it holds and the candles it still has to process. */
  datatype Run = Loading(daily: seq<DailyCandle>) | Running(machine: Machine, todo: seq<DailyCandle>)

  datatype World = World(book: Book, seed: Option<Machine>, activation: int, days: seq<DailyCandle>, runs: map<nat,
      Run>)

  datatype Act =
    | Start(run: nat, daily: seq<DailyCandle>)
    | Load(run: nat)
    | Initialize(run: nat, machine: Machine, activation: int)
    | Proceeds(run: nat)
    | Stop(run: nat)

  predicate Enabled(w: World, a: Act) {
    match a
    case Start(run, daily) => run !in w.runs
    case Load(run) => run in w.runs && w.runs[run].Loading? && INSTANCE in w.book.machines
    case Initialize(run, m, _) =>
      && run in w.runs && w.runs[run].Loading?
      && Restorable(m) && m.lastBarTs.Some? && m.ind.count == |m.ind.digest|
    case Proceeds(run) => run in w.runs && w.runs[run].Running? && w.runs[run].todo != []
    case Stop(run) => run in w.runs
  }

  function Proceed(w: World, run: nat, m: Machine): World
    requires run in w.runs && w.runs[run].Loading?
  {
    var daily := w.runs[run].daily;
    if m.lastBarTs.None? || VerifyProcessedSource(m, daily).Err? then w.(runs := w.runs - {run})
    else w.(runs := w.runs[run := Running(m, Beyond(daily, m.lastBarTs.value))])
  }

  function Next(w: World, a: Act): World
    requires Enabled(w, a)
  {
    match a
    case Start(run, daily) => w.(runs := w.runs[run := Loading(daily)])
    case Load(run) =>
      var m := Restore(w.book.machines[INSTANCE].state);
      if m.Err? then w.(runs := w.runs - {run}) else Proceed(w, run, m.value)
    case Initialize(run, m, activation) =>
      var o := InitializeMachine(w.book, INSTANCE, m.lastBarTs.value, PersistentState(m), activation);
      if o.RolledBack? then w.(runs := w.runs - {run})
      else if INSTANCE in w.book.machines then Proceed(w, run, m)
      else Proceed(w.(book := o.book, seed := Some(m), activation := activation), run, m)
    case Proceeds(run) =>
      var r := w.runs[run];
      var s := Day(r.machine, r.todo[0], w.activation);
      if s.out.Err? || r.machine.lastBarTs.None? then w.(runs := w.runs - {run})
      else
        var o := AdvanceMachine(
          w.book, INSTANCE, r.machine.lastBarTs.value, r.todo[0].ts, PersistentState(s.m), s.out.value);
        if o.RolledBack? then w.(runs := w.runs - {run})
        else
          w.(book := o.book, runs := w.runs[run := Running(s.m, r.todo[1..])],
             days := if o.book == w.book then w.days else w.days + [r.todo[0]])
    case Stop(run) => w.(runs := w.runs - {run})
  }

  // ---- the invariant ----

  ghost predicate ShadowRows(rows: set<DecisionRow>, all: set<DecisionRow>) {
    forall r :: r in rows <==> r in all && r.instance == INSTANCE
  }

  /** The stored state and decisions are those of one pass over the days appended so far. */
  ghost predicate Stored(w: World) {
    if w.seed.None? then INSTANCE !in w.book.machines && w.days == [] && ShadowRows({}, w.book.decisions)
    else
      var m := w.seed.value;
      && Restorable(m) && m.lastBarTs.Some? && Passes(m, w.days, w.activation)
      && INSTANCE in w.book.machines
      && w.book.machines[INSTANCE]
         == MachineRow(m.lastBarTs.value + |w.days| * DAY, PersistentState(Pass(m, w.days, w.activation)), w.activation)
      && ShadowRows(PassRows(m, w.days, w.activation), w.book.decisions)
  }

  predicate Along(w: World, m: Machine, k: nat) {
    k <= |w.days| && w.seed.Some? && m == Pass(w.seed.value, w.days[..k], w.activation)
  }

  /** Every run holds the machine of some earlier point of the same pass. */
  ghost predicate RunsAlong(w: World) {
    forall run :: run in w.runs && w.runs[run].Running? ==> exists k: nat :: Along(w, w.runs[run].machine, k)
  }

  ghost predicate Inv(w: World) {
    Stored(w) && RunsAlong(w)
  }

  lemma {:induction false} PassPrefix(m: Machine, days: seq<DailyCandle>, k: nat, activation: int)
    requires Passes(m, days, activation) && k <= |days|
    ensures Passes(m, days[..k], activation)
    decreases |days|
  {
    if k < |days| {
      assert days[..|days| - 1][..k] == days[..k];
      PassPrefix(m, days[..|days| - 1], k, activation);
    } else {
      assert days[..k] == days;
    }
  }

  /** A day that succeeds is the next one, and leaves the machine at it. */
  lemma DayMoves(m: Machine, c: DailyCandle, activation: int)
    requires Day(m, c, activation).out.Ok? && Restorable(m)
    ensures IsNext(m, c.ts) && Day(m, c, activation).m.lastBarTs == Some(c.ts) && Restorable(Day(m, c, activation).m)
  {
    AdvanceKeeps(m, c, activation, Both);
    hide ApplyOpen, AppendIndicators, CandidateOf, ObservePrices, Age;
  }

  predicate DaysFrom(days: seq<DailyCandle>, ts: int) {
    forall i :: 0 <= i < |days| ==> days[i].ts == ts + (i + 1) * DAY
  }

  lemma {:induction false} PassMoves(m: Machine, days: seq<DailyCandle>, activation: int)
    requires Restorable(m) && m.lastBarTs.Some? && Passes(m, days, activation)
    ensures Restorable(Pass(m, days, activation))
    ensures Pass(m, days, activation).lastBarTs == Some(m.lastBarTs.value + |days| * DAY)
    ensures DaysFrom(days, m.lastBarTs.value)
    decreases |days|
  {
    if days != [] {
      var before, c := days[..|days| - 1], days[|days| - 1];
      PassMoves(m, before, activation);
      DayMoves(Pass(m, before, activation), c, activation);
      hide Restorable, Day;
      OneMoreDay(days, m.lastBarTs.value);
    }
  }

  lemma OneMoreDay(days: seq<DailyCandle>, ts: int)
    requires days != [] && DaysFrom(days[..|days| - 1], ts) && days[|days| - 1].ts == ts + |days| * DAY
    ensures DaysFrom(days, ts)
  {
    forall i | 0 <= i < |days| ensures days[i].ts == ts + (i + 1) * DAY {
      if i < |days| - 1 {
        assert days[..|days| - 1][i] == days[i];
      }
    }
  }

  lemma PassOneMore(m: Machine, days: seq<DailyCandle>, c: DailyCandle, activation: int)
    requires Passes(m, days, activation) && Day(Pass(m, days, activation), c, activation).out.Ok?
    ensures Passes(m, days + [c], activation)
    ensures Pass(m, days + [c], activation) == Day(Pass(m, days, activation), c, activation).m
    ensures PassRows(m, days + [c], activation) == PassRows(m, days, activation)
      + DayRows(INSTANCE, c.ts, Day(Pass(m, days, activation), c, activation).out.value)
  {
    hide Day, DayRows;
    assert (days + [c])[..|days|] == days;
  }

  // ---- each act ----

  lemma FreshAlong(w: World)
    requires Stored(w) && w.seed.Some?
    ensures Along(w, w.seed.value, 0)
    ensures Along(w, Pass(w.seed.value, w.days, w.activation), |w.days|)
  {
    assert w.days[..0] == [] && w.days[..|w.days|] == w.days;
  }

  lemma StartKeeps(w: World, run: nat, daily: seq<DailyCandle>)
    requires Inv(w) && Enabled(w, Start(run, daily))
    ensures Inv(Next(w, Start(run, daily)))
  {
    hide Restorable, Passes, Pass, PassRows;
    AlongStays(w, Next(w, Start(run, daily)));
  }

  /** Runs keep their place while the pass grows. */
  lemma AlongStays(w: World, w1: World)
    requires w1.seed == w.seed && w1.activation == w.activation && w.days <= w1.days
    ensures forall m, k: nat :: Along(w, m, k) ==> Along(w1, m, k)
  {
    forall m, k: nat | Along(w, m, k) ensures Along(w1, m, k) {
      assert w1.days[..k] == w.days[..k];
    }
  }

  lemma StopKeeps(w: World, run: nat)
    requires Inv(w) && run in w.runs
    ensures Inv(w.(runs := w.runs - {run}))
  {
    hide Restorable, Passes, Pass, PassRows;
    AlongStays(w, w.(runs := w.runs - {run}));
  }

  lemma ProceedKeeps(w: World, run: nat, m: Machine, k: nat)
    requires Inv(w) && run in w.runs && w.runs[run].Loading? && Along(w, m, k)
    ensures Inv(Proceed(w, run, m))
  {
    hide Restorable, Passes, Pass, PassRows, VerifyProcessedSource;
    var w1 := Proceed(w, run, m);
    AlongStays(w, w1);
    forall r | r in w1.runs && w1.runs[r].Running? ensures exists j: nat :: Along(w1, w1.runs[r].machine, j) {
      if r == run {
        assert Along(w1, m, k);
      }
    }
  }

  lemma LoadKeeps(w: World, run: nat)
    requires Inv(w) && Enabled(w, Load(run))
    ensures Inv(Next(w, Load(run)))
  {
    var m := w.seed.value;
    var now := Pass(m, w.days, w.activation);
    PassMoves(m, w.days, w.activation);
    RestoreInvertsPersist(now);
    FreshAlong(w);
    hide Restorable, Passes, Pass, PassRows, Restore, PersistentState;
    ProceedKeeps(w, run, now, |w.days|);
  }

  lemma PersistInjective(a: Machine, b: Machine)
    requires Restorable(a) && Restorable(b) && PersistentState(a) == PersistentState(b)
    ensures a == b
  {
    RestoreInvertsPersist(a);
    RestoreInvertsPersist(b);
  }

  lemma InitializeKeeps(w: World, run: nat, m: Machine, activation: int)
    requires Inv(w) && Enabled(w, Initialize(run, m, activation))
    ensures Inv(Next(w, Initialize(run, m, activation)))
  {
    var o := InitializeMachine(w.book, INSTANCE, m.lastBarTs.value, PersistentState(m), activation);
    if o.RolledBack? {
      StopKeeps(w, run);
    } else if INSTANCE in w.book.machines {
      var seed := w.seed.value;
      PassMoves(seed, w.days, w.activation);
      PersistInjective(m, Pass(seed, w.days, w.activation));
      FreshAlong(w);
      ProceedKeeps(w, run, m, |w.days|);
    } else {
      var w1 := w.(book := o.book, seed := Some(m), activation := activation);
      assert Passes(m, [], activation) && Pass(m, [], activation) == m && PassRows(m, [], activation) == {};
      assert Stored(w1);
      NobodyRuns(w);
      FreshAlong(w1);
      hide Restorable, Passes, Pass, PassRows, PersistentState, VerifyProcessedSource;
      ProceedKeeps(w1, run, m, 0);
    }
  }

  lemma NobodyRuns(w: World)
    requires RunsAlong(w) && w.seed.None?
    ensures forall run :: run in w.runs ==> w.runs[run].Loading?
  {
    assert forall m, k: nat :: !Along(w, m, k);
  }

  /** Only the run that stands at the newest day appends; a run that repeats that day changes nothing. */
  lemma StepCases(w: World, run: nat, k: nat)
    requires Inv(w) && Enabled(w, Proceeds(run)) && Along(w, w.runs[run].machine, k)
    requires var r := w.runs[run]; Day(r.machine, r.todo[0], w.activation).out.Ok? && r.machine.lastBarTs.Some?
    ensures var r := w.runs[run];
      var s := Day(r.machine, r.todo[0], w.activation);
      var o := AdvanceMachine(w.book, INSTANCE, r.machine.lastBarTs.value, r.todo[0].ts, PersistentState(s.m),
        s.out.value);
      && (o.Committed? && o.book == w.book ==> s.m == Pass(w.seed.value, w.days, w.activation))
      && (o.Committed? && o.book != w.book ==> r.machine == Pass(w.seed.value, w.days, w.activation))
  {
    var r, m := w.runs[run], w.seed.value;
    var s := Day(r.machine, r.todo[0], w.activation);
    var now := Pass(m, w.days, w.activation);
    PassPrefix(m, w.days, k, w.activation);
    PassMoves(m, w.days[..k], w.activation);
    PassMoves(m, w.days, w.activation);
    DayMoves(r.machine, r.todo[0], w.activation);
    var row := w.book.machines[INSTANCE];
    assert row.state == PersistentState(now) && row.lastTs == m.lastBarTs.value + |w.days| * DAY;
    assert r.machine.lastBarTs.value == m.lastBarTs.value + k * DAY;
    if row.lastTs == r.machine.lastBarTs.value {
      assert k == |w.days| && w.days[..k] == w.days;
    }
    if PersistentState(s.m) == row.state {
      PersistInjective(s.m, now);
    }
    hide Inv, Enabled, Passes, Pass, PassRows, Day, PersistentState, DaysFrom, Restorable, AdvanceMachine;
    OnlyTheNextDayAppends(w.book, r.machine.lastBarTs.value, r.todo[0].ts, PersistentState(s.m), s.out.value);
    RepeatedDay(w.book, r.machine.lastBarTs.value, r.todo[0].ts, PersistentState(s.m), s.out.value);
  }

  lemma RepeatedDay(b: Book, previous: int, ts: int, state: Snapshot, ds: seq<Decision>)
    ensures var o := AdvanceMachine(b, INSTANCE, previous, ts, state, ds);
      o.Committed? && o.book == b ==> INSTANCE in b.machines && b.machines[INSTANCE].state == state
  {
  }

  lemma StepKeeps(w: World, run: nat)
    requires Inv(w) && Enabled(w, Proceeds(run))
    ensures Inv(Next(w, Proceeds(run)))
  {
    var r := w.runs[run];
    var k: nat :| Along(w, r.machine, k);
    var s := Day(r.machine, r.todo[0], w.activation);
    if s.out.Err? || r.machine.lastBarTs.None? {
      StopKeeps(w, run);
    } else {
      StepCases(w, run, k);
      var o := AdvanceMachine(w.book, INSTANCE, r.machine.lastBarTs.value, r.todo[0].ts, PersistentState(s.m),
        s.out.value);
      if o.RolledBack? {
        StopKeeps(w, run);
      } else if o.book == w.book {
        FreshAlong(w);
        MovesAlong(w, Next(w, Proceeds(run)), run, s.m, |w.days|);
      } else {
        Appends(w, run);
      }
    }
  }

  lemma MovesAlong(w: World, w1: World, run: nat, m: Machine, k: nat)
    requires Inv(w) && Along(w1, m, k) && Stored(w1)
    requires w1.seed == w.seed && w1.activation == w.activation && w.days <= w1.days
    requires exists todo :: w1.runs == w.runs[run := Running(m, todo)]
    ensures Inv(w1)
  {
    hide Stored, Pass;
    AlongStays(w, w1);
    forall r | r in w1.runs && w1.runs[r].Running? ensures exists j: nat :: Along(w1, w1.runs[r].machine, j) {
      if r == run {
        assert Along(w1, m, k);
      }
    }
  }

  /** The book after the newest day of the pass was appended. */
  lemma AppendedBook(b: Book, m: Machine, days: seq<DailyCandle>, c: DailyCandle, activation: int, b1: Book)
    requires Restorable(m) && m.lastBarTs.Some? && Passes(m, days, activation)
    requires Day(Pass(m, days, activation), c, activation).out.Ok? && INSTANCE in b.machines
    requires b.machines[INSTANCE].activatedAt == activation
    requires ShadowRows(PassRows(m, days, activation), b.decisions)
    requires var s := Day(Pass(m, days, activation), c, activation);
      b1 == b.(machines := b.machines[INSTANCE := b.machines[INSTANCE].(lastTs := c.ts, state := PersistentState(s.m))],
               decisions := b.decisions + DayRows(INSTANCE, c.ts, s.out.value))
    ensures Stored(World(b1, Some(m), activation, days + [c], map[]))
  {
    PassMoves(m, days, activation);
    DayMoves(Pass(m, days, activation), c, activation);
    PassOneMore(m, days, c, activation);
    hide Restorable, Passes, Pass, PassRows, Day, PersistentState;
    assert |days + [c]| == |days| + 1;
  }

  lemma Appends(w: World, run: nat)
    requires Inv(w) && Enabled(w, Proceeds(run)) && w.runs[run].machine == Pass(w.seed.value, w.days, w.activation)
    requires w.seed.Some? && Next(w, Proceeds(run)).book != w.book
    ensures Inv(Next(w, Proceeds(run)))
  {
    hide Restorable, Passes, Pass, PassRows, Day, PersistentState, DayRows, StoredRows;
    var r, m, w1 := w.runs[run], w.seed.value, Next(w, Proceeds(run));
    var c := r.todo[0];
    PassOneMore(m, w.days, c, w.activation);
    AppendedBook(w.book, m, w.days, c, w.activation, w1.book);
    assert w1.days == w.days + [c] && w1.days[..|w1.days|] == w1.days;
    StoredIgnoresRuns(World(w1.book, Some(m), w.activation, w1.days, map[]), w1);
    hide Stored;
    MovesAlong(w, w1, run, w1.runs[run].machine, |w1.days|);
  }

  lemma StoredIgnoresRuns(w: World, w1: World)
    requires Stored(w) && w1 == w.(runs := w1.runs)
    ensures Stored(w1)
  {
  }

  lemma ActKeeps(w: World, a: Act)
    requires Inv(w) && Enabled(w, a)
    ensures Inv(Next(w, a))
  {
    match a
    case Start(run, daily) => StartKeeps(w, run, daily);
    case Load(run) => LoadKeeps(w, run);
    case Initialize(run, m, activation) => InitializeKeeps(w, run, m, activation);
    case Proceeds(run) => StepKeeps(w, run);
    case Stop(run) => StopKeeps(w, run);
  }

  // ---- every interleaving ----

  ghost predicate Follows(w: World, script: seq<Act>, end: World)
    decreases |script|
  {
    if script == [] then w == end else Enabled(w, script[0]) && Follows(Next(w, script[0]), script[1..], end)
  }

  /** A database on which the shadow job has never run. */
  predicate Untouched(w: World) {
    && w.seed == None && w.days == [] && w.runs == map[] && INSTANCE !in w.book.machines
    && forall r :: r in w.book.decisions ==> r.instance != INSTANCE
  }

  lemma {:induction false} RunKeeps(w: World, script: seq<Act>, end: World)
    requires Inv(w) && Follows(w, script, end)
    ensures Inv(end)
    decreases |script|
  {
    if script != [] {
      hide Inv, Enabled, Next;
      ActKeeps(w, script[0]);
      RunKeeps(Next(w, script[0]), script[1..], end);
    }
  }

  /**
   Stopped anywhere, rerun or raced, whatever candles each run reads: the stored
   machine and decisions are exactly those of one uninterrupted pass from the seed
   over the days it holds, which follow one another without a gap.
   */
  lemma ResumableFold(start: World, script: seq<Act>, w: World)
    requires Untouched(start) && Follows(start, script, w) && w.seed.Some?
    ensures var m := w.seed.value;
      && Passes(m, w.days, w.activation) && m.lastBarTs.Some? && DaysFrom(w.days, m.lastBarTs.value)
      && INSTANCE in w.book.machines
      && w.book.machines[INSTANCE].state == PersistentState(Pass(m, w.days, w.activation))
      && w.book.machines[INSTANCE].lastTs == m.lastBarTs.value + |w.days| * DAY
      && ShadowRows(PassRows(m, w.days, w.activation), w.book.decisions)
  {
    assert Inv(start);
    RunKeeps(start, script, w);
    PassMoves(w.seed.value, w.days, w.activation);
  }

  /** The candles every run reads are those of one source. */
  predicate FromSource(w: World, f: int -> DailyCandle) {
    && (forall c :: c in w.days ==> c == f(c.ts))
    && forall run :: run in w.runs ==>
         forall c :: c in (if w.runs[run].Loading? then w.runs[run].daily else w.runs[run].todo) ==> c == f(c.ts)
  }

  predicate ReadsSource(a: Act, f: int -> DailyCandle) {
    a.Start? ==> forall c :: c in a.daily ==> c == f(c.ts)
  }

  lemma {:induction false} BeyondMembers(daily: seq<DailyCandle>, ts: int)
    ensures forall c :: c in Beyond(daily, ts) ==> c in daily
  {
    if daily != [] {
      BeyondMembers(daily[1..], ts);
    }
  }

  lemma ProceedReads(w: World, run: nat, m: Machine, f: int -> DailyCandle)
    requires FromSource(w, f) && run in w.runs && w.runs[run].Loading?
    ensures FromSource(Proceed(w, run, m), f)
  {
    hide VerifyProcessedSource, Beyond;
    if m.lastBarTs.Some? {
      BeyondMembers(w.runs[run].daily, m.lastBarTs.value);
    }
  }

  lemma SourceStays(w: World, a: Act, f: int -> DailyCandle)
    requires Enabled(w, a) && FromSource(w, f) && ReadsSource(a, f)
    ensures FromSource(Next(w, a), f)
  {
    hide Day, InitializeMachine, AdvanceMachine, Restore, VerifyProcessedSource;
    match a {
      case Load(run) =>
        var m := Restore(w.book.machines[INSTANCE].state);
        if m.Ok? {
          hide Proceed;
          ProceedReads(w, run, m.value, f);
        }
      case Initialize(run, m, activation) =>
        var o := InitializeMachine(w.book, INSTANCE, m.lastBarTs.value, PersistentState(m), activation);
        hide Proceed;
        ProceedReads(w, run, m, f);
        if o.Committed? {
          ProceedReads(w.(book := o.book, seed := Some(m), activation := activation), run, m, f);
        }
      case Proceeds(run) =>
        assert w.runs[run].todo[0] in w.runs[run].todo;
        assert forall c :: c in w.runs[run].todo[1..] ==> c in w.runs[run].todo;
      case _ =>
    }
  }

  /** When all runs read the same source, every day a history appends is the source's. */
  lemma {:induction false} SameSourceSameDays(start: World, script: seq<Act>, w: World, f: int -> DailyCandle)
    requires FromSource(start, f) && Follows(start, script, w)
    requires forall a :: a in script ==> ReadsSource(a, f)
    ensures forall c :: c in w.days ==> c == f(c.ts)
    decreases |script|
  {
    if script != [] {
      assert script[0] in script;
      hide Enabled, Next, FromSource, ReadsSource;
      SourceStays(start, script[0], f);
      SameSourceSameDays(Next(start, script[0]), script[1..], w, f);
    }
  }

  predicate SameSeed(w: World, w1: World) {
    && w.seed.Some? && w.seed == w1.seed && w.activation == w1.activation
    && INSTANCE in w.book.machines && INSTANCE in w1.book.machines
  }

  /**
   Two histories from the same seed on the same source, whatever runs stopped or raced in
   either: the one that got less far holds a prefix of the other's days, and when both stand
   at the same day they hold the same state and the same decisions.
   */
  lemma SameSourceSameBook(
    start: World, script: seq<Act>, w: World, start1: World, script1: seq<Act>, w1: World, f: int -> DailyCandle)
    requires Untouched(start) && Follows(start, script, w) && forall a :: a in script ==> ReadsSource(a, f)
    requires Untouched(start1) && Follows(start1, script1, w1) && forall a :: a in script1 ==> ReadsSource(a, f)
    requires SameSeed(w, w1) && w.book.machines[INSTANCE].lastTs <= w1.book.machines[INSTANCE].lastTs
    ensures w.days <= w1.days
    ensures w.book.machines[INSTANCE].lastTs == w1.book.machines[INSTANCE].lastTs ==>
      && w.days == w1.days && w.book.machines[INSTANCE].state == w1.book.machines[INSTANCE].state
      && forall r: DecisionRow :: r.instance == INSTANCE ==> (r in w.book.decisions <==> r in w1.book.decisions)
  {
    hide Passes, Pass, PassRows;
    ResumableFold(start, script, w);
    ResumableFold(start1, script1, w1);
    SameSourceSameDays(start, script, w, f);
    SameSourceSameDays(start1, script1, w1, f);
    hide Follows, Untouched, ReadsSource;
    forall i | 0 <= i < |w.days| ensures w.days[i] == w1.days[i] {
      assert w.days[i] in w.days && w1.days[i] in w1.days;
    }
  }

  /** A stale or gapped writer changes nothing; the book changes only for the very next day. */
  lemma OnlyTheNextDayAppends(b: Book, previous: int, ts: int, state: Snapshot, ds: seq<Decision>)
    ensures var o := AdvanceMachine(b, INSTANCE, previous, ts, state, ds);
      (o.Committed? && o.book != b)
      <==> INSTANCE in b.machines && b.machines[INSTANCE].lastTs == previous && ts == previous + DAY
  {
  }

  // ---- the job ----

  lemma {:induction false} FollowsOneMore(w: World, script: seq<Act>, mid: World, a: Act)
    requires Follows(w, script, mid) && Enabled(mid, a)
    ensures Follows(w, script + [a], Next(mid, a))
    decreases |script|
  {
    hide Enabled, Next;
    if script == [] {
      assert (script + [a])[1..] == [];
    } else {
      assert (script + [a])[1..] == script[1..] + [a];
      FollowsOneMore(Next(w, script[0]), script[1..], mid, a);
    }
  }

  ghost predicate Reaches(w: World, w1: World) {
    exists script :: Follows(w, script, w1)
  }

  lemma Take(w: World, mid: World, a: Act)
    requires Reaches(w, mid) && Enabled(mid, a)
    ensures Reaches(w, Next(mid, a))
  {
    hide Enabled, Next;
    var script :| Follows(w, script, mid);
    FollowsOneMore(w, script, mid, a);
  }

  /**
   One uninterrupted call of the job, as run 0: load or initialize, verify the source,
   then advance day by day. It ends with how many days it advanced, or with an error
   after which the days already appended stay.
   */
  method AdvanceForwardShadow(
    store: PortfolioStore.PortfolioStore, machine: CloseRangeMachine.CloseRangeMachine, daily: seq<DailyCandle>,
    activatedAt: int, ghost w: World
  ) returns (r: Result<nat>, ghost after: World)
    requires Inv(w) && w.runs == map[] && w.book == store.State()
    requires machine.Valid() && machine.lastBarTs.Some? && machine.sourceCount == |machine.sourceDigest|
    modifies store, machine
    ensures Reaches(w, after) && after.book == store.State()
    ensures w.days <= after.days
    ensures r.Ok? ==> after.seed.Some? && |after.days| <= |w.days| + r.value
    ensures r.Ok? ==> 0 in after.runs && after.runs[0] == Running(machine.State(), [])
  {
    hide Restorable, VerifyProcessedSource, Day, Restore, Beyond;
    assert Follows(w, [], w);
    StoredMeans(w);
    hide Inv, Reaches, PersistentState;
    Take(w, w, Start(0, daily));
    after := Next(w, Start(0, daily));
    if INSTANCE in store.machines {
      Take(w, after, Load(0));
      after := Next(after, Load(0));
      var loaded := machine.Load(store.machines[INSTANCE].state);
      if loaded.Err? {
        return Err(loaded.error), after;
      }
      if machine.lastBarTs.None? {
        return Err("stored machine has no completed candle"), after;
      }
    } else {
      ghost var m := machine.State();
      Take(w, after, Initialize(0, m, activatedAt));
      after := Next(after, Initialize(0, m, activatedAt));
      var state := machine.Save();
      var initialized := store.InitializeMachine(INSTANCE, machine.lastBarTs.value, state, activatedAt);
      if initialized.Err? {
        return Err(initialized.error), after;
      }
    }
    r, after := Continue(store, machine, daily, w, after);
  }

  lemma StoredMeans(w: World)
    requires Inv(w)
    ensures w.seed.Some? <==> INSTANCE in w.book.machines
    ensures INSTANCE in w.book.machines ==> w.book.machines[INSTANCE].activatedAt == w.activation
  {
  }

  method Continue(
    store: PortfolioStore.PortfolioStore, machine: CloseRangeMachine.CloseRangeMachine, daily: seq<DailyCandle>,
    ghost w: World, ghost begun: World
  ) returns (r: Result<nat>, ghost after: World)
    requires Reaches(w, begun) && begun.book == store.State() && begun.seed.Some? && begun.days == w.days
    requires INSTANCE in store.machines && store.machines[INSTANCE].activatedAt == begun.activation
    requires machine.Valid() && machine.lastBarTs.Some?
    requires begun.runs == if VerifyProcessedSource(machine.State(), daily).Err? then map[]
                           else map[0 := Running(machine.State(), Beyond(daily, machine.lastBarTs.value))]
    modifies store, machine
    ensures Reaches(w, after) && after.book == store.State()
    ensures w.days <= after.days
    ensures r.Ok? ==> after.seed.Some? && |after.days| <= |w.days| + r.value
    ensures r.Ok? ==> 0 in after.runs && after.runs[0] == Running(machine.State(), [])
  {
    hide Inv, Restorable, VerifyProcessedSource, Day, Reaches;
    after := begun;
    var verified := VerifyProcessedSource(machine.State(), daily);
    if verified.Err? {
      return Err(verified.error), after;
    }
    var activation := store.machines[INSTANCE].activatedAt;
    var todo, i := Beyond(daily, machine.lastBarTs.value), 0;
    assert todo[0..] == todo;
    while i < |todo|
      invariant 0 <= i <= |todo| && machine.Valid() && machine.lastBarTs.Some?
      invariant Reaches(w, after) && after.book == store.State() && after.activation == activation
      invariant after.seed.Some? && |after.days| <= |w.days| + i && w.days <= after.days
      invariant 0 in after.runs && after.runs[0] == Running(machine.State(), todo[i..])
    {
      var previous, candle := machine.lastBarTs.value, todo[i];
      assert todo[i..][0] == candle && todo[i..][1..] == todo[i + 1..];
      ghost var m := machine.State();
      ghost var mid := after;
      Take(w, mid, Proceeds(0));
      after := Next(mid, Proceeds(0));
      var values := AdvanceOneDay(machine, candle, activation);
      if values.Err? {
        return Err(values.error), after;
      }
      var state := machine.Save();
      var stored := store.AdvanceMachine(INSTANCE, previous, candle.ts, state, values.value);
      if stored.Err? {
        return Err(stored.error), after;
      }
      i := i + 1;
    }
    return Ok(i), after;
  }

  method AdvanceOneDay(machine: CloseRangeMachine.CloseRangeMachine, c: DailyCandle, activation: int)
    returns (r: Result<seq<Decision>>)
    requires machine.Valid()
    modifies machine
    ensures CloseRange.Step(machine.State(), r) == Day(old(machine.State()), c, activation) && machine.Valid()
    ensures r.Ok? ==> machine.lastBarTs == Some(c.ts)
  {
    r := machine.Advance(c, activation, Both);
    if r.Ok? {
      DayMoves(old(machine.State()), c, activation);
    }
  }
}
