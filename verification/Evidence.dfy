/**
 Which candles a strategy may learn from. The live loop marks a timeframe whose evidence
 broke, withholds its candles until the exact recorded one is replayed, and stores the marks
 beside the strategy's state, so that a restart brings both back together.
 */
module Evidence {
  import opened Common
  import opened MultiTimeframe

  /** The candles a strategy has learned from, newest last, and the recorded start of each broken timeframe. */
  datatype Model = Model(history: map<Timeframe, seq<Bar>>, health: map<Timeframe, int>)

  const Untaught := Model(map[], map[])

  function History(m: Model, tf: Timeframe): seq<Bar> { if tf in m.history then m.history[tf] else [] }

  /** The newest candle the strategy has committed. */
  function Committed(m: Model, tf: Timeframe): Option<int> {
    if History(m, tf) == [] then None else Some(LastOf(History(m, tf)).ts)
  }

  predicate AlreadyCommitted(m: Model, bar: Bar) {
    Committed(m, bar.timeframe).Some? && bar.ts <= Committed(m, bar.timeframe).value
  }

  function Expected(m: Model, bar: Bar): int {
    if Committed(m, bar.timeframe).Some? then Committed(m, bar.timeframe).value + Width(bar.timeframe) else bar.ts
  }

  function NextBoundary(ts: int, tf: Timeframe): int { BucketEnd(BucketStart(ts, tf), tf) }

  /** Python's setdefault. */
  function SetDefault(health: map<Timeframe, int>, tf: Timeframe, ts: int): map<Timeframe, int> {
    if tf in health then health else health[tf := ts]
  }

  predicate Sound(m: Model, bar: Bar) { bar.complete && bar.ts <= Expected(m, bar) }

  /** The recorded candle itself, replayed whole and in its turn. */
  predicate Repairs(m: Model, bar: Bar) {
    && !AlreadyCommitted(m, bar) && Sound(m, bar) && bar.warmup
    && bar.timeframe in m.health && m.health[bar.timeframe] == bar.ts
  }

  /** The marks after one candle's own evidence was judged. */
  function Judged(m: Model, bar: Bar, subs: set<Timeframe>): map<Timeframe, int> {
    if bar.timeframe !in subs || AlreadyCommitted(m, bar) then m.health
    else if !Sound(m, bar) then
      SetDefault(m.health, bar.timeframe, if Expected(m, bar) < bar.ts then Expected(m, bar) else bar.ts)
    else if Repairs(m, bar) then m.health - {bar.timeframe}
    else m.health
  }

  /** The marks after one bar: a live gap breaks every subscribed timeframe. */
  function Marks(m: Model, bar: Bar, subs: set<Timeframe>): map<Timeframe, int> {
    var health := Judged(m, bar, subs);
    if bar.evidenceGap && !bar.warmup then
      map tf | tf in health.Keys + subs :: if tf in health then health[tf] else NextBoundary(bar.ts, tf)
    else health
  }

  /** A strategy commits a subscribed candle that is newer than what it has. */
  function Learn(m: Model, bar: Bar, subs: set<Timeframe>): Model {
    if bar.timeframe !in subs || AlreadyCommitted(m, bar) then m
    else m.(history := m.history[bar.timeframe := History(m, bar.timeframe) + [bar]])
  }

  predicate Withheld(m: Model, bar: Bar) { bar.timeframe in m.health && !AlreadyCommitted(m, bar) }

  /** One bar handed straight to the strategy. */
  function Observe(m: Model, bar: Bar, subs: set<Timeframe>): Model {
    var marked := m.(health := Marks(m, bar, subs));
    if Withheld(marked, bar) then marked else Learn(marked, bar, subs)
  }

  class Owner {
    const subs: seq<Timeframe>
    var history: map<Timeframe, seq<Bar>>
    var health: map<Timeframe, int>

    function State(): Model
      reads this
    {
      Model(history, health)
    }

    constructor (subs: seq<Timeframe>)
      ensures this.subs == subs && State() == Untaught
    {
      this.subs, history, health := subs, map[], map[];
    }

    /** Record the first broken candle of a timeframe only. */
    method SetDefaultMark(tf: Timeframe, ts: int)
      modifies `health
      ensures health == SetDefault(old(health), tf, ts)
    {
      if tf !in health {
        health := health[tf := ts];
      }
    }

    method OnBar(bar: Bar)
      modifies `history
      ensures State() == Learn(old(State()), bar, Set(subs))
    {
      if bar.timeframe in subs && !AlreadyCommitted(State(), bar) {
        history := history[bar.timeframe := History(State(), bar.timeframe) + [bar]];
      }
    }

    method ProcessBar(bar: Bar)
      modifies this
      ensures State() == Observe(old(State()), bar, Set(subs))
    {
      var committed := Committed(State(), bar.timeframe);
      var alreadyCommitted := committed.Some? && bar.ts <= committed.value;
      if bar.timeframe in subs && !alreadyCommitted {
        var expected := if committed.Some? then committed.value + Width(bar.timeframe) else bar.ts;
        if !bar.complete || bar.ts > expected {
          SetDefaultMark(bar.timeframe, if expected < bar.ts then expected else bar.ts);
        } else if bar.warmup && bar.timeframe in health && health[bar.timeframe] == bar.ts {
          health := health - {bar.timeframe};
        }
      }
      ghost var judged := health;
      assert judged == Judged(old(State()), bar, Set(subs));
      if bar.evidenceGap && !bar.warmup {
        var i := 0;
        while i < |subs|
          invariant 0 <= i <= |subs| && history == old(history)
          invariant health.Keys == judged.Keys + Set(subs[..i])
          invariant forall tf :: tf in health ==>
                                   health[tf] == if tf in judged then judged[tf] else NextBoundary(bar.ts, tf)
        {
          assert Set(subs[..i + 1]) == Set(subs[..i]) + {subs[i]};
          SetDefaultMark(subs[i], NextBoundary(bar.ts, subs[i]));
          i := i + 1;
        }
        assert subs[..i] == subs;
      }
      assert health == Marks(old(State()), bar, Set(subs));
      var skip := bar.timeframe in health && !alreadyCommitted;
      if !skip {
        OnBar(bar);
      }
    }
  }

  function Set(tfs: seq<Timeframe>): set<Timeframe> { set tf | tf in tfs }

  // ---- runs ----

  /** The live owner, the bars a waiting historical campaign buffers, and the last stored pair. */
  datatype Sys = Sys(live: Model, buffer: seq<Bar>, saved: Option<Model>)

  datatype Act =
    | Direct(bar: Bar)     // judged, then given to the strategy unless withheld
    | Hold(bar: Bar)       // judged, then buffered behind a missing settlement
    | Drop(bar: Bar)       // judged; a historical campaign that cannot use it keeps it from the strategy
    | Replay               // the settlement came: the buffered bars reach the strategy
    | Forget               // the replay failed and was rolled back, or the campaign is gone
    | Save                 // a snapshot stores strategy state and marks together
    | Restart              // the process died anywhere; the stored pair comes back

  function Marked(m: Model, bar: Bar, subs: set<Timeframe>): Model { m.(health := Marks(m, bar, subs)) }

  /** A broken timeframe makes a historical model incomplete, which discards its buffer. */
  function Kept(m: Model, buffer: seq<Bar>): seq<Bar> { if m.health == map[] then buffer else [] }

  function LearnAll(m: Model, bars: seq<Bar>, subs: set<Timeframe>): Model {
    if bars == [] then m else Learn(LearnAll(m, bars[..|bars| - 1], subs), LastOf(bars), subs)
  }

  function Next(s: Sys, act: Act, subs: set<Timeframe>): Sys {
    match act
    case Direct(bar) => s.(live := Observe(s.live, bar, subs), buffer := [])
    case Hold(bar) =>
      var m := Marked(s.live, bar, subs);
      s.(live := m, buffer := Kept(m, s.buffer + [bar]))
    case Drop(bar) =>
      var m := Marked(s.live, bar, subs);
      s.(live := m, buffer := Kept(m, s.buffer))
    case Replay => s.(live := LearnAll(s.live, s.buffer, subs), buffer := [])
    case Forget => s.(buffer := [])
    case Save => s.(saved := Some(s.live))
    case Restart => Sys(if s.saved.Some? then s.saved.value else Untaught, [], s.saved)
  }

  /** Live candles sit on their timeframe's grid, as the stream emits them. */
  predicate Aligned(bar: Bar) { BucketStart(bar.ts, bar.timeframe) == bar.ts }

  lemma EndsOnGrid(ts: int, tf: Timeframe)
    requires Supported(tf)
    ensures var end := BucketEnd(BucketStart(ts, tf), tf); BucketStart(end, tf) == end
  {
    hide BucketStart;
    Grid(ts, ts, tf);
    Grid(ts, BucketEnd(BucketStart(ts, tf), tf), tf);
  }

  /** The stream's candles sit on their grid, so the loop's condition on its feed holds. */
  lemma CandlesAreAligned(ms: seq<Bar>, tf: Timeframe, i: nat)
    requires Supported(tf) && i < |DueCandles(ms, tf)|
    ensures DueCandles(ms, tf)[i].timeframe == tf && Aligned(DueCandles(ms, tf)[i])
  {
    hide BucketStart, InBucket, Starts, DueStarts;
    var s := DueStarts(ms, tf)[i];
    assert s in Starts(ms, tf);
    StartsAreExact(ms, tf, s);
    var b :| b in ms && BucketStart(b.ts, tf) == s;
    EndsOnGrid(b.ts, tf);
  }

  /** A historical campaign was reconstructed from committed candles, so its owner has some. */
  predicate Possible(s: Sys, act: Act, subs: set<Timeframe>) {
    match act
    case Direct(bar) => Aligned(bar)
    case Hold(bar) => Aligned(bar) && (bar.timeframe in subs ==> Committed(s.live, bar.timeframe).Some?)
    case Drop(bar) => Aligned(bar)
    case _ => true
  }

  ghost predicate Run(states: seq<Sys>, acts: seq<Act>, subs: set<Timeframe>) {
    && |states| == |acts| + 1
    && (forall i :: 0 <= i < |acts| ==> Possible(states[i], acts[i], subs))
    && forall i :: 0 <= i < |acts| ==> states[i + 1] == Next(states[i], acts[i], subs)
  }

  // ---- the chain ----

  /** Every candle learned is whole, and each is the immediate successor of the one before. */
  predicate Chain(bars: seq<Bar>, tf: Timeframe) {
    && (forall b :: b in bars ==> b.complete && b.timeframe == tf && Aligned(b))
    && forall i :: 0 < i < |bars| ==> bars[i].ts == bars[i - 1].ts + Width(tf)
  }

  ghost predicate Unbroken(m: Model) {
    forall tf :: Chain(History(m, tf), tf)
  }

  /** A buffered candle is the next one or an old one; none is buffered while a timeframe is broken. */
  predicate Waiting(m: Model, bar: Bar, subs: set<Timeframe>) {
    bar.timeframe in subs ==> Aligned(bar) && (AlreadyCommitted(m, bar) || Sound(m, bar))
  }

  ghost predicate AllWaiting(m: Model, bars: seq<Bar>, subs: set<Timeframe>) {
    forall b :: b in bars ==>
                  Waiting(m, b, subs) && (b.timeframe in subs ==> Committed(m, b.timeframe).Some?)
  }

  ghost predicate Inv(s: Sys, subs: set<Timeframe>) {
    && Unbroken(s.live)
    && (s.saved.Some? ==> Unbroken(s.saved.value))
    && AllWaiting(s.live, s.buffer, subs)
    && (s.live.health != map[] ==> s.buffer == [])
  }

  lemma Step(a: int, b: int, tf: Timeframe)
    requires BucketStart(a, tf) == a && BucketStart(b, tf) == b && a < b <= a + Width(tf)
    ensures b == a + Width(tf)
  {
    hide BucketStart;
    BucketStartIsGrid(a, tf);
    BucketStartIsGrid(b, tf);
  }

  /** What a strategy learns beyond its last candle is that candle's immediate successor. */
  lemma LearnKeepsChain(m: Model, bar: Bar, subs: set<Timeframe>)
    requires Unbroken(m) && Waiting(m, bar, subs)
    ensures Unbroken(Learn(m, bar, subs))
    ensures Learn(m, bar, subs).health == m.health
  {
    hide BucketStart, Aligned;
    if bar.timeframe in subs && !AlreadyCommitted(m, bar) {
      var tf, m' := bar.timeframe, Learn(m, bar, subs);
      var before := History(m, tf);
      assert Chain(before, tf);
      if before != [] {
        assert LastOf(before) in before;
        assert BucketStart(bar.ts, tf) == bar.ts && BucketStart(LastOf(before).ts, tf) == LastOf(before).ts by {
          AlignedMeans(bar);
          AlignedMeans(LastOf(before));
        }
        Step(LastOf(before).ts, bar.ts, tf);
      }
      assert Chain(History(m', tf), tf);
      forall other ensures Chain(History(m', other), other) {
        assert other != tf ==> History(m', other) == History(m, other);
        assert Chain(History(m, other), other);
      }
    }
  }

  lemma AlignedMeans(bar: Bar)
    requires Aligned(bar)
    ensures BucketStart(bar.ts, bar.timeframe) == bar.ts
  {
  }

  lemma JudgedStays(m: Model, bar: Bar, subs: set<Timeframe>)
    ensures forall tf :: tf in Judged(m, bar, subs) ==>
                           tf in Marks(m, bar, subs) && Marks(m, bar, subs)[tf] == Judged(m, bar, subs)[tf]
  {
    hide BucketStart, Aligned, NextBoundary, Judged;
  }

  lemma NotWithheldIsSound(m: Model, bar: Bar, subs: set<Timeframe>)
    requires Aligned(bar)
    ensures var marked := Marked(m, bar, subs);
            (marked.health == map[] || !Withheld(marked, bar)) ==> Waiting(marked, bar, subs)
  {
    hide BucketStart, Aligned, NextBoundary, Marks;
    JudgedStays(m, bar, subs);
    var marked := Marked(m, bar, subs);
    if bar.timeframe in subs && !AlreadyCommitted(m, bar) && !Sound(m, bar) {
      assert bar.timeframe in Judged(m, bar, subs);
    }
  }

  /** Marking alone changes no candle. */
  lemma WaitingOther(m: Model, m': Model, bars: seq<Bar>, subs: set<Timeframe>)
    requires m.history == m'.history && AllWaiting(m, bars, subs)
    ensures AllWaiting(m', bars, subs)
  {
    hide BucketStart, Aligned;
  }

  /** Learning one buffered candle leaves the others next in turn, or already committed. */
  lemma WaitingAfter(m: Model, first: Bar, bars: seq<Bar>, subs: set<Timeframe>)
    requires Unbroken(m) && AllWaiting(m, bars, subs) && AllWaiting(m, [first], subs)
    ensures AllWaiting(Learn(m, first, subs), bars, subs)
  {
    hide BucketStart, Aligned, Unbroken;
    assert first in [first];
    if first.timeframe in subs && !AlreadyCommitted(m, first) {
      assert Sound(m, first);
      var m', tf := Learn(m, first, subs), first.timeframe;
      LearnKeepsChain(m, first, subs);
      assert Committed(m', tf).value == first.ts;
      SuccessorOf(m, first, subs);
      forall b | b in bars
        ensures Waiting(m', b, subs) && (b.timeframe in subs ==> Committed(m', b.timeframe).Some?)
      {
        assert b.timeframe != tf ==> History(m', b.timeframe) == History(m, b.timeframe);
      }
    }
  }

  lemma SuccessorOf(m: Model, bar: Bar, subs: set<Timeframe>)
    requires Unbroken(m) && Waiting(m, bar, subs) && bar.timeframe in subs && !AlreadyCommitted(m, bar)
    requires Committed(m, bar.timeframe).Some?
    ensures bar.ts == Committed(m, bar.timeframe).value + Width(bar.timeframe)
  {
    hide BucketStart, Aligned;
    var before := History(m, bar.timeframe);
    assert Chain(before, bar.timeframe) && LastOf(before) in before;
    AlignedMeans(bar);
    AlignedMeans(LastOf(before));
    Step(LastOf(before).ts, bar.ts, bar.timeframe);
  }

  lemma {:induction false} LearnAllKeeps(m: Model, bars: seq<Bar>, subs: set<Timeframe>)
    requires Unbroken(m) && AllWaiting(m, bars, subs)
    ensures Unbroken(LearnAll(m, bars, subs)) && AllWaiting(LearnAll(m, bars, subs), bars, subs)
    ensures LearnAll(m, bars, subs).health == m.health
  {
    hide Unbroken, Learn, AllWaiting;
    AllWaitingSplit(m, bars, subs, bars);
    LearnSome(m, bars, bars, subs);
  }

  lemma AllWaitingSplit(m: Model, bars: seq<Bar>, subs: set<Timeframe>, part: seq<Bar>)
    requires AllWaiting(m, bars, subs) && forall b :: b in part ==> b in bars
    ensures AllWaiting(m, part, subs)
  {
  }

  lemma {:induction false} LearnSome(m: Model, bars: seq<Bar>, all: seq<Bar>, subs: set<Timeframe>)
    requires Unbroken(m) && AllWaiting(m, all, subs) && forall b :: b in bars ==> b in all
    ensures Unbroken(LearnAll(m, bars, subs)) && AllWaiting(LearnAll(m, bars, subs), all, subs)
    ensures LearnAll(m, bars, subs).health == m.health
    decreases |bars|
  {
    hide Unbroken, Learn, AllWaiting, Waiting;
    if bars != [] {
      var init, last := bars[..|bars| - 1], LastOf(bars);
      LearnSome(m, init, all, subs);
      var m' := LearnAll(m, init, subs);
      assert last in bars;
      AllWaitingSplit(m', all, subs, [last]);
      OneWaits(m', last, subs);
      WaitingAfter(m', last, all, subs);
      LearnKeepsChain(m', last, subs);
    }
  }

  lemma OneWaits(m: Model, bar: Bar, subs: set<Timeframe>)
    requires AllWaiting(m, [bar], subs)
    ensures Waiting(m, bar, subs)
  {
    assert bar in [bar];
  }

  lemma SameHistory(m: Model, health: map<Timeframe, int>)
    requires Unbroken(m)
    ensures Unbroken(m.(health := health))
  {
    forall tf ensures Chain(History(m.(health := health), tf), tf) { assert Chain(History(m, tf), tf); }
  }

  lemma DirectKeeps(s: Sys, bar: Bar, subs: set<Timeframe>)
    requires Inv(s, subs) && Aligned(bar)
    ensures Inv(Next(s, Direct(bar), subs), subs)
  {
    hide Unbroken, Learn, Marks, Waiting, Aligned, BucketStart;
    var marked := Marked(s.live, bar, subs);
    SameHistory(s.live, marked.health);
    NotWithheldIsSound(s.live, bar, subs);
    if !Withheld(marked, bar) {
      LearnKeepsChain(marked, bar, subs);
    }
  }

  lemma MarkKeeps(s: Sys, bar: Bar, held: seq<Bar>, subs: set<Timeframe>)
    requires Inv(s, subs) && Aligned(bar)
    requires held == [] || (held == [bar] && (bar.timeframe in subs ==> Committed(s.live, bar.timeframe).Some?))
    ensures var m := Marked(s.live, bar, subs);
            Inv(s.(live := m, buffer := Kept(m, s.buffer + held)), subs)
  {
    hide Unbroken, Learn, Marks, Aligned, BucketStart, Waiting;
    var m := Marked(s.live, bar, subs);
    SameHistory(s.live, m.health);
    NotWithheldIsSound(s.live, bar, subs);
    WaitingOther(s.live, m, s.buffer, subs);
  }

  lemma StepKeeps(s: Sys, act: Act, subs: set<Timeframe>)
    requires Inv(s, subs) && Possible(s, act, subs)
    ensures Inv(Next(s, act, subs), subs)
  {
    hide Unbroken, Learn, Marks, Aligned, BucketStart, Waiting, Observe, AllWaiting;
    match act
    case Direct(bar) => DirectKeeps(s, bar, subs);
    case Hold(bar) => MarkKeeps(s, bar, [bar], subs);
    case Drop(bar) =>
      MarkKeeps(s, bar, [], subs);
      assert s.buffer + [] == s.buffer;
    case Replay =>
      LearnAllKeeps(s.live, s.buffer, subs);
      NoneWait(LearnAll(s.live, s.buffer, subs), subs);
    case Forget => NoneWait(s.live, subs);
    case Save =>
    case Restart =>
      UntaughtIsUnbroken();
      NoneWait(Next(s, act, subs).live, subs);
  }

  lemma NoneWait(m: Model, subs: set<Timeframe>)
    ensures AllWaiting(m, [], subs)
  {
  }

  lemma UntaughtIsUnbroken()
    ensures Unbroken(Untaught)
  {
    forall tf ensures Chain(History(Untaught, tf), tf) {}
  }

  /** In every run, through any crashes, every strategy has learned from an unbroken chain of whole candles only. */
  lemma {:induction false} OnlyUnbrokenEvidence(states: seq<Sys>, acts: seq<Act>, subs: set<Timeframe>, i: nat)
    requires Run(states, acts, subs) && i < |states|
    requires states[0] == Sys(Untaught, [], None)
    ensures Unbroken(states[i].live) && (states[i].saved.Some? ==> Unbroken(states[i].saved.value))
    ensures Inv(states[i], subs)
  {
    hide Unbroken, Next, AllWaiting;
    if i == 0 {
      UntaughtIsUnbroken();
      NoneWait(Untaught, subs);
    } else {
      OnlyUnbrokenEvidence(states, acts, subs, i - 1);
      assert states[i] == Next(states[i - 1], acts[i - 1], subs);
      StepKeeps(states[i - 1], acts[i - 1], subs);
    }
  }

  // ---- a broken timeframe ----

  /** A timeframe broken at one candle, with nothing learned since. */
  ghost predicate Broken(m: Model, tf: Timeframe, mark: int, bars: seq<Bar>) {
    tf in m.health && m.health[tf] == mark && History(m, tf) == bars
  }

  /** The one event that mends it: the recorded candle, whole, replayed in warm-up in its turn. */
  predicate Mends(s: Sys, act: Act, tf: Timeframe) {
    (act.Direct? || act.Hold? || act.Drop?) && act.bar.timeframe == tf && Repairs(s.live, act.bar)
  }

  lemma BrokenStays(m: Model, bar: Bar, subs: set<Timeframe>, tf: Timeframe, mark: int, bars: seq<Bar>)
    requires Broken(m, tf, mark, bars) && !(bar.timeframe == tf && Repairs(m, bar))
    ensures Broken(Marked(m, bar, subs), tf, mark, bars) && Broken(Observe(m, bar, subs), tf, mark, bars)
  {
    hide BucketStart, NextBoundary, Marks;
    JudgedStays(m, bar, subs);
    assert tf in Judged(m, bar, subs) && Judged(m, bar, subs)[tf] == mark;
  }

  /** While a timeframe is broken nothing is learned on it and the mark stays, whatever happens but the exact replay. */
  lemma BrokenUntilMended(s: Sys, act: Act, subs: set<Timeframe>, tf: Timeframe, mark: int, bars: seq<Bar>)
    requires Inv(s, subs) && Broken(s.live, tf, mark, bars) && !Mends(s, act, tf)
    requires act.Restart? ==> s.saved.Some? && Broken(s.saved.value, tf, mark, bars)
    ensures Broken(Next(s, act, subs).live, tf, mark, bars)
  {
    hide Unbroken, Marks, Observe, Repairs, Learn, Waiting;
    match act
    case Direct(bar) => BrokenStays(s.live, bar, subs, tf, mark, bars);
    case Hold(bar) => BrokenStays(s.live, bar, subs, tf, mark, bars);
    case Drop(bar) => BrokenStays(s.live, bar, subs, tf, mark, bars);
    case Replay => assert s.buffer == [];
    case _ =>
  }

  /** Conversely the exact replay mends it, and the strategy learns that candle at once. */
  lemma ExactReplayMends(m: Model, bar: Bar, subs: set<Timeframe>)
    requires bar.timeframe in subs && Repairs(m, bar)
    ensures bar.timeframe !in Observe(m, bar, subs).health
    ensures History(Observe(m, bar, subs), bar.timeframe) == History(m, bar.timeframe) + [bar]
  {
  }

  ghost predicate NeverMended(states: seq<Sys>, acts: seq<Act>, tf: Timeframe)
    requires |states| == |acts| + 1
  {
    forall i :: 0 <= i < |acts| ==> !Mends(states[i], acts[i], tf)
  }

  /**
   Across any number of crashes: once the mark is stored, the timeframe learns nothing and its
   owner's entries stay blocked, in every later state, until the exact recorded candle is replayed.
   */
  lemma {:induction false} StoredMarkHolds(states: seq<Sys>, acts: seq<Act>, subs: set<Timeframe>, tf: Timeframe,
                                           mark: int, bars: seq<Bar>, i: nat)
    requires Run(states, acts, subs) && i < |states| && Inv(states[0], subs)
    requires states[0].saved == Some(states[0].live) && Broken(states[0].live, tf, mark, bars)
    requires NeverMended(states[..i + 1], acts[..i], tf)
    ensures Inv(states[i], subs)
    ensures states[i].saved.Some? && Broken(states[i].saved.value, tf, mark, bars)
    ensures Broken(states[i].live, tf, mark, bars) && EntriesBlocked(states[i].live)
  {
    hide Unbroken, AllWaiting, Observe, Marks, Mends, LearnAll;
    if i > 0 {
      assert NeverMended(states[..i], acts[..i - 1], tf) by {
        forall k | 0 <= k < i - 1 ensures !Mends(states[..i][k], acts[..i - 1][k], tf) {
          assert !Mends(states[..i + 1][k], acts[..i][k], tf);
        }
      }
      StoredMarkHolds(states, acts, subs, tf, mark, bars, i - 1);
      assert !Mends(states[..i + 1][i - 1], acts[..i][i - 1], tf);
      assert states[i] == Next(states[i - 1], acts[i - 1], subs);
      StepKeeps(states[i - 1], acts[i - 1], subs);
      BrokenUntilMended(states[i - 1], acts[i - 1], subs, tf, mark, bars);
    }
  }

  /** An owner with any broken timeframe admits no entry. */
  predicate EntriesBlocked(m: Model) { m.health != map[] }

  // ---- marks no replay can mend ----

  /** A mark beyond the next candle: the gap swallowed more than one boundary. */
  ghost predicate OutOfReach(tf: Timeframe, mark: int, bars: seq<Bar>) {
    bars != [] && mark > LastOf(bars).ts + Width(tf)
  }

  lemma OutOfReachNeverMends(s: Sys, act: Act, tf: Timeframe, mark: int, bars: seq<Bar>)
    requires Broken(s.live, tf, mark, bars) && OutOfReach(tf, mark, bars)
    ensures !Mends(s, act, tf)
  {
  }

  /** Such a timeframe, once stored, stays broken for every run there is: only an operator can mend it. */
  lemma {:induction false} BrokenForever(states: seq<Sys>, acts: seq<Act>, subs: set<Timeframe>, tf: Timeframe,
                                         mark: int, bars: seq<Bar>, i: nat)
    requires Run(states, acts, subs) && i < |states| && Inv(states[0], subs)
    requires states[0].saved == Some(states[0].live) && Broken(states[0].live, tf, mark, bars)
    requires OutOfReach(tf, mark, bars)
    ensures Inv(states[i], subs) && states[i].saved.Some? && Broken(states[i].saved.value, tf, mark, bars)
    ensures Broken(states[i].live, tf, mark, bars) && EntriesBlocked(states[i].live)
  {
    hide Unbroken, AllWaiting, Observe, Marks, Mends, LearnAll, OutOfReach;
    if i > 0 {
      BrokenForever(states, acts, subs, tf, mark, bars, i - 1);
      assert states[i] == Next(states[i - 1], acts[i - 1], subs);
      OutOfReachNeverMends(states[i - 1], acts[i - 1], tf, mark, bars);
      StepKeeps(states[i - 1], acts[i - 1], subs);
      BrokenUntilMended(states[i - 1], acts[i - 1], subs, tf, mark, bars);
    }
  }

  /** A live gap leaves a mark out of reach exactly when the bar after the gap lies beyond the candle due next. */
  lemma GapOutOfReachExactly(m: Model, bar: Bar, subs: set<Timeframe>, tf: Timeframe)
    requires bar.evidenceGap && !bar.warmup && tf in subs && tf !in m.health && bar.timeframe != tf
    requires Committed(m, tf).Some?
    ensures tf in Marks(m, bar, subs)
    ensures OutOfReach(tf, Marks(m, bar, subs)[tf], History(m, tf)) <==>
        BucketStart(bar.ts, tf) > Committed(m, tf).value
  {
    hide BucketStart;
  }

  /** Such a run exists: one committed candle, then a live gap minute two boundaries later, then the snapshot. */
  lemma GapOutOfReachHappens(candle: Bar, minute: Bar) returns (states: seq<Sys>, acts: seq<Act>)
    requires candle.timeframe == M5 && candle.ts == 5 && candle.complete && !candle.evidenceGap
    requires minute.timeframe == M1 && minute.ts == 17 && minute.evidenceGap && !minute.warmup
    ensures Run(states, acts, {M5}) && states[0] == Sys(Untaught, [], None)
    ensures var s := states[|acts|];
            && s.saved == Some(s.live) && Broken(s.live, M5, 20, [candle]) && OutOfReach(M5, 20, [candle])
  {
    var subs := {M5};
    acts := [Direct(candle), Direct(minute), Save];
    var s0 := Sys(Untaught, [], None);
    assert Marks(s0.live, candle, subs) == map[];
    var s1 := Next(s0, acts[0], subs);
    assert History(s1.live, M5) == [candle] && s1.live.health == map[];
    assert Judged(s1.live, minute, subs) == map[];
    assert Marks(s1.live, minute, subs) == map[M5 := 20];
    var s2 := Next(s1, acts[1], subs);
    assert s2.live.history == s1.live.history;
    states := [s0, s1, s2, Next(s2, acts[2], subs)];
  }
}
