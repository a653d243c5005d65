/**
 Whole-run properties of the close-range machine: every operation keeps what a
 restart checks, a restart loses nothing, a live slot is never reused, and the
 bounded indicator windows decide as the full history would.
 */
module CloseRangeProperties {
  import opened Common
  import opened CloseRange
  import Liquidation

  /** Everything a caller can do to a machine after its warm-up. */
  datatype Op =
    | DoAdvance(candle: DailyCandle, activation: int, mode: DirectionMode)
    | DoCompleteNext(candle: DailyCandle, nextTs: int, nextPrice: Price, activation: int, mode: DirectionMode)
    | DoFunding(ts: int, rate: real, fixing: real)
    | DoPrices(ts: int, opening: real, low: real, high: real)
    | DoConfirm(k: int, ts: int, fill: Price)
    | DoDiscard(k: int)
    | DoChildClosed(k: int, ts: int, price: real, reason: Reason)
    | DoParentLiquidated(ts: int, price: real, liquidated: bool)

  function Apply(m: Machine, op: Op): Step {
    match op
    case DoAdvance(c, a, d) => Advance(m, c, a, d)
    case DoCompleteNext(c, ts, p, a, d) => CompleteAndApplyNextOpen(m, c, ts, p, a, d)
    case DoFunding(ts, r, f) => ApplyFunding(m, ts, r, f)
    case DoPrices(ts, o, l, h) => ObservePrices(m, ts, o, l, h)
    case DoConfirm(k, ts, p) => ConfirmOwnedFill(m, k, ts, p)
    case DoDiscard(k) => DiscardUnfilledAddon(m, k)
    case DoChildClosed(k, ts, p, r) => ChildClosed(m, k, ts, p, r)
    case DoParentLiquidated(ts, p, l) => ParentLiquidated(m, ts, p, l)
  }

  /** The machine after a run of operations; an operation that raises leaves what it had changed. */
  function Run(m: Machine, ops: seq<Op>): Machine
    decreases |ops|
  {
    if ops == [] then m else Run(Apply(m, ops[0]).m, ops[1..])
  }

  // ---- every operation keeps a restorable machine ----

  /** Valid, and within the deque bound that restoring imposes on true ranges. */
  predicate Restorable(m: Machine) {
    Valid(m) && |m.ind.trueRanges| <= TR_WINDOW
  }

  lemma {:induction false} RemoveKeepsValid(units: seq<Unit>, k: int)
    requires IncreasingK(units) && k > 0
    ensures IncreasingK(RemoveK(units, k)) && |RemoveK(units, k)| <= |units|
    ensures forall u :: u in RemoveK(units, k) ==> u in units
    ensures units != [] && units[0].k == 0 ==> RemoveK(units, k) != [] && RemoveK(units, k)[0] == units[0]
  {
    if units != [] && units[0].k != k {
      RemoveKeepsValid(units[1..], k);
      forall u | u in RemoveK(units[1..], k) ensures units[0].k < u.k {
        var i :| 0 <= i < |units[1..]| && units[1..][i] == u;
        assert units[i + 1] == u;
      }
    }
  }

  lemma ForgetKeepsCampaign(m: Machine, k: int)
    requires m.campaign.Some? && ValidCampaign(m.campaign.value)
    ensures var s := ForgetClosedChild(m, k);
      s.m.campaign.Some? && ValidCampaign(s.m.campaign.value)
      && s.m == m.(campaign := s.m.campaign)
      && s.m.campaign.value == m.campaign.value.(units := s.m.campaign.value.units)
      && (forall u :: u in s.m.campaign.value.units ==> u in m.campaign.value.units)
  {
    if k > 0 {
      var units := m.campaign.value.units;
      RemoveKeepsValid(units, k);
      var left := RemoveK(units, k);
      var last := left[|left| - 1];
      assert last in left;
      var i :| 0 <= i < |units| && units[i] == last;
      assert units[i].k <= units[|units| - 1].k;
    }
  }

  lemma {:induction false} ConfirmKeepsKs(units: seq<Unit>, k: int, ts: int, price: Price)
    ensures |Confirm(units, k, ts, price)| == |units|
    ensures forall i :: 0 <= i < |units| ==> Confirm(units, k, ts, price)[i].k == units[i].k
    ensures forall i :: 0 <= i < |units| ==> Confirm(units, k, ts, price)[i].origin in {units[i].origin, Live}
    ensures forall i :: 0 <= i < |units| && units[i].k != k ==> Confirm(units, k, ts, price)[i] == units[i]
  {
    if units != [] && units[0].k != k {
      ConfirmKeepsKs(units[1..], k, ts, price);
    }
  }

  /** What observing prices may change: the campaign shrinks or ends, and the price clock moves. */
  ghost predicate ShrinksCampaign(before: Machine, after: Machine) {
    && after == before.(campaign := after.campaign, pendingExit := after.pendingExit, lastPriceTs := after.lastPriceTs)
    && (before.campaign.None? ==> after.campaign.None?)
    && (before.campaign.Some? && after.campaign.Some? ==>
          && after.campaign.value == before.campaign.value.(units := after.campaign.value.units)
          && (forall u :: u in after.campaign.value.units ==> u in before.campaign.value.units))
    && (before.campaign.Some? && after.campaign.Some? && ValidCampaign(before.campaign.value) ==>
          ValidCampaign(after.campaign.value))
  }

  lemma {:induction false} CloseChildrenShrinks(m: Machine, units: seq<Unit>, ts: int, price: real, opening: real)
    requires Evidenced(units) && m.campaign.Some? && ValidCampaign(m.campaign.value)
    ensures ShrinksCampaign(m, CloseChildren(m, units, ts, price, opening).m)
    ensures CloseChildren(m, units, ts, price, opening).m.campaign.Some?
    decreases |units|
  {
    if units != [] {
      if units[0].k == 0 {
        CloseChildrenShrinks(m, units[1..], ts, price, opening);
      } else {
        ForgetKeepsCampaign(m, units[0].k);
        var s := ForgetClosedChild(m, units[0].k);
        if s.out.Ok? {
          CloseChildrenShrinks(s.m, units[1..], ts, price, opening);
        }
      }
    }
  }

  lemma {:induction false} CascadeShrinks(m: Machine, hits: seq<HitAt>, ts: int, opening: real)
    requires m.campaign.Some? && Evidenced(m.campaign.value.units) && ValidCampaign(m.campaign.value)
    ensures ShrinksCampaign(m, Cascade(m, hits, ts, opening).m)
    decreases |hits|
  {
    if hits != [] {
      if hits[0].k == 0 {
        CloseChildrenShrinks(m, m.campaign.value.units, ts, hits[0].price, opening);
      } else {
        ForgetKeepsCampaign(m, hits[0].k);
        var s := ForgetClosedChild(m, hits[0].k);
        if s.out.Ok? {
          CascadeShrinks(s.m, hits[1..], ts, opening);
        }
      }
    }
  }

  lemma PricesShrink(m: Machine, ts: int, opening: real, low: real, high: real)
    requires m.campaign.Some? ==> ValidCampaign(m.campaign.value)
    ensures ShrinksCampaign(m, ObservePrices(m, ts, opening, low, high).m)
  {
    if Observes(m, ts) && Evidenced(m.campaign.value.units) {
      var c := m.campaign.value;
      CascadeShrinks(
        m.(lastPriceTs := Some(ts)),
        Sorted(c.side, HitsOf(c.side, c.units, opening, Adverse(c.side, low, high))), ts, opening);
    }
  }

  lemma ObserveCloseKeeps(m: Machine, candle: DailyCandle)
    requires Restorable(m)
    ensures Restorable(ObserveClose(m, candle).m)
  {
    hide CloseRange.CandidateOf, CloseRange.ObservePrices, CloseRange.SignalOf;
    PricesShrink(m, candle.ts, candle.open, candle.low, candle.high);
  }

  lemma OpenParentKeeps(
    m: Machine, c: Candidate, r: Option<Side>, ts: int, open: Price, activation: int, mode: DirectionMode)
    requires Restorable(m) && m.campaign.None?
    ensures Restorable(OpenParent(m, c, r, ts, open, activation, mode).m)
  {
  }

  lemma OpenAddonKeeps(m: Machine, c: Candidate, ts: int, open: Price, mode: DirectionMode)
    requires Restorable(m) && m.campaign.Some?
    ensures Restorable(OpenAddon(m, c, ts, open, mode).m)
  {
  }

  lemma ApplyOpenKeeps(m: Machine, ts: int, open: Price, activation: int, mode: DirectionMode)
    requires Restorable(m)
    ensures Restorable(ApplyOpen(m, ts, open, activation, mode).m)
  {
    if m.pendingCandidate.Some? {
      var m1 := ExitAtOpen(m, ts, open).m.(pendingCandidate := None);
      if m1.campaign.None? {
        OpenParentKeeps(m1, m.pendingCandidate.value, RecoveredSide(m), ts, open, activation, mode);
      } else {
        OpenAddonKeeps(m1, m.pendingCandidate.value, ts, open, mode);
      }
    }
  }

  lemma AdvanceKeeps(m: Machine, c: DailyCandle, a: int, d: DirectionMode)
    requires Restorable(m)
    ensures Restorable(Advance(m, c, a, d).m)
  {
    ApplyOpenKeeps(m, c.ts, c.open, a, d);
    ObserveCloseKeeps(ApplyOpen(m, c.ts, c.open, a, d).m, c);
  }

  lemma CompleteNextKeeps(m: Machine, c: DailyCandle, ts: int, p: Price, a: int, d: DirectionMode)
    requires Restorable(m)
    ensures Restorable(CompleteAndApplyNextOpen(m, c, ts, p, a, d).m)
  {
    ObserveCloseKeeps(m, c);
    ApplyOpenKeeps(ObserveClose(m, c).m, ts, p, a, d);
  }

  lemma ConfirmKeeps(m: Machine, k: int, ts: int, p: Price)
    requires Restorable(m)
    ensures Restorable(ConfirmOwnedFill(m, k, ts, p).m)
  {
    if m.campaign.Some? {
      ConfirmKeepsKs(m.campaign.value.units, k, ts, p);
    }
  }

  lemma FundingKeeps(m: Machine, ts: int, rate: real, fixing: real)
    requires Restorable(m)
    ensures Restorable(ApplyFunding(m, ts, rate, fixing).m)
  {
  }

  lemma DiscardKeeps(m: Machine, k: int)
    requires Restorable(m)
    ensures Restorable(DiscardUnfilledAddon(m, k).m)
  {
  }

  lemma ChildClosedKeeps(m: Machine, k: int, ts: int, price: real, reason: Reason)
    requires Restorable(m)
    ensures Restorable(ChildClosed(m, k, ts, price, reason).m)
  {
    if m.campaign.Some? {
      ForgetKeepsCampaign(m, k);
    }
  }

  /** Every operation, raising or not, leaves a machine that a restart accepts. */
  lemma OpKeepsRestorable(m: Machine, op: Op)
    requires Restorable(m)
    ensures Restorable(Apply(m, op).m)
  {
    match op
    case DoAdvance(c, a, d) => AdvanceKeeps(m, c, a, d);
    case DoCompleteNext(c, ts, p, a, d) => CompleteNextKeeps(m, c, ts, p, a, d);
    case DoFunding(ts, r, f) => FundingKeeps(m, ts, r, f);
    case DoPrices(ts, o, l, h) => PricesShrink(m, ts, o, l, h);
    case DoConfirm(k, ts, p) => ConfirmKeeps(m, k, ts, p);
    case DoDiscard(k) => DiscardKeeps(m, k);
    case DoChildClosed(k, ts, p, r) => ChildClosedKeeps(m, k, ts, p, r);
    case DoParentLiquidated(ts, p, l) =>
  }

  lemma {:induction false} RunKeepsRestorable(m: Machine, ops: seq<Op>)
    requires Restorable(m)
    ensures Restorable(Run(m, ops))
    decreases |ops|
  {
    if ops != [] {
      OpKeepsRestorable(m, ops[0]);
      RunKeepsRestorable(Apply(m, ops[0]).m, ops[1..]);
    }
  }

  // ---- restarts ----

  lemma RestoreInvertsPersist(m: Machine)
    requires Restorable(m)
    ensures Restore(PersistentState(m)) == Ok(m)
  {
    var s := PersistentState(m);
    forall c | c in s.candles ensures ValidCandle(c) {
      var i :| 0 <= i < |m.ind.candles| && m.ind.candles[i] == c;
    }
  }

  /** Restoring never yields a machine its own checks would refuse. */
  lemma RestoreIsValid(s: Snapshot)
    ensures Restore(s).Ok? ==> Restorable(Restore(s).value)
  {
  }

  /** Stopping after any prefix of a run and restoring gives the same machine and decisions ever after. */
  lemma RestartAnywhere(m: Machine, before: seq<Op>, after: seq<Op>)
    requires Restorable(m)
    ensures Restore(PersistentState(Run(m, before))) == Ok(Run(m, before))
    ensures Run(Restore(PersistentState(Run(m, before))).value, after) == Run(m, before + after)
  {
    RunKeepsRestorable(m, before);
    RestoreInvertsPersist(Run(m, before));
    RunAppend(m, before, after);
  }

  lemma {:induction false} RunAppend(m: Machine, a: seq<Op>, b: seq<Op>)
    ensures Run(m, a + b) == Run(Run(m, a), b)
    decreases |a|
  {
    if a == [] {
      assert a + b == b;
    } else {
      assert (a + b)[0] == a[0] && (a + b)[1..] == a[1..] + b;
      RunAppend(Apply(m, a[0]).m, a[1..], b);
    }
  }

  // ---- a slot filled live is never opened again ----

  predicate OpensParent(s: Step) {
    s.out.Ok? && exists d :: d in s.out.value && d.kind in {PaperParent, HistoricalParent}
  }

  /** The slots of the current campaign that were ever filled live. */
  function Filled(filled: set<int>, op: Op, s: Step): set<int> {
    if op.DoConfirm? && s.out.Ok? then filled + {op.k} else Surviving(filled, s)
  }

  /** A new campaign starts with nothing filled. */
  function Surviving(filled: set<int>, s: Step): set<int> {
    if s.m.campaign.None? || OpensParent(s) then {} else filled
  }

  predicate SlotsSpent(filled: set<int>, m: Machine) {
    m.campaign.Some? ==>
      && (forall k :: k in filled ==> 0 <= k < m.campaign.value.lifetimeUnits)
      && (forall u :: u in m.campaign.value.units && u.origin == Paper ==> u.k !in filled)
  }

  predicate OpensAddon(s: Step, k: int) {
    s.out.Ok? && exists d :: d in s.out.value && d.kind in {PaperAddon, HistoricalAddon} && d.k == Some(k)
  }

  lemma ShrinkKeepsSpent(filled: set<int>, before: Machine, after: Machine)
    requires SlotsSpent(filled, before) && ShrinksCampaign(before, after)
    ensures SlotsSpent(filled, after)
  {
  }

  /** Signals, exits and refusals only. */
  predicate NoOpening(ds: seq<Decision>) {
    forall d :: d in ds ==> d.kind !in {PaperParent, HistoricalParent, PaperAddon, HistoricalAddon}
  }

  lemma {:induction false} CloseChildrenNoOpening(m: Machine, units: seq<Unit>, ts: int, price: real, opening: real)
    requires Evidenced(units)
    ensures var s := CloseChildren(m, units, ts, price, opening); s.out.Ok? ==> NoOpening(s.out.value)
    decreases |units|
  {
    if units != [] {
      if units[0].k == 0 {
        CloseChildrenNoOpening(m, units[1..], ts, price, opening);
      } else if m.campaign.Some? {
        var s := ForgetClosedChild(m, units[0].k);
        CloseChildrenNoOpening(s.m, units[1..], ts, price, opening);
      }
    }
  }

  lemma {:induction false} CascadeNoOpening(m: Machine, hits: seq<HitAt>, ts: int, opening: real)
    requires m.campaign.Some? && Evidenced(m.campaign.value.units)
    ensures var s := Cascade(m, hits, ts, opening); s.out.Ok? ==> NoOpening(s.out.value)
    decreases |hits|
  {
    if hits != [] {
      if hits[0].k == 0 {
        CloseChildrenNoOpening(m, m.campaign.value.units, ts, hits[0].price, opening);
      } else {
        var s := ForgetClosedChild(m, hits[0].k);
        if s.out.Ok? {
          RemoveKeeps(m.campaign.value.units, hits[0].k);
          CascadeNoOpening(s.m, hits[1..], ts, opening);
        }
      }
    }
  }

  lemma PricesNoOpening(m: Machine, ts: int, opening: real, low: real, high: real)
    ensures var s := ObservePrices(m, ts, opening, low, high); s.out.Ok? ==> NoOpening(s.out.value)
  {
    if Observes(m, ts) && Evidenced(m.campaign.value.units) {
      var c := m.campaign.value;
      CascadeNoOpening(
        m.(lastPriceTs := Some(ts)),
        Sorted(c.side, HitsOf(c.side, c.units, opening, Adverse(c.side, low, high))), ts, opening);
    }
  }

  lemma ObserveCloseSpends(filled: set<int>, m: Machine, candle: DailyCandle)
    requires Restorable(m) && SlotsSpent(filled, m)
    ensures var s := ObserveClose(m, candle);
      SlotsSpent(filled, s.m) && (s.out.Ok? ==> NoOpening(s.out.value))
  {
    PricesShrink(m, candle.ts, candle.open, candle.low, candle.high);
    PricesNoOpening(m, candle.ts, candle.open, candle.low, candle.high);
    ShrinkKeepsSpent(filled, m, ObservePrices(m, candle.ts, candle.open, candle.low, candle.high).m);
  }

  lemma ApplyOpenSpends(filled: set<int>, m: Machine, ts: int, open: Price, activation: int, mode: DirectionMode)
    requires Restorable(m) && SlotsSpent(filled, m)
    ensures var s := ApplyOpen(m, ts, open, activation, mode);
      && SlotsSpent(Surviving(filled, s), s.m)
      && (forall k :: OpensAddon(s, k) ==> k !in filled)
      && (OpensParent(s) ==> forall k :: !OpensAddon(s, k))
  {
    var s := ApplyOpen(m, ts, open, activation, mode);
    if m.pendingCandidate.Some? {
      var exit := ExitAtOpen(m, ts, open);
      var m1 := exit.m.(pendingCandidate := None);
      if m1.campaign.None? {
        var p := OpenParent(m1, m.pendingCandidate.value, RecoveredSide(m), ts, open, activation, mode);
        if p.m.campaign.Some? {
          assert p.out.value[0] in s.out.value;
        }
      }
    }
  }

  lemma ChainOpens(first: Step, second: Step)
    requires first.out.Ok? && second.out.Ok? && (NoOpening(first.out.value) || NoOpening(second.out.value))
    ensures var other := if NoOpening(first.out.value) then second else first;
      && (OpensParent(Chain(first, second)) <==> OpensParent(other))
      && forall k :: OpensAddon(Chain(first, second), k) <==> OpensAddon(other, k)
  {
    var all := Chain(first, second).out.value;
    forall d | d in first.out.value || d in second.out.value ensures d in all {
    }
  }

  lemma QuietThenOpen(filled: set<int>, quiet: Step, opening: Step)
    requires quiet.out.Ok? && NoOpening(quiet.out.value)
    requires SlotsSpent(Surviving(filled, opening), opening.m)
    requires forall k :: OpensAddon(opening, k) ==> k !in filled
    ensures SlotsSpent(Surviving(filled, Chain(quiet, opening)), Chain(quiet, opening).m)
    ensures forall k :: OpensAddon(Chain(quiet, opening), k) ==> k !in filled
  {
    if opening.out.Ok? {
      ChainOpens(quiet, opening);
    }
  }

  /** Observing a close raises only for a historical unit without collateral. */
  lemma CloseOfEvidenced(m: Machine, c: DailyCandle)
    requires Restorable(m)
    requires m.campaign.Some? && m.campaign.value.origin == Historical ==> Evidenced(m.campaign.value.units)
    ensures ObserveClose(m, c).out.Ok?
  {
    PricesShrink(m, c.ts, c.open, c.low, c.high);
    if Observes(m, c.ts) {
      Liquidation.CascadeFollowsPath(m, c.ts, c.open, c.low, c.high);
    }
  }

  lemma NewParentEvidenced(m: Machine, ts: int, open: Price, a: int, d: DirectionMode)
    requires OpensParent(ApplyOpen(m, ts, open, a, d))
    ensures var o := ApplyOpen(m, ts, open, a, d);
      o.m.campaign.Some? && (o.m.campaign.value.origin == Historical ==> Evidenced(o.m.campaign.value.units))
  {
  }

  lemma AdvanceSpends(filled: set<int>, m: Machine, c: DailyCandle, a: int, d: DirectionMode)
    requires Restorable(m) && SlotsSpent(filled, m)
    ensures SlotsSpent(Surviving(filled, Advance(m, c, a, d)), Advance(m, c, a, d).m)
    ensures forall k :: OpensAddon(Advance(m, c, a, d), k) ==> k !in filled
  {
    hide Restorable, CloseRange.ObserveClose, CloseRange.ApplyOpen;
    var o := ApplyOpen(m, c.ts, c.open, a, d);
    ApplyOpenKeeps(m, c.ts, c.open, a, d);
    ApplyOpenSpends(filled, m, c.ts, c.open, a, d);
    ObserveCloseSpends(if OpensParent(o) then {} else filled, o.m, c);
    if IsNext(m, c.ts) && o.out.Ok? {
      var close := ObserveClose(o.m, c);
      if OpensParent(o) {
        NewParentEvidenced(m, c.ts, c.open, a, d);
        CloseOfEvidenced(o.m, c);
      }
      if close.out.Ok? {
        ChainOpens(o, close);
      }
    }
  }

  /** A completed day is the close, then the open, or what stopped it. */
  lemma CompleteNextIs(m: Machine, c: DailyCandle, ts: int, p: Price, a: int, d: DirectionMode)
    ensures var s := CompleteAndApplyNextOpen(m, c, ts, p, a, d);
      var close := ObserveClose(m, c);
      || (s.out.Err? && s.m == m)
      || (close.out.Err? && s == close)
      || (close.out.Ok? && s == Chain(close, ApplyOpen(close.m, ts, p, a, d)))
  {
    hide CloseRange.ObserveClose, CloseRange.ApplyOpen;
  }

  lemma RefusalSpends(filled: set<int>, m: Machine, s: Step)
    requires SlotsSpent(filled, m) && s.out.Err? && s.m == m
    ensures SlotsSpent(Surviving(filled, s), s.m) && forall k :: OpensAddon(s, k) ==> k !in filled
  {
  }

  lemma CompleteNextSpends(
    filled: set<int>, m: Machine, c: DailyCandle, ts: int, p: Price, a: int, d: DirectionMode)
    requires Restorable(m) && SlotsSpent(filled, m)
    ensures SlotsSpent(Surviving(filled, CompleteAndApplyNextOpen(m, c, ts, p, a, d)),
        CompleteAndApplyNextOpen(m, c, ts, p, a, d).m)
    ensures forall k :: OpensAddon(CompleteAndApplyNextOpen(m, c, ts, p, a, d), k) ==> k !in filled
  {
    hide Restorable, CloseRange.ObserveClose, CloseRange.ApplyOpen, CloseRange.CompleteAndApplyNextOpen;
    hide SlotsSpent, Surviving, OpensAddon, Chain, NoOpening;
    var close, s := ObserveClose(m, c), CompleteAndApplyNextOpen(m, c, ts, p, a, d);
    ObserveCloseKeeps(m, c);
    ObserveCloseSpends(filled, m, c);
    CompleteNextIs(m, c, ts, p, a, d);
    if s.out.Err? && s.m == m {
      RefusalSpends(filled, m, s);
    } else if close.out.Ok? {
      ApplyOpenSpends(filled, close.m, ts, p, a, d);
      QuietThenOpen(filled, close, ApplyOpen(close.m, ts, p, a, d));
    } else {
      RefusalSpends(filled, close.m, close);
    }
  }

  lemma PricesSpend(filled: set<int>, m: Machine, ts: int, o: real, l: real, h: real)
    requires Restorable(m) && SlotsSpent(filled, m)
    ensures SlotsSpent(Surviving(filled, ObservePrices(m, ts, o, l, h)), ObservePrices(m, ts, o, l, h).m)
    ensures forall k :: OpensAddon(ObservePrices(m, ts, o, l, h), k) ==> k !in filled
  {
    PricesShrink(m, ts, o, l, h);
    PricesNoOpening(m, ts, o, l, h);
    ShrinkKeepsSpent(filled, m, ObservePrices(m, ts, o, l, h).m);
  }

  lemma ConfirmSpends(filled: set<int>, m: Machine, k: int, ts: int, p: Price)
    requires Restorable(m) && SlotsSpent(filled, m)
    ensures var s := ConfirmOwnedFill(m, k, ts, p);
      && (s.out.Ok? ==> SlotsSpent(filled + {k}, s.m))
      && (s.out.Err? ==> s.m == m)
      && (s.out.Ok? ==> s.out.value == [])
  {
    if m.campaign.Some? && HasK(m.campaign.value.units, k) {
      var c := m.campaign.value;
      ConfirmMakesLive(c.units, k, ts, p);
      var i :| 0 <= i < |c.units| && c.units[i].k == k;
      assert c.units[0].k <= c.units[i].k <= c.units[|c.units| - 1].k;
    }
  }

  lemma DiscardSpends(filled: set<int>, m: Machine, k: int)
    requires Restorable(m) && SlotsSpent(filled, m)
    ensures SlotsSpent(Surviving(filled, DiscardUnfilledAddon(m, k)), DiscardUnfilledAddon(m, k).m)
  {
  }

  lemma FundingSpends(filled: set<int>, m: Machine, ts: int, r: real, f: real)
    requires Restorable(m) && SlotsSpent(filled, m)
    ensures SlotsSpent(Surviving(filled, ApplyFunding(m, ts, r, f)), ApplyFunding(m, ts, r, f).m)
  {
  }

  lemma ChildSpends(filled: set<int>, m: Machine, k: int, ts: int, p: real, r: Reason)
    requires Restorable(m) && SlotsSpent(filled, m)
    ensures SlotsSpent(Surviving(filled, ChildClosed(m, k, ts, p, r)), ChildClosed(m, k, ts, p, r).m)
    ensures var s := ChildClosed(m, k, ts, p, r); !exists d :: s.out.Ok? && d in s.out.value && d.kind != UnitExit
  {
    if m.campaign.Some? {
      ForgetKeepsCampaign(m, k);
    }
  }

  /** One operation keeps spent slots spent, and opens no add-on in one of them. */
  lemma OpSpends(filled: set<int>, m: Machine, op: Op)
    requires Restorable(m) && SlotsSpent(filled, m)
    ensures SlotsSpent(Filled(filled, op, Apply(m, op)), Apply(m, op).m)
    ensures forall k :: OpensAddon(Apply(m, op), k) ==> k !in filled
  {
    match op
    case DoAdvance(c, a, d) => AdvanceSpends(filled, m, c, a, d);
    case DoCompleteNext(c, ts, p, a, d) => CompleteNextSpends(filled, m, c, ts, p, a, d);
    case DoFunding(ts, r, f) => FundingSpends(filled, m, ts, r, f);
    case DoPrices(ts, o, l, h) => PricesSpend(filled, m, ts, o, l, h);
    case DoConfirm(k, ts, p) =>
      ConfirmSpends(filled, m, k, ts, p);
    case DoDiscard(k) => DiscardSpends(filled, m, k);
    case DoChildClosed(k, ts, p, r) => ChildSpends(filled, m, k, ts, p, r);
    case DoParentLiquidated(ts, p, l) =>
  }

  lemma {:induction false} ConfirmMakesLive(units: seq<Unit>, k: int, ts: int, price: Price)
    requires IncreasingK(units)
    ensures forall u :: u in Confirm(units, k, ts, price) ==> u.origin == Live || (u in units && u.k != k)
  {
    if units != [] {
      if units[0].k == k {
        assert forall u :: u in units[1..] ==> u.k > k;
      } else {
        ConfirmMakesLive(units[1..], k, ts, price);
      }
    }
  }

  /** The slots filled live after a run. */
  function FilledBy(filled: set<int>, m: Machine, ops: seq<Op>): set<int>
    decreases |ops|
  {
    if ops == [] then filled else FilledBy(Filled(filled, ops[0], Apply(m, ops[0])), Apply(m, ops[0]).m, ops[1..])
  }

  /**
   Over any run from a machine with nothing filled, the next operation opens no
   add-on in a slot that the same campaign already filled live.
   */
  lemma {:induction false} FilledSlotNeverReopens(filled: set<int>, m: Machine, ops: seq<Op>, next: Op, k: int)
    requires Restorable(m) && SlotsSpent(filled, m)
    requires OpensAddon(Apply(Run(m, ops), next), k)
    ensures k !in FilledBy(filled, m, ops)
    decreases |ops|
  {
    if ops == [] {
      OpSpends(filled, m, next);
    } else {
      OpSpends(filled, m, ops[0]);
      OpKeepsRestorable(m, ops[0]);
      FilledSlotNeverReopens(Filled(filled, ops[0], Apply(m, ops[0])), Apply(m, ops[0]).m, ops[1..], next, k);
    }
  }
}
