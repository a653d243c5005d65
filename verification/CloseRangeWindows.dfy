/**
 Bounded windows against the full history.

 The machine keeps 256 closes and candles, 64 true ranges and an incremental
 average. Here the same quantities are defined on the whole candle history, and
 the two are shown to decide alike over every run.
 */
module CloseRangeWindows {
  import opened Common
  import opened CloseRange
  import opened CloseRangeProperties

  // ---- definitions on the whole history ----

  function Closes(h: seq<DailyCandle>): (r: seq<real>)
    ensures |r| == |h|
  {
    if h == [] then [] else Closes(h[..|h| - 1]) + [h[|h| - 1].close]
  }

  function TrueRanges(h: seq<DailyCandle>): (r: seq<real>)
    ensures |r| == if h == [] then 0 else |h| - 1
  {
    if |h| < 2 then [] else TrueRanges(h[..|h| - 1]) + [TrueRange(h[|h| - 1], h[|h| - 2].close)]
  }

  function Ema(h: seq<DailyCandle>): (r: Option<real>)
    ensures r.Some? <==> h != []
  {
    if h == [] then None else Some(NextEma(Ema(h[..|h| - 1]), h[|h| - 1].close))
  }

  /** The candidate of candle c after the complete history h. */
  function CandidateOn(h: seq<DailyCandle>, c: DailyCandle): Option<Candidate> {
    if |h| < MIN_HISTORY then None
    else Breakout(LastN(Closes(h), 20), LastN(TrueRanges(h), 14), LastN(h, 10), Ema(h).value, c)
  }

  /** The bounded windows that a complete history determines. */
  function Windows(h: seq<DailyCandle>): Indicators {
    Indicators(
      LastN(Closes(h), WINDOW), LastN(h, WINDOW), LastN(TrueRanges(h), TR_WINDOW), Ema(h),
      if h == [] then None else Some(h[|h| - 1].close), h, |h|)
  }

  ghost predicate Contiguous(h: seq<DailyCandle>) {
    forall i, j :: 0 <= i < j < |h| && j == i + 1 ==> h[j].ts == h[i].ts + DAY
  }

  /** The indicators the machine builds by appending a history candle by candle. */
  function Folded(h: seq<DailyCandle>): Indicators {
    if h == [] then BlankIndicators else AppendIndicators(Folded(h[..|h| - 1]), h[|h| - 1])
  }

  // ---- one candle ----

  lemma FoldedAppend(h: seq<DailyCandle>, c: DailyCandle)
    ensures Folded(h + [c]) == AppendIndicators(Folded(h), c)
  {
    assert (h + [c])[..|h|] == h;
  }

  lemma AppendRefines(h: seq<DailyCandle>, c: DailyCandle)
    ensures AppendIndicators(Windows(h), c) == Windows(h + [c])
  {
    var g := h + [c];
    assert g[..|g| - 1] == h;
    PushKeepsSuffix(Closes(h), c.close, WINDOW);
    PushKeepsSuffix(h, c, WINDOW);
    if h != [] {
      PushKeepsSuffix(TrueRanges(h), TrueRange(c, h[|h| - 1].close), TR_WINDOW);
    }
  }

  /** Incremental indicators are the windows of the whole history. */
  lemma {:induction false} FoldedIsWindows(h: seq<DailyCandle>)
    ensures Folded(h) == Windows(h)
  {
    if h != [] {
      var g := h[..|h| - 1];
      FoldedIsWindows(g);
      AppendRefines(g, h[|h| - 1]);
      assert g + [h[|h| - 1]] == h;
    }
  }

  /** The candidate taken from the bounded windows is the one taken from the whole history. */
  lemma CandidateRefines(h: seq<DailyCandle>, c: DailyCandle)
    ensures CandidateOf(Folded(h), c) == CandidateOn(h, c)
  {
    FoldedIsWindows(h);
    LastOfLast(Closes(h), 20, WINDOW);
    LastOfLast(h, 10, WINDOW);
    LastOfLast(TrueRanges(h), 14, TR_WINDOW);
  }

  // ---- warm-up ----

  /** The part of a machine that a warm-up determines. */
  ghost predicate BuiltFrom(m: Machine, h: seq<DailyCandle>) {
    && m.ind == Folded(h)
    && m.lastBarTs == if h == [] then None else Some(h[|h| - 1].ts)
  }

  ghost predicate PendingFollows(m: Machine, h: seq<DailyCandle>) {
    m.pendingCandidate == if h == [] then None else CandidateOn(h[..|h| - 1], h[|h| - 1])
  }

  lemma LoadOne(m: Machine, h: seq<DailyCandle>, c: DailyCandle)
    requires BuiltFrom(m, h)
    ensures var m1 := m.(
        pendingCandidate := CandidateOf(m.ind, c), ind := AppendIndicators(m.ind, c), lastBarTs := Some(c.ts));
      BuiltFrom(m1, h + [c]) && PendingFollows(m1, h + [c])
  {
    FoldedAppend(h, c);
    CandidateRefines(h, c);
    assert (h + [c])[..|h|] == h;
  }

  lemma {:induction false} WarmupFollows(m: Machine, h: seq<DailyCandle>, candles: seq<DailyCandle>)
    requires BuiltFrom(m, h) && PendingFollows(m, h) && Contiguous(h + candles)
    ensures var s := WarmupFrom(m, candles);
      && s.out.Ok?
      && BuiltFrom(s.m, h + candles)
      && PendingFollows(s.m, h + candles)
      && s.m.campaign == m.campaign
    decreases |candles|
  {
    hide CloseRange.AppendIndicators, CloseRange.CandidateOf, CandidateOn, Windows;
    if candles == [] {
      assert h + candles == h;
    } else {
      var c := candles[0];
      LoadOne(m, h, c);
      assert h + candles == (h + [c]) + candles[1..];
      if h != [] {
        assert (h + candles)[|h| - 1] == h[|h| - 1] && (h + candles)[|h|] == c;
      }
      WarmupFollows(
        m.(pendingCandidate := CandidateOf(m.ind, c), ind := AppendIndicators(m.ind, c), lastBarTs := Some(c.ts)),
        h + [c], candles[1..]);
    }
  }

  // ---- runs ----

  /** The candle an operation feeds to the indicators. */
  function Fed(m: Machine, op: Op): seq<DailyCandle> {
    if op.DoAdvance? && Apply(m, op).out.Ok? then [op.candle]
    else if op.DoCompleteNext? && Apply(m, op).out.Ok? then [op.candle]
    else []
  }

  function FedBy(m: Machine, ops: seq<Op>): seq<DailyCandle>
    decreases |ops|
  {
    if ops == [] then [] else Fed(m, ops[0]) + FedBy(Apply(m, ops[0]).m, ops[1..])
  }

  lemma ApplyOpenFrame(m: Machine, ts: int, open: Price, a: int, d: DirectionMode)
    requires Restorable(m)
    ensures var s := ApplyOpen(m, ts, open, a, d); s.out.Ok? && s.m.ind == m.ind && s.m.lastBarTs == m.lastBarTs
  {
  }

  lemma ObserveCloseFrame(m: Machine, c: DailyCandle)
    requires Restorable(m)
    ensures var s := ObserveClose(m, c);
      if s.out.Ok? then
        s.m.ind == AppendIndicators(m.ind, c) && s.m.lastBarTs == Some(c.ts)
        && s.m.pendingCandidate == CandidateOf(m.ind, c)
      else s.m.ind == m.ind && s.m.lastBarTs == m.lastBarTs
  {
    hide CloseRange.AppendIndicators, CloseRange.CandidateOf, CloseRange.ObservePrices, CloseRange.SignalOf;
    PricesShrink(m, c.ts, c.open, c.low, c.high);
  }

  lemma AdvanceFeeds(m: Machine, c: DailyCandle, a: int, d: DirectionMode)
    requires Restorable(m)
    ensures var s := Advance(m, c, a, d);
      if s.out.Ok? then
        IsNext(m, c.ts) && s.m.ind == AppendIndicators(m.ind, c) && s.m.lastBarTs == Some(c.ts)
        && s.m.pendingCandidate == CandidateOf(m.ind, c)
      else s.m.ind == m.ind && s.m.lastBarTs == m.lastBarTs
  {
    hide CloseRange.AppendIndicators, CloseRange.CandidateOf, CloseRange.ApplyOpen, CloseRange.ObserveClose, Restorable;
    ApplyOpenFrame(m, c.ts, c.open, a, d);
    ApplyOpenKeeps(m, c.ts, c.open, a, d);
    ObserveCloseFrame(ApplyOpen(m, c.ts, c.open, a, d).m, c);
  }

  lemma CompleteNextFeeds(m: Machine, c: DailyCandle, ts: int, p: Price, a: int, d: DirectionMode)
    requires Restorable(m)
    ensures var s := CompleteAndApplyNextOpen(m, c, ts, p, a, d);
      if s.out.Ok? then
        IsNext(m, c.ts) && s.m.ind == AppendIndicators(m.ind, c) && s.m.lastBarTs == Some(c.ts)
      else s.m.ind == m.ind && s.m.lastBarTs == m.lastBarTs
  {
    hide CloseRange.AppendIndicators, CloseRange.CandidateOf, CloseRange.ApplyOpen, CloseRange.ObserveClose, Restorable;
    ObserveCloseFrame(m, c);
    ObserveCloseKeeps(m, c);
    ApplyOpenFrame(ObserveClose(m, c).m, ts, p, a, d);
  }

  lemma OtherOpsFeedNothing(m: Machine, op: Op)
    requires Restorable(m) && !op.DoAdvance? && !op.DoCompleteNext?
    ensures var s := Apply(m, op);
      s.m.ind == m.ind && s.m.lastBarTs == m.lastBarTs && s.m.pendingCandidate == m.pendingCandidate
  {
    hide CloseRange.ObservePrices, CloseRange.Advance, CloseRange.CompleteAndApplyNextOpen;
    match op
    case DoPrices(ts, o, l, h) => PricesShrink(m, ts, o, l, h);
    case DoChildClosed(k, ts, p, r) =>
      if m.campaign.Some? {
        ForgetKeepsCampaign(m, k);
      }
    case _ =>
  }

  lemma AdvanceRefuses(m: Machine, c: DailyCandle, a: int, d: DirectionMode)
    requires !IsNext(m, c.ts)
    ensures Advance(m, c, a, d).m == m && Advance(m, c, a, d).out.Err?
  {
  }

  predicate FeedsByAdvance(ops: seq<Op>) {
    forall op :: op in ops ==> !op.DoCompleteNext?
  }

  lemma OpFollows(m: Machine, h: seq<DailyCandle>, op: Op)
    requires Restorable(m) && BuiltFrom(m, h)
    ensures BuiltFrom(Apply(m, op).m, h + Fed(m, op))
    ensures Fed(m, op) != [] && h != [] ==> Fed(m, op)[0].ts == h[|h| - 1].ts + DAY
    ensures |Fed(m, op)| <= 1
  {
    hide CloseRange.AppendIndicators, CloseRange.CandidateOf, Restorable, Folded;
    hide CloseRange.Advance, CloseRange.CompleteAndApplyNextOpen, CloseRange.ApplyFunding, CloseRange.ObservePrices;
    hide CloseRange.ConfirmOwnedFill, CloseRange.DiscardUnfilledAddon;
    hide CloseRange.ChildClosed, CloseRange.ParentLiquidated;
    assert h + [] == h;
    if op.DoAdvance? {
      AdvanceFeeds(m, op.candle, op.activation, op.mode);
      FoldedAppend(h, op.candle);
    } else if op.DoCompleteNext? {
      CompleteNextFeeds(m, op.candle, op.nextTs, op.nextPrice, op.activation, op.mode);
      FoldedAppend(h, op.candle);
    } else {
      OtherOpsFeedNothing(m, op);
    }
  }

  /** An advance that follows the last candle is not refused by the machine's own evidence. */
  predicate Feeds(m: Machine, op: Op) {
    op.DoAdvance? && IsNext(m, op.candle.ts) ==> Apply(m, op).out.Ok?
  }

  lemma OpPending(m: Machine, h: seq<DailyCandle>, op: Op)
    requires Restorable(m) && BuiltFrom(m, h) && PendingFollows(m, h)
    requires !op.DoCompleteNext? && Feeds(m, op)
    ensures PendingFollows(Apply(m, op).m, h + Fed(m, op))
  {
    hide CloseRange.AppendIndicators, CloseRange.CandidateOf, CandidateOn, Windows, Restorable, Folded;
    hide CloseRange.Advance, CloseRange.CompleteAndApplyNextOpen, CloseRange.ApplyFunding, CloseRange.ObservePrices;
    hide CloseRange.ConfirmOwnedFill, CloseRange.DiscardUnfilledAddon;
    hide CloseRange.ChildClosed, CloseRange.ParentLiquidated;
    if op.DoAdvance? && !IsNext(m, op.candle.ts) {
      AdvanceRefuses(m, op.candle, op.activation, op.mode);
      assert h + [] == h;
    } else if op.DoAdvance? {
      AdvanceFeeds(m, op.candle, op.activation, op.mode);
      CandidateRefines(h, op.candle);
      assert (h + [op.candle])[..|h|] == h;
    } else {
      OtherOpsFeedNothing(m, op);
      assert h + [] == h;
    }
  }

  /**
   Over any run, whatever happens to campaigns, the indicators and the source
   chain are those of the complete history of the candles fed, and the candles
   fed form one unbroken daily chain.
   */
  lemma {:induction false} RunFollowsHistory(m: Machine, h: seq<DailyCandle>, ops: seq<Op>)
    requires Restorable(m) && BuiltFrom(m, h) && Contiguous(h)
    ensures BuiltFrom(Run(m, ops), h + FedBy(m, ops))
    ensures Contiguous(h + FedBy(m, ops))
    decreases |ops|
  {
    hide CloseRange.AppendIndicators, CloseRange.CandidateOf, CandidateOn, Windows, CloseRangeProperties.Apply;
    hide BuiltFrom, Contiguous, Restorable, Fed;
    if ops == [] {
      assert h + FedBy(m, ops) == h;
    } else {
      var m1, fed := Apply(m, ops[0]).m, Fed(m, ops[0]);
      OpFollows(m, h, ops[0]);
      OpKeepsRestorable(m, ops[0]);
      FedIsNext(h, fed);
      RunFollowsHistory(m1, h + fed, ops[1..]);
      assert h + FedBy(m, ops) == (h + fed) + FedBy(m1, ops[1..]);
    }
  }

  lemma FedIsNext(h: seq<DailyCandle>, fed: seq<DailyCandle>)
    requires Contiguous(h) && |fed| <= 1
    requires fed != [] && h != [] ==> fed[0].ts == h[|h| - 1].ts + DAY
    ensures Contiguous(h + fed)
  {
  }

  /**
   A source verifier that only warms up on the candles processed so far agrees
   with the running machine on indicators, digest, count and last candle.
   */
  lemma WarmupAgreesWithRun(history: seq<DailyCandle>, ops: seq<Op>)
    requires Contiguous(history)
    ensures var start := Warmup(Blank, history).m;
      var processed := history + FedBy(start, ops);
      var verifier := Warmup(Blank, processed);
      && verifier.out.Ok?
      && verifier.m.ind == Run(start, ops).ind
      && verifier.m.lastBarTs == Run(start, ops).lastBarTs
  {
    hide CloseRange.AppendIndicators, CloseRange.CandidateOf, CandidateOn, Windows, CloseRangeProperties.Apply;
    hide Contiguous, Restorable, FedBy, Run, Folded, Warmup;
    WarmupIs(history);
    var start := Warmup(Blank, history).m;
    FollowerIsRestorable(start, history);
    RunFollowsHistory(start, history, ops);
    WarmupIs(history + FedBy(start, ops));
  }

  lemma WarmupIs(history: seq<DailyCandle>)
    requires Contiguous(history)
    ensures var s := Warmup(Blank, history);
      s.out.Ok? && BuiltFrom(s.m, history) && s.m.campaign.None?
  {
    hide CloseRange.AppendIndicators, CloseRange.CandidateOf, CandidateOn, Windows;
    assert [] + history == history;
    WarmupFollows(Blank, [], history);
  }

  lemma FollowerIsRestorable(m: Machine, h: seq<DailyCandle>)
    requires BuiltFrom(m, h) && m.campaign.None?
    ensures Restorable(m)
  {
    FoldedIsWindows(h);
  }

  predicate FeedsSucceed(m: Machine, ops: seq<Op>)
    decreases |ops|
  {
    ops == [] || (Feeds(m, ops[0]) && FeedsSucceed(Apply(m, ops[0]).m, ops[1..]))
  }

  /** Folding advance also leaves the pending candidate that the warm-up would. */
  lemma {:induction false} AdvanceKeepsPending(m: Machine, h: seq<DailyCandle>, ops: seq<Op>)
    requires Restorable(m) && BuiltFrom(m, h) && PendingFollows(m, h)
    requires FeedsByAdvance(ops) && FeedsSucceed(m, ops)
    ensures PendingFollows(Run(m, ops), h + FedBy(m, ops))
    decreases |ops|
  {
    hide CloseRange.AppendIndicators, CloseRange.CandidateOf, CandidateOn, Windows, CloseRangeProperties.Apply;
    if ops == [] {
      assert h + FedBy(m, ops) == h;
    } else {
      var m1, fed := Apply(m, ops[0]).m, Fed(m, ops[0]);
      assert ops[0] in ops;
      OpFollows(m, h, ops[0]);
      OpPending(m, h, ops[0]);
      OpKeepsRestorable(m, ops[0]);
      AdvanceKeepsPending(m1, h + fed, ops[1..]);
      assert h + FedBy(m, ops) == (h + fed) + FedBy(m1, ops[1..]);
    }
  }
}
