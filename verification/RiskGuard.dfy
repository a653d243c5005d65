/**
 The guard every intent passes on its way to the executor: entries are refused, clamped or
 forwarded, exits always pass. Over a run the forwarded entries stay within the rate, and the
 exposure they open within the notional cap. Times are whole seconds.
 */
module RiskGuard {
  import opened Common

  const WINDOW: int := 60

  datatype Limits = Limits(maxPosition: real, maxLeverage: real, maxDailyLoss: real, maxOrders: nat,
                           totalNotional: Option<real>, totalMargin: Option<real>)

  datatype Kind = Noop | Entry | Exit

  datatype Intent = Intent(kind: Kind, owner: string, key: string, size: real, leverage: real,
                           triggerTf: Option<string>, multiplier: real)

  datatype Mode = FixedNotional | EquityFraction | UnknownMode

  datatype Policy = Policy(mode: Mode, marginFraction: real, weights: map<string, real>, haircut: real,
                           fixedOwners: set<string>)

  /** What the guard reads from the executor, the account and the clock while it decides. */
  datatype Reading = Reading(
    authoritative: bool,        // the executor keeps authoritative accounts
    admission: Option<string>,  // the executor's own reason against an entry
    todayPnl: real,             // realized today, in USD
    rateTs: int,                // the clock of the rate limit
    price: Option<real>,
    balance: Option<real>,      // None: no provider, or its read failed
    openNotional: real,         // the executor's, without the intent's own slot
    openMargin: real,
    cash: Cash)

  datatype Cash = NoProvider | Unavailable | Available(usd: real)

  datatype Answer =
    | Ignored
    | Rejected(reason: string)
    | Raised(error: string)
    | Forwarded(size: real, leverage: real, clamped: bool)

  // ---- the rate window ----

  function Since(orders: seq<int>, cutoff: int): seq<int> {
    if orders != [] && orders[0] < cutoff then Since(orders[1..], cutoff) else orders
  }

  // ---- sizing ----

  /** The notional a policy asks for; None when the data it needs is missing. */
  function Sized(i: Intent, p: Policy, r: Reading): Result<Option<real>> {
    if i.kind == Exit then Ok(Some(0.0))
    else if i.owner in p.fixedOwners || p.mode == FixedNotional then Ok(Some(i.size))
    else if p.mode != EquityFraction then Err("unknown sizing mode")
    else if r.price == None || r.price.value <= 0.0 || r.balance == None then Ok(None)
    else
      var tf := if i.triggerTf.Some? && i.triggerTf.value != "" then i.triggerTf.value else "default";
      var weight := if tf in p.weights then p.weights[tf] else 0.0;
      if weight <= 0.0 || i.multiplier <= 0.0 then Ok(None)
      else
        var budget := r.balance.value * p.marginFraction * weight * p.haircut;
        Ok(Some((budget * i.leverage).Floor as real * i.multiplier))
  }

  /** Margin and reserves one contract takes from the margin limit. */
  function MarginPerContract(leverage: real, authoritative: bool): real
    requires leverage != 0.0
  {
    1.0 / leverage + if authoritative then 0.001 * (1.0 + 1.0 / leverage) else 0.0
  }

  function CashRequired(size: real, leverage: real): real
    requires leverage != 0.0
  {
    size / leverage + size * (0.002 + 0.001 / leverage)
  }

  // ---- one decision ----

  /** The guard's window and answer for one intent. */
  function Decide(recent: seq<int>, i: Intent, l: Limits, p: Policy, r: Reading): (seq<int>, Answer) {
    if i.kind == Noop then (recent, Ignored)
    else if i.kind == Exit then (recent, PassExit(i, l))
    else if r.admission.Some? && r.admission.value != "" then (recent, Rejected(r.admission.value))
    else if r.todayPnl <= -l.maxDailyLoss then (recent, Rejected("daily_loss_exceeded"))
    else
      var window := Since(recent, r.rateTs - WINDOW);
      if |window| >= l.maxOrders then (window, Rejected("rate_limit_exceeded"))
      else
        var answer := SizeEntry(i, l, p, r);
        (if answer.Forwarded? then Push(window, r.rateTs, 2 * l.maxOrders) else window, answer)
  }

  /** Exits reduce exposure: whatever the limits, they pass. */
  function PassExit(i: Intent, l: Limits): Answer {
    Forwarded(Min(0.0, l.maxPosition), if i.leverage == 0.0 then 1.0 else i.leverage,
              0.0 > l.maxPosition || i.leverage > l.maxLeverage)
  }

  /** Clamp one admitted entry to every hard limit, or refuse it. */
  function SizeEntry(i: Intent, l: Limits, p: Policy, r: Reading): Answer
    requires i.kind == Entry
  {
    var sized := Sized(i, p, r);
    if sized.Err? then Raised(sized.error)
    else if sized.value == None then Rejected("sizing_data_unavailable")
    else
      var size := Min(sized.value.value, l.maxPosition);
      var leverage := Min(i.leverage, l.maxLeverage);
      var clamped := sized.value.value > l.maxPosition || i.leverage > l.maxLeverage;
      if size <= 0.0 then Rejected("non_positive_size")
      else FitNotional(size, leverage, clamped, l, r)
  }

  function FitNotional(size: real, leverage: real, clamped: bool, l: Limits, r: Reading): Answer {
    if l.totalNotional == None then FitMargin(size, leverage, clamped, l, r)
    else
      var remaining := l.totalNotional.value - r.openNotional;
      if remaining <= 0.0 then Rejected("total_notional_exceeded")
      else FitMargin(Min(size, remaining), leverage, clamped || size > remaining, l, r)
  }

  function FitMargin(size: real, leverage: real, clamped: bool, l: Limits, r: Reading): Answer {
    if l.totalMargin == None then FitCash(size, leverage, clamped, r)
    else if l.totalMargin.value - r.openMargin <= 0.0 then Rejected("total_margin_exceeded")
    else if leverage == 0.0 || MarginPerContract(leverage, r.authoritative) == 0.0 then Raised("division by zero")
    else
      var most := ((l.totalMargin.value - r.openMargin) / MarginPerContract(leverage, r.authoritative)).Floor;
      if most <= 0 then Rejected("total_margin_exceeded")
      else FitCash(Min(size, most as real), leverage, clamped || size > most as real, r)
  }

  function FitCash(size: real, leverage: real, clamped: bool, r: Reading): Answer {
    if r.cash == NoProvider then Forwarded(size, leverage, clamped)
    else if r.cash == Unavailable then Rejected("cash_data_unavailable")
    else if leverage == 0.0 then Raised("division by zero")
    else if r.cash.usd < CashRequired(size, leverage) then Rejected("insufficient_cash")
    else Forwarded(size, leverage, clamped)
  }

  lemma ExitIsUnsized(i: Intent, p: Policy, r: Reading)
    ensures i.kind == Exit ==> Sized(i, p, r) == Ok(Some(0.0))
  {
  }

  class RiskGuard {
    const limits: Limits
    const policy: Policy
    var recentOrders: seq<int>

    constructor (limits: Limits, policy: Policy)
      ensures this.limits == limits && this.policy == policy && recentOrders == []
    {
      this.limits, this.policy, recentOrders := limits, policy, [];
    }

    /** Decide on one intent; the readings are taken as the decision reaches them. */
    method Submit(intent: Intent, reading: Reading) returns (answer: Answer)
      modifies `recentOrders
      ensures (recentOrders, answer) == Decide(old(recentOrders), intent, limits, policy, reading)
    {
      hide Sized, FitNotional, Push;
      ExitIsUnsized(intent, policy, reading);
      if intent.kind == Noop {
        return Ignored;
      }
      var isExit := intent.kind == Exit;
      if !isExit {
        if reading.admission.Some? && reading.admission.value != "" {
          return Rejected(reading.admission.value);
        }
        if reading.todayPnl <= -limits.maxDailyLoss {
          return Rejected("daily_loss_exceeded");
        }
        var cutoff := reading.rateTs - WINDOW;
        while recentOrders != [] && recentOrders[0] < cutoff
          invariant Since(recentOrders, cutoff) == Since(old(recentOrders), cutoff)
          decreases |recentOrders|
        {
          recentOrders := recentOrders[1..];
        }
        if |recentOrders| >= limits.maxOrders {
          return Rejected("rate_limit_exceeded");
        }
      }
      var sized := Sized(intent, policy, reading);
      if sized.Err? {
        return Raised(sized.error);
      }
      if sized.value == None {
        return Rejected("sizing_data_unavailable");
      }
      var size, leverage, clamped := sized.value.value, intent.leverage, false;
      if size > limits.maxPosition {
        size, clamped := limits.maxPosition, true;
      }
      if leverage > limits.maxLeverage {
        leverage, clamped := limits.maxLeverage, true;
      }
      if isExit {
        leverage := if intent.leverage == 0.0 then 1.0 else intent.leverage;
        return Forwarded(size, leverage, clamped);
      } else if size <= 0.0 {
        return Rejected("non_positive_size");
      }
      answer := Fit(size, leverage, clamped, reading);
      if answer.Forwarded? {
        recentOrders := Push(recentOrders, reading.rateTs, 2 * limits.maxOrders);
      }
    }

    /** The exposure, margin and cash limits of one entry. */
    method Fit(size0: real, leverage: real, clamped0: bool, reading: Reading) returns (answer: Answer)
      ensures answer == FitNotional(size0, leverage, clamped0, limits, reading)
    {
      hide MarginPerContract, CashRequired;
      var size, clamped := size0, clamped0;
      if limits.totalNotional.Some? {
        var remaining := limits.totalNotional.value - reading.openNotional;
        if remaining <= 0.0 {
          return Rejected("total_notional_exceeded");
        }
        if size > remaining {
          size, clamped := remaining, true;
        }
      }
      if limits.totalMargin.Some? {
        var remaining := limits.totalMargin.value - reading.openMargin;
        if remaining <= 0.0 {
          return Rejected("total_margin_exceeded");
        }
        if leverage == 0.0 {
          return Raised("division by zero");
        }
        var perContract := MarginPerContract(leverage, reading.authoritative);
        if perContract == 0.0 {
          return Raised("division by zero");
        }
        var most := (remaining / perContract).Floor;
        if most <= 0 {
          return Rejected("total_margin_exceeded");
        }
        if size > most as real {
          size, clamped := most as real, true;
        }
      }
      if reading.cash == Unavailable {
        return Rejected("cash_data_unavailable");
      }
      if reading.cash.Available? {
        if leverage == 0.0 {
          return Raised("division by zero");
        }
        if reading.cash.usd < CashRequired(size, leverage) {
          return Rejected("insufficient_cash");
        }
      }
      return Forwarded(size, leverage, clamped);
    }
  }

  // ---- one decision ----

  /** Exits always pass and never touch the window. */
  lemma ExitsAlwaysPass(recent: seq<int>, i: Intent, l: Limits, p: Policy, r: Reading)
    requires i.kind == Exit
    ensures Decide(recent, i, l, p, r).0 == recent && Decide(recent, i, l, p, r).1.Forwarded?
  {
  }

  lemma FloorFits(size: real, remaining: real, per: real)
    requires per > 0.0 && size <= (remaining / per).Floor as real
    ensures size * per <= remaining
  {
    var most := (remaining / per).Floor as real;
    assert most <= remaining / per;
    assert size * per <= most * per;
    assert most * per <= remaining / per * per == remaining;
  }

  lemma PerContractPositive(leverage: real, authoritative: bool)
    requires leverage > 0.0
    ensures MarginPerContract(leverage, authoritative) > 0.0
  {
    assert 1.0 / leverage > 0.0;
  }

  lemma ForwardedIsSized(recent: seq<int>, i: Intent, l: Limits, p: Policy, r: Reading)
    requires i.kind == Entry && Decide(recent, i, l, p, r).1.Forwarded?
    ensures Decide(recent, i, l, p, r).1 == SizeEntry(i, l, p, r) && r.todayPnl > -l.maxDailyLoss
  {
    hide SizeEntry;
  }

  lemma FittedMargin(size: real, leverage: real, clamped: bool, l: Limits, r: Reading)
    requires size > 0.0 && leverage > 0.0 && FitMargin(size, leverage, clamped, l, r).Forwarded?
    ensures var f := FitMargin(size, leverage, clamped, l, r);
            && 0.0 < f.size <= size && f.leverage == leverage
            && (l.totalMargin.Some? ==>
                  f.size * MarginPerContract(f.leverage, r.authoritative) <= l.totalMargin.value - r.openMargin)
            && (r.cash.Available? ==> CashRequired(f.size, f.leverage) <= r.cash.usd) && r.cash != Unavailable
            && (!f.clamped ==> !clamped && f.size == size)
  {
    hide CashRequired, MarginPerContract;
    var f := FitMargin(size, leverage, clamped, l, r);
    PerContractPositive(leverage, r.authoritative);
    if l.totalMargin.Some? {
      FloorFits(f.size, l.totalMargin.value - r.openMargin, MarginPerContract(leverage, r.authoritative));
    }
  }

  /** A forwarded entry is inside every hard limit the guard was given, after all clamping. */
  lemma ForwardedIsWithinLimits(recent: seq<int>, i: Intent, l: Limits, p: Policy, r: Reading)
    requires i.kind == Entry && i.leverage > 0.0 && l.maxLeverage > 0.0
    requires Decide(recent, i, l, p, r).1.Forwarded?
    ensures var f := Decide(recent, i, l, p, r).1;
            && 0.0 < f.size <= l.maxPosition && 0.0 < f.leverage <= l.maxLeverage && f.leverage <= i.leverage
            && r.todayPnl > -l.maxDailyLoss
            && (l.totalNotional.Some? ==> r.openNotional + f.size <= l.totalNotional.value)
            && (l.totalMargin.Some? ==>
                  f.size * MarginPerContract(f.leverage, r.authoritative) <= l.totalMargin.value - r.openMargin)
            && (r.cash.Available? ==> CashRequired(f.size, f.leverage) <= r.cash.usd) && r.cash != Unavailable
            && Sized(i, p, r).Ok? && Sized(i, p, r).value.Some? && f.size <= Sized(i, p, r).value.value
            && (!f.clamped ==> f.size == Sized(i, p, r).value.value && f.leverage == i.leverage)
  {
    hide Sized, CashRequired, MarginPerContract, Since, Push, Decide, FitMargin;
    ForwardedIsSized(recent, i, l, p, r);
    var sized := Sized(i, p, r).value.value;
    var size, leverage := Min(sized, l.maxPosition), Min(i.leverage, l.maxLeverage);
    var clamped := sized > l.maxPosition || i.leverage > l.maxLeverage;
    if l.totalNotional.Some? {
      var remaining := l.totalNotional.value - r.openNotional;
      FittedMargin(Min(size, remaining), leverage, clamped || size > remaining, l, r);
    } else {
      FittedMargin(size, leverage, clamped, l, r);
    }
  }

  // ---- the rate over a run ----

  /** One intent and what the guard reads for it. */
  datatype Request = Request(intent: Intent, reading: Reading)

  /** The window after a run of requests, and the times of all entries handed to the executor. */
  datatype Pace = Pace(recent: seq<int>, handed: seq<int>)

  function Advance(pace: Pace, q: Request, l: Limits, p: Policy): Pace {
    var (recent, answer) := Decide(pace.recent, q.intent, l, p, q.reading);
    Pace(recent, if q.intent.kind == Entry && answer.Forwarded? then pace.handed + [q.reading.rateTs] else pace.handed)
  }

  function Paced(requests: seq<Request>, l: Limits, p: Policy): Pace {
    if requests == [] then Pace([], [])
    else Advance(Paced(requests[..|requests| - 1], l, p), requests[|requests| - 1], l, p)
  }

  /** A run without its exits and no-ops. */
  function Entries(requests: seq<Request>): seq<Request> {
    if requests == [] then []
    else
      var q := requests[|requests| - 1];
      Entries(requests[..|requests| - 1]) + if q.intent.kind == Entry then [q] else []
  }

  /** Exits neither wait for the rate nor use it up: a run keeps its pace without them, wherever they stood. */
  lemma {:induction false} ExitsNeverCount(requests: seq<Request>, l: Limits, p: Policy)
    ensures Paced(requests, l, p) == Paced(Entries(requests), l, p)
    ensures forall i :: 0 <= i < |requests| && requests[i].intent.kind == Exit ==>
              Decide(Paced(requests[..i], l, p).recent, requests[i].intent, l, p, requests[i].reading).1.Forwarded?
    decreases |requests|
  {
    if requests != [] {
      var before, q := requests[..|requests| - 1], requests[|requests| - 1];
      ExitsNeverCount(before, l, p);
      var pace := Paced(before, l, p);
      if q.intent.kind == Entry {
        assert (Entries(before) + [q])[..|Entries(before)|] == Entries(before);
      } else {
        assert Entries(before) + [] == Entries(before);
        assert pace.(recent := pace.recent) == pace;
      }
      forall i | 0 <= i < |requests| && requests[i].intent.kind == Exit
        ensures Decide(Paced(requests[..i], l, p).recent, requests[i].intent, l, p, requests[i].reading).1.Forwarded?
      {
        ExitsAlwaysPass(Paced(requests[..i], l, p).recent, requests[i].intent, l, p, requests[i].reading);
      }
    }
  }

  predicate MonotoneClock(requests: seq<Request>) {
    forall i, j :: 0 <= i < j < |requests| ==> requests[i].reading.rateTs <= requests[j].reading.rateTs
  }

  predicate Sorted(ts: seq<int>) { forall i, j :: 0 <= i < j < |ts| ==> ts[i] <= ts[j] }

  /** Any max + 1 consecutive entries span more than the window. */
  predicate Spaced(handed: seq<int>, max: nat) {
    forall i :: 0 <= i && i + max < |handed| ==> handed[i + max] - handed[i] > WINDOW
  }

  /** The window is the recent end of everything handed over; what it lost is older than a past cutoff. */
  predicate Windowed(pace: Pace, max: nat, now: int) {
    && |pace.recent| <= |pace.handed| && |pace.recent| <= max
    && pace.recent == pace.handed[|pace.handed| - |pace.recent|..]
    && (forall i :: 0 <= i < |pace.handed| - |pace.recent| ==> pace.handed[i] < now - WINDOW)
    && (forall i :: 0 <= i < |pace.handed| ==> pace.handed[i] <= now)
    && Sorted(pace.handed) && Spaced(pace.handed, max)
  }

  lemma {:induction false} SinceIsSuffix(orders: seq<int>, cutoff: int)
    ensures var kept := Since(orders, cutoff);
            && |kept| <= |orders| && kept == orders[|orders| - |kept|..]
            && (forall i :: 0 <= i < |orders| - |kept| ==> orders[i] < cutoff)
            && (kept != [] ==> kept[0] >= cutoff)
  {
    if orders != [] && orders[0] < cutoff {
      SinceIsSuffix(orders[1..], cutoff);
      var kept := Since(orders, cutoff);
      assert forall i :: 0 < i < |orders| ==> orders[i] == orders[1..][i - 1];
    }
  }

  lemma PopKeeps(pace: Pace, max: nat, now: int, later: int)
    requires Windowed(pace, max, now) && now <= later
    ensures Windowed(pace.(recent := Since(pace.recent, later - WINDOW)), max, later)
  {
    hide Since, Sorted, Spaced;
    SinceIsSuffix(pace.recent, later - WINDOW);
    var kept := Since(pace.recent, later - WINDOW);
    var dropped := |pace.handed| - |pace.recent|;
    forall i | 0 <= i < |pace.handed| - |kept| ensures pace.handed[i] < later - WINDOW {
      if i >= dropped {
        assert pace.handed[i] == pace.recent[i - dropped];
      }
    }
  }

  lemma HandKeeps(pace: Pace, max: nat, now: int)
    requires Windowed(pace, max, now) && |pace.recent| < max
    ensures Windowed(Pace(Push(pace.recent, now, 2 * max), pace.handed + [now]), max, now)
  {
    hide Sorted, Spaced, Push;
    PushGrows(pace.recent, now, max);
    SortedAppend(pace.handed, now);
    forall i | 0 <= i && i + max == |pace.handed| ensures now - pace.handed[i] > WINDOW {
      assert i < |pace.handed| - |pace.recent|;
    }
    SpacedAppend(pace.handed, now, max);
  }

  lemma PushGrows(recent: seq<int>, now: int, max: nat)
    requires |recent| < max
    ensures Push(recent, now, 2 * max) == recent + [now]
  {
  }

  lemma SortedAppend(handed: seq<int>, now: int)
    requires Sorted(handed) && forall i :: 0 <= i < |handed| ==> handed[i] <= now
    ensures Sorted(handed + [now])
  {
  }

  lemma SpacedAppend(handed: seq<int>, now: int, max: nat)
    requires Spaced(handed, max) && max > 0
    requires forall i :: 0 <= i && i + max == |handed| ==> now - handed[i] > WINDOW
    ensures Spaced(handed + [now], max)
  {
    var all := handed + [now];
    forall i | 0 <= i && i + max < |all| ensures all[i + max] - all[i] > WINDOW {
      if i + max < |handed| {
        assert handed[i + max] - handed[i] > WINDOW;
      }
    }
  }

  /** What a decision does to the window. */
  lemma WindowStep(recent: seq<int>, i: Intent, l: Limits, p: Policy, r: Reading)
    ensures var (after, answer) := Decide(recent, i, l, p, r);
            var popped := Since(recent, r.rateTs - WINDOW);
            var handed := i.kind == Entry && answer.Forwarded?;
            && (handed ==> after == Push(popped, r.rateTs, 2 * l.maxOrders) && |popped| < l.maxOrders)
            && (!handed ==> after == recent || after == popped)
  {
    hide SizeEntry, Since, Push;
  }

  lemma AdvanceKeeps(pace: Pace, q: Request, l: Limits, p: Policy, earlier: int)
    requires Windowed(pace, l.maxOrders, earlier) && earlier <= q.reading.rateTs
    ensures Windowed(Advance(pace, q, l, p), l.maxOrders, q.reading.rateTs)
  {
    hide Decide, Windowed, Push, Since;
    var now := q.reading.rateTs;
    Widen(pace, l.maxOrders, earlier, now);
    PopKeeps(pace, l.maxOrders, earlier, now);
    WindowStep(pace.recent, q.intent, l, p, q.reading);
    var popped := pace.(recent := Since(pace.recent, now - WINDOW));
    if |popped.recent| < l.maxOrders {
      HandKeeps(popped, l.maxOrders, now);
    }
    assert pace.(recent := pace.recent) == pace;
  }

  lemma {:induction false} WindowHolds(requests: seq<Request>, l: Limits, p: Policy)
    requires MonotoneClock(requests) && requests != []
    ensures Windowed(Paced(requests, l, p), l.maxOrders, requests[|requests| - 1].reading.rateTs)
  {
    hide Windowed, Advance;
    var before, q := requests[..|requests| - 1], requests[|requests| - 1];
    if before == [] {
      EmptyWindow(l.maxOrders, q.reading.rateTs);
      AdvanceKeeps(Pace([], []), q, l, p, q.reading.rateTs);
    } else {
      WindowHolds(before, l, p);
      AdvanceKeeps(Paced(before, l, p), q, l, p, before[|before| - 1].reading.rateTs);
    }
  }

  lemma EmptyWindow(max: nat, now: int)
    ensures Windowed(Pace([], []), max, now)
  {
  }

  lemma Widen(pace: Pace, max: nat, now: int, later: int)
    requires Windowed(pace, max, now) && now <= later
    ensures Windowed(pace, max, later)
  {
  }

  /** The positions of the entries handed over inside one closed interval. */
  function Within(handed: seq<int>, from: int, until: int): set<nat> {
    set i: nat | i < |handed| && from <= handed[i] <= until
  }

  lemma {:induction false} SpanBounds(positions: set<nat>, first: nat, count: nat)
    requires forall i :: i in positions ==> first <= i < first + count
    ensures |positions| <= count
    decreases count
  {
    if count == 0 {
      assert positions == {};
    } else {
      var last: nat := first + count - 1;
      SpanBounds(positions - {last}, first, count - 1);
      assert |positions| <= |positions - {last}| + 1;
    }
  }

  lemma FarApart(handed: seq<int>, max: nat, first: nat, i: nat)
    requires Sorted(handed) && Spaced(handed, max) && first + max <= i < |handed|
    ensures handed[i] - handed[first] > WINDOW
  {
    assert first + max == i || handed[first + max] <= handed[i];
  }

  /** With a monotone clock, no closed sixty-second interval of a process sees more entries than the limit. */
  lemma RateIsBounded(requests: seq<Request>, l: Limits, p: Policy, from: int)
    requires MonotoneClock(requests)
    ensures |Within(Paced(requests, l, p).handed, from, from + WINDOW)| <= l.maxOrders
  {
    hide Paced;
    var handed := Paced(requests, l, p).handed;
    if requests == [] {
      NothingHanded(l, p);
      assert Within([], from, from + WINDOW) == {};
    } else {
      WindowHolds(requests, l, p);
      var inside := Within(handed, from, from + WINDOW);
      if inside != {} {
        var first := Least(inside);
        forall i | i in inside ensures i < first + l.maxOrders {
          if i >= first + l.maxOrders {
            FarApart(handed, l.maxOrders, first, i);
          }
        }
        SpanBounds(inside, first, l.maxOrders);
      }
    }
  }

  lemma NothingHanded(l: Limits, p: Policy)
    ensures Paced([], l, p).handed == []
  {
  }

  lemma {:induction false} Least(s: set<nat>) returns (least: nat)
    requires s != {}
    ensures least in s && forall i :: i in s ==> least <= i
    decreases |s|
  {
    var x :| x in s;
    if s == {x} {
      least := x;
    } else {
      assert s - {x} != {} && forall i :: i in s ==> i == x || i in s - {x};
      var rest := Least(s - {x});
      least := if x < rest then x else rest;
    }
  }

  // ---- exposure over a run ----

  /** Contracts held by slot, the executor's positions; and one remote entry whose reply was lost. */
  datatype Book = Book(positions: map<string, int>, lost: map<string, int>)

  function AbsInt(n: int): nat { if n < 0 then -n else n }

  ghost function Total(m: map<string, int>): nat
    decreases |m|
  {
    if m == map[] then 0
    else
      var k :| k in m;
      AbsInt(m[k]) + Total(m - {k})
  }

  lemma {:induction false} TotalWithout(m: map<string, int>, k: string)
    ensures Total(m) == Total(m - {k}) + if k in m then AbsInt(m[k]) else 0
    decreases |m|
  {
    if k !in m {
      assert m - {k} == m;
    } else {
      var first :| first in m && Total(m) == AbsInt(m[first]) + Total(m - {first});
      if first != k {
        TotalWithout(m - {first}, k);
        TotalWithout(m - {k}, first);
        assert m - {first} - {k} == m - {k} - {first};
      }
    }
  }

  lemma TotalWith(m: map<string, int>, k: string, n: int)
    ensures Total(m[k := n]) == Total(m - {k}) + AbsInt(n)
  {
    TotalWithout(m[k := n], k);
    assert m[k := n] - {k} == m - {k};
  }

  ghost function Exposure(b: Book): nat { Total(b.positions) + Total(b.lost) }

  /** What the executor reports without the slot about to be replaced. */
  ghost function OpenNotional(b: Book, key: string): real { Total(b.positions - {key}) as real }

  datatype Event =
    | Enter(request: Request, outcome: Outcome) // an entry handed to the executor
    | Close(key: string)                        // an exit, or the venue's own closure
    | Settle(key: string)                       // the lost entry is recovered from its durable result
    | Void(key: string)                         // or an operator found that it never opened

  datatype Outcome = Refused | ClosedOnly | Filled(long: bool) | Lost(long: bool)

  function Signed(long: bool, size: real): int { if long then size.Floor else -size.Floor }

  /** A fill opens the whole contracts asked for; an opposite position on the slot was closed first. */
  ghost predicate Entered(b: Book, key: string, size: real, outcome: Outcome, b': Book) {
    match outcome
    case Refused => b' == b
    case ClosedOnly => b' == b.(positions := b.positions - {key})
    case Filled(long) => b' == b.(positions := b.positions[key := Signed(long, size)])
    case Lost(long) => b' == Book(b.positions - {key}, map[key := Signed(long, size)])
  }

  /** While an entry's reply is lost the executor posts no other. */
  ghost predicate After(b: Book, e: Event, l: Limits, p: Policy, recent: seq<int>, b': Book) {
    match e
    case Enter(q, outcome) =>
      var answer := Decide(recent, q.intent, l, p, q.reading).1;
      && q.intent.kind == Entry && q.reading.openNotional == OpenNotional(b, q.intent.key)
      && if answer.Forwarded? && b.lost == map[] then Entered(b, q.intent.key, answer.size, outcome, b') else b' == b
    case Close(key) => b' == b.(positions := b.positions - {key})
    case Settle(key) => key in b.lost && b' == Book(b.positions[key := b.lost[key]], map[])
    case Void(key) => b' == b.(lost := map[])
  }

  lemma TotalOne(key: string, n: int)
    ensures Total(map[key := n]) == AbsInt(n)
  {
    var none: map<string, int> := map[];
    TotalWith(none, key, n);
    assert none - {key} == none && none[key := n] == map[key := n];
  }

  lemma SizeFits(q: Request, l: Limits, p: Policy, recent: seq<int>, open: nat)
    requires q.intent.kind == Entry && q.reading.openNotional == open as real
    requires l.totalNotional.Some? && Decide(recent, q.intent, l, p, q.reading).1.Forwarded?
    ensures var size := Decide(recent, q.intent, l, p, q.reading).1.size;
            forall long: bool :: (open + AbsInt(Signed(long, size))) as real <= Max(open as real, l.totalNotional.value)
  {
    hide Sized, CashRequired, MarginPerContract;
  }

  /** No event raises the exposure, a lost entry's included, above the cap. */
  lemma EventFits(b: Book, e: Event, l: Limits, p: Policy, recent: seq<int>, b': Book)
    requires After(b, e, l, p, recent, b') && l.totalNotional.Some?
    ensures Exposure(b') as real <= Max(Exposure(b) as real, l.totalNotional.value)
    ensures |b.lost| <= 1 ==> |b'.lost| <= 1
  {
    hide Decide, Total, AbsInt, Signed;
    match e
    case Enter(q, outcome) =>
      var key := q.intent.key;
      var answer := Decide(recent, q.intent, l, p, q.reading).1;
      TotalWithout(b.positions, key);
      if answer.Forwarded? {
        SizeFits(q, l, p, recent, Total(b.positions - {key}));
        match outcome
        case Filled(long) => TotalWith(b.positions, key, Signed(long, answer.size));
        case Lost(long) => TotalOne(key, Signed(long, answer.size));
        case _ =>
      }
      NoTotal();
    case Close(key) => TotalWithout(b.positions, key);
    case Settle(key) =>
      TotalWithout(b.positions, key);
      TotalWith(b.positions, key, b.lost[key]);
      TotalWithout(b.lost, key);
      NoTotal();
    case Void(key) => NoTotal();
  }

  lemma NoTotal()
    ensures Total(map[]) == 0
  {
  }

  ghost predicate Run(books: seq<Book>, events: seq<Event>, windows: seq<seq<int>>, l: Limits, p: Policy) {
    && |books| == |events| + 1 && |windows| == |events|
    && forall i :: 0 <= i < |events| ==> After(books[i], events[i], l, p, windows[i], books[i + 1])
  }

  /** Starting within the total cap, no run leaves it: close-and-reopen flips, lost replies and recoveries included. */
  lemma {:induction false} ExposureStaysCapped(books: seq<Book>, events: seq<Event>, windows: seq<seq<int>>, l: Limits,
                                               p: Policy, i: nat)
    requires Run(books, events, windows, l, p) && l.totalNotional.Some? && i < |books|
    requires Exposure(books[0]) as real <= l.totalNotional.value
    ensures Exposure(books[i]) as real <= l.totalNotional.value
  {
    hide After, Exposure;
    if i > 0 {
      ExposureStaysCapped(books, events, windows, l, p, i - 1);
      EventFits(books[i - 1], events[i - 1], l, p, windows[i - 1], books[i]);
    }
  }
}
