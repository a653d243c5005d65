/**
 The liquidation cascade against a price path.

 CloseRange.ObservePrices collects the units hit by a bar, sorts them and
 processes them one by one. Here that loop is related to an independent
 reading: the price moves monotonically from the open to the bar's adverse
 extreme, and a unit leaves at the first price at which its own level or its
 parent's level is reached.
 */
module Liquidation {
  import opened Common
  import opened CloseRange

  ghost predicate OnPath(side: Side, opening: real, adverse: real, q: real) {
    if side == 1 then adverse <= q <= opening else opening <= q <= adverse
  }

  /** p is met before q when moving away from the open. */
  ghost predicate Earlier(side: Side, p: real, q: real) {
    if side == 1 then p > q else p < q
  }

  ghost predicate Touches(side: Side, q: real, level: real, parentLevel: real) {
    Reached(side, q, level) || Reached(side, q, parentLevel)
  }

  /** The specification: q is where a unit leaves on the path. */
  ghost predicate FirstTouch(side: Side, opening: real, adverse: real, level: real, parentLevel: real, q: real) {
    && OnPath(side, opening, adverse, q)
    && Touches(side, q, level, parentLevel)
    && forall p :: OnPath(side, opening, adverse, p) && Earlier(side, p, q) ==> !Touches(side, p, level, parentLevel)
  }

  /** A bar's adverse extreme is not on the favourable side of its open. */
  predicate Orderly(side: Side, opening: real, adverse: real) {
    if side == 1 then adverse <= opening else opening <= adverse
  }

  function Nearer(side: Side, a: real, b: real): real {
    if side == 1 then Max(a, b) else Min(a, b)
  }

  function ExitPrice(side: Side, opening: real, adverse: real, level: real, parentLevel: real): Option<real> {
    var best := Nearer(side, level, parentLevel);
    if Reached(side, adverse, best) then Some(Trigger(side, opening, best)) else None
  }

  lemma ExitPriceIsFirstTouch(side: Side, opening: real, adverse: real, level: real, parentLevel: real, q: real)
    requires Orderly(side, opening, adverse)
    ensures ExitPrice(side, opening, adverse, level, parentLevel) == Some(q)
       <==> FirstTouch(side, opening, adverse, level, parentLevel, q)
  {
    var best := Nearer(side, level, parentLevel);
    var t := Trigger(side, opening, best);
    if FirstTouch(side, opening, adverse, level, parentLevel, q) {
      assert OnPath(side, opening, adverse, t) ==> Touches(side, t, level, parentLevel);
    }
  }

  /** Exit of unit u when p is its campaign's parent. */
  function ExitOf(side: Side, opening: real, adverse: real, u: Unit, p: Unit): Option<real>
    requires u.collateral.Some? && p.collateral.Some?
  {
    ExitPrice(side, opening, adverse, Level(side, u, opening), Level(side, p, opening))
  }

  function ReasonAt(side: Side, u: Unit, opening: real, price: real): Reason
    requires u.collateral.Some?
  {
    if u.k == 0 then ParentLiquidation
    else if Reached(side, price, Level(side, u, opening)) then ChildLiquidation
    else ParentForcedExit
  }

  function Survivors(side: Side, opening: real, adverse: real, units: seq<Unit>, p: Unit): seq<Unit>
    requires Evidenced(units) && p.collateral.Some?
  {
    if units == [] then []
    else
      var rest := Survivors(side, opening, adverse, units[1..], p);
      if ExitOf(side, opening, adverse, units[0], p).None? then [units[0]] + rest else rest
  }

  /** Every decision is the exit of one unit, at that unit's price. */
  ghost predicate Faithful(side: Side, opening: real, adverse: real, units: seq<Unit>, p: Unit, ds: seq<Decision>)
    requires Evidenced(units) && p.collateral.Some?
  {
    forall d :: d in ds ==> exists u :: u in units && Describes(side, opening, adverse, d, u, p)
  }

  /** d reports the exit of u. */
  ghost predicate Describes(side: Side, opening: real, adverse: real, d: Decision, u: Unit, p: Unit)
    requires u.collateral.Some? && p.collateral.Some?
  {
    && d.k == Some(u.k)
    && d.price.Some?
    && d.price == ExitOf(side, opening, adverse, u, p)
    && d.reason == ReasonAt(side, u, opening, d.price.value)
  }

  /** Every unit that leaves has a decision. */
  ghost predicate Complete(side: Side, opening: real, adverse: real, units: seq<Unit>, p: Unit, ds: seq<Decision>)
    requires Evidenced(units) && p.collateral.Some?
  {
    forall u :: u in units && ExitOf(side, opening, adverse, u, p).Some? ==> Names(ds, u.k)
  }

  ghost predicate Names(ds: seq<Decision>, k: int) {
    exists i :: 0 <= i < |ds| && ds[i].k == Some(k)
  }

  ghost predicate OncePerUnit(ds: seq<Decision>) {
    forall i, j :: 0 <= i < j < |ds| ==> ds[i].k != ds[j].k
  }

  ghost predicate Monotone(side: Side, ds: seq<Decision>) {
    forall i, j :: 0 <= i < j < |ds| && ds[i].price.Some? && ds[j].price.Some? ==>
      !Earlier(side, ds[j].price.value, ds[i].price.value)
  }

  ghost predicate DistinctUnits(units: seq<Unit>) {
    forall i, j :: 0 <= i < j < |units| ==> units[i].k != units[j].k
  }

  // ---- sorting ----

  ghost predicate InOrder(side: Side, hits: seq<HitAt>) {
    forall i, j :: 0 <= i < j < |hits| ==> Before(side, hits[i], hits[j])
  }

  ghost predicate DistinctHits(hits: seq<HitAt>) {
    forall i, j :: 0 <= i < j < |hits| ==> hits[i].k != hits[j].k
  }

  lemma {:induction false} InsertSorts(side: Side, h: HitAt, sorted: seq<HitAt>)
    requires InOrder(side, sorted) && DistinctHits(sorted)
    requires forall x :: x in sorted ==> x.k != h.k
    ensures InOrder(side, Insert(side, h, sorted)) && DistinctHits(Insert(side, h, sorted))
    ensures forall x :: x in Insert(side, h, sorted) <==> x == h || x in sorted
  {
    if sorted != [] && !Before(side, h, sorted[0]) {
      var rest := Insert(side, h, sorted[1..]);
      InsertSorts(side, h, sorted[1..]);
      forall x | x in rest ensures Before(side, sorted[0], x) && x.k != sorted[0].k {
        if x != h {
          var i :| 0 <= i < |sorted[1..]| && sorted[1..][i] == x;
          assert sorted[i + 1] == x;
        }
      }
    }
  }

  lemma {:induction false} SortedSorts(side: Side, hits: seq<HitAt>)
    requires DistinctHits(hits)
    ensures InOrder(side, Sorted(side, hits)) && DistinctHits(Sorted(side, hits))
    ensures forall x :: x in Sorted(side, hits) <==> x in hits
  {
    if hits != [] {
      SortedSorts(side, hits[1..]);
      assert forall x :: x in hits[1..] ==> x.k != hits[0].k;
      InsertSorts(side, hits[0], Sorted(side, hits[1..]));
    }
  }

  // ---- the hits of a bar ----

  function HitAtOf(side: Side, u: Unit, opening: real): HitAt
    requires u.collateral.Some?
  {
    HitAt(u.k, Trigger(side, opening, Level(side, u, opening)))
  }

  /** The hits are exactly the trigger prices of the units hit. */
  ghost predicate HitsMatch(side: Side, opening: real, adverse: real, units: seq<Unit>, hits: seq<HitAt>)
    requires Evidenced(units)
  {
    && (forall h :: h in hits ==>
        exists u :: u in units && Hit(side, u, opening, adverse) && h == HitAtOf(side, u, opening))
    && (forall u :: u in units && Hit(side, u, opening, adverse) ==> HitAtOf(side, u, opening) in hits)
  }

  lemma {:induction false} HitsOfMatches(side: Side, opening: real, adverse: real, units: seq<Unit>)
    requires Evidenced(units) && DistinctUnits(units)
    ensures HitsMatch(side, opening, adverse, units, HitsOf(side, units, opening, adverse))
    ensures DistinctHits(HitsOf(side, units, opening, adverse))
  {
    if units != [] {
      HitsOfMatches(side, opening, adverse, units[1..]);
      assert forall u :: u in units[1..] ==> u.k != units[0].k;
      var rest := HitsOf(side, units[1..], opening, adverse);
      forall h | h in rest ensures h.k != units[0].k {
        var u :| u in units[1..] && Hit(side, u, opening, adverse) && h == HitAtOf(side, u, opening);
      }
    }
  }

  // ---- removing and closing units ----

  lemma WithoutRemoved(units: seq<Unit>, u: Unit)
    requires DistinctUnits(units) && u in units
    ensures Without(units, RemoveK(units, u.k), u)
  {
    RemoveKeepsRest(units, u);
    forall v | v in units && v != u ensures v.k != u.k {
      var a, b :| 0 <= a < |units| && units[a] == v && 0 <= b < |units| && units[b] == u;
    }
  }

  lemma {:induction false} RemoveKeepsRest(units: seq<Unit>, u: Unit)
    requires DistinctUnits(units) && u in units
    ensures DistinctUnits(RemoveK(units, u.k)) && |RemoveK(units, u.k)| == |units| - 1
    ensures forall v :: v in RemoveK(units, u.k) <==> v in units && v != u
    ensures u != units[0] ==> RemoveK(units, u.k) != [] && RemoveK(units, u.k)[0] == units[0]
  {
    assert forall v :: v in units[1..] ==> v.k != units[0].k;
    if units[0].k != u.k {
      RemoveKeepsRest(units[1..], u);
    }
  }

  lemma {:induction false} SurvivorsOfRemoved(side: Side, opening: real, adverse: real, units: seq<Unit>, p: Unit,
      u: Unit)
    requires Evidenced(units) && p.collateral.Some? && DistinctUnits(units) && u in units
    requires ExitOf(side, opening, adverse, u, p).Some?
    requires Evidenced(RemoveK(units, u.k))
    ensures Survivors(side, opening, adverse, RemoveK(units, u.k), p) == Survivors(side, opening, adverse, units, p)
  {
    assert forall v :: v in units[1..] ==> v.k != units[0].k;
    if units[0].k != u.k {
      RemoveKeepsRest(units[1..], u);
      SurvivorsOfRemoved(side, opening, adverse, units[1..], p, u);
      assert RemoveK(units, u.k)[1..] == RemoveK(units[1..], u.k);
    }
  }

  lemma {:induction false} SurvivorsAll(side: Side, opening: real, adverse: real, units: seq<Unit>, p: Unit)
    requires Evidenced(units) && p.collateral.Some?
    requires forall u :: u in units ==> ExitOf(side, opening, adverse, u, p).None?
    ensures Survivors(side, opening, adverse, units, p) == units
  {
    if units != [] {
      SurvivorsAll(side, opening, adverse, units[1..], p);
    }
  }

  ghost predicate ClosesAt(side: Side, opening: real, price: real, d: Decision, u: Unit)
    requires u.collateral.Some?
  {
    d.k == Some(u.k) && u.k != 0 && d.price == Some(price) && d.reason == ReasonAt(side, u, opening, price)
  }

  /** Closing the remaining children: one decision each, in slot order, none missing. */
  lemma {:induction false} CloseChildrenClosesAll(m: Machine, units: seq<Unit>, ts: int, price: real, opening: real)
    requires Evidenced(units) && m.campaign.Some?
    requires DistinctUnits(units) && DistinctUnits(m.campaign.value.units)
    requires forall u :: u in units ==> u.k >= 0 && u in m.campaign.value.units
    ensures var s := CloseChildren(m, units, ts, price, opening);
      && s.out.Ok?
      && s.m.campaign.Some?
      && s.m == m.(campaign := Some(m.campaign.value.(units := s.m.campaign.value.units)))
      && OncePerUnit(s.out.value)
      && (forall d :: d in s.out.value ==>
            exists u :: u in units && ClosesAt(m.campaign.value.side, opening, price, d, u))
      && (forall u :: u in units && u.k != 0 ==> Names(s.out.value, u.k))
    decreases |units|
  {
    if units == [] {
    } else if units[0].k == 0 {
      CloseChildrenClosesAll(m, units[1..], ts, price, opening);
    } else {
      var u := units[0];
      var mine := m.campaign.value.units;
      var i :| 0 <= i < |mine| && mine[i] == u;
      assert HasK(mine, u.k);
      var side := m.campaign.value.side;
      var s := ChildClosed(m, u.k, ts, price, ReasonAt(side, u, opening, price));
      RemoveKeepsRest(mine, u);
      TailDistinct(units);
      CloseChildrenClosesAll(s.m, units[1..], ts, price, opening);
      hide ChildClosed, ClosesAt, ReasonAt;
      var rest := CloseChildren(s.m, units[1..], ts, price, opening).out.value;
      assert CloseChildren(m, units, ts, price, opening).out.value == s.out.value + rest;
      FirstCloses(m, u, ts, price, opening);
      ClosedWithRest(side, opening, price, s.out.value[0], rest, units);
    }
  }

  lemma TailDistinct(units: seq<Unit>)
    requires units != [] && DistinctUnits(units)
    ensures DistinctUnits(units[1..]) && forall v :: v in units[1..] ==> v.k != units[0].k && v in units
  {
    forall v | v in units[1..] ensures v.k != units[0].k && v in units {
      var i :| 0 <= i < |units[1..]| && units[1..][i] == v;
      assert units[i + 1] == v;
    }
  }

  lemma FirstCloses(m: Machine, u: Unit, ts: int, price: real, opening: real)
    requires m.campaign.Some? && HasK(m.campaign.value.units, u.k) && u.k > 0 && u.collateral.Some?
    ensures var side := m.campaign.value.side;
      var s := ChildClosed(m, u.k, ts, price, ReasonAt(side, u, opening, price));
      s.out.Ok? && |s.out.value| == 1 && ClosesAt(side, opening, price, s.out.value[0], u)
  {
    hide ReasonAt;
  }

  /** The first child's decision in front of the others' closes all of them, each once. */
  lemma ClosedWithRest(side: Side, opening: real, price: real, d: Decision, rest: seq<Decision>, units: seq<Unit>)
    requires units != [] && Evidenced(units) && DistinctUnits(units) && ClosesAt(side, opening, price, d, units[0])
    requires OncePerUnit(rest)
    requires forall x :: x in rest ==> exists u :: u in units[1..] && ClosesAt(side, opening, price, x, u)
    requires forall u :: u in units[1..] && u.k != 0 ==> Names(rest, u.k)
    ensures var all := [d] + rest;
      && OncePerUnit(all)
      && (forall x :: x in all ==> exists u :: u in units && ClosesAt(side, opening, price, x, u))
      && (forall u :: u in units && u.k != 0 ==> Names(all, u.k))
  {
    hide ReasonAt;
    TailDistinct(units);
    var all := [d] + rest;
    forall j | 0 <= j < |rest| ensures rest[j].k != Some(units[0].k) {
      assert rest[j] in rest;
    }
    forall v | v in units && v.k != 0 ensures Names(all, v.k) {
      if v == units[0] {
        assert all[0].k == Some(v.k);
      } else {
        assert v in units[1..];
        var j :| 0 <= j < |rest| && rest[j].k == Some(v.k);
        assert all[j + 1].k == Some(v.k);
      }
    }
    forall x | x in all ensures exists u :: u in units && ClosesAt(side, opening, price, x, u) {
      if x == d {
        assert units[0] in units;
      } else {
        assert x in rest;
      }
    }
  }

  // ---- the theorem ----

  ghost predicate Swept(side: Side, opening: real, adverse: real, units: seq<Unit>, after: Option<Campaign>,
      ds: seq<Decision>)
    requires units != [] && Evidenced(units)
  {
    var p := units[0];
    && Faithful(side, opening, adverse, units, p, ds)
    && Complete(side, opening, adverse, units, p, ds)
    && OncePerUnit(ds)
    && Monotone(side, ds)
    && (after.None? <==> ExitOf(side, opening, adverse, p, p).Some?)
    && (after.Some? ==> after.value.units == Survivors(side, opening, adverse, units, p))
  }

  ghost predicate Family(units: seq<Unit>) {
    && units != [] && units[0].k == 0 && DistinctUnits(units) && Evidenced(units)
    && forall u :: u in units ==> u.k >= 0
  }

  lemma ParentFirst(side: Side, opening: real, adverse: real, units: seq<Unit>, hits: seq<HitAt>, u: Unit)
    requires Family(units) && Orderly(side, opening, adverse)
    requires HitsMatch(side, opening, adverse, units, hits) && InOrder(side, hits)
    requires hits != [] && hits[0].k == 0 && u in units
    ensures ExitOf(side, opening, adverse, u, units[0]) == Some(hits[0].price)
  {
    assert hits[0] in hits;
    var w :| w in units && Hit(side, w, opening, adverse) && hits[0] == HitAtOf(side, w, opening);
    assert w == units[0] by {
      var i :| 0 <= i < |units| && units[i] == w;
    }
    if Hit(side, u, opening, adverse) {
      var h := HitAtOf(side, u, opening);
      var i :| 0 <= i < |hits| && hits[i] == h;
      assert i > 0 ==> Before(side, hits[0], hits[i]);
    }
  }

  lemma ChildFirst(side: Side, opening: real, adverse: real, units: seq<Unit>, hits: seq<HitAt>) returns (u: Unit)
    requires Family(units) && Orderly(side, opening, adverse)
    requires HitsMatch(side, opening, adverse, units, hits) && InOrder(side, hits)
    requires hits != [] && hits[0].k != 0
    ensures u in units && u != units[0] && hits[0] == HitAtOf(side, u, opening) && Hit(side, u, opening, adverse)
    ensures ExitOf(side, opening, adverse, u, units[0]) == Some(hits[0].price)
    ensures ReasonAt(side, u, opening, hits[0].price) == ChildLiquidation
  {
    assert hits[0] in hits;
    u :| u in units && Hit(side, u, opening, adverse) && hits[0] == HitAtOf(side, u, opening);
    var p := units[0];
    if Hit(side, p, opening, adverse) {
      var h := HitAtOf(side, p, opening);
      var i :| 0 <= i < |hits| && hits[i] == h;
      assert Before(side, hits[0], hits[i]);
    }
  }

  /** No hit left: nobody exits. */
  lemma NoHits(side: Side, opening: real, adverse: real, units: seq<Unit>)
    requires Family(units) && Orderly(side, opening, adverse)
    requires HitsMatch(side, opening, adverse, units, [])
    ensures forall u :: u in units ==> ExitOf(side, opening, adverse, u, units[0]).None?
  {
    forall u | u in units ensures ExitOf(side, opening, adverse, u, units[0]).None? {
      assert !Hit(side, u, opening, adverse) && !Hit(side, units[0], opening, adverse);
    }
  }

  lemma {:induction false} LiquidateSweeps(m: Machine, hits: seq<HitAt>, ts: int, opening: real, adverse: real)
    requires m.campaign.Some? && Family(m.campaign.value.units)
    requires Orderly(m.campaign.value.side, opening, adverse)
    requires HitsMatch(m.campaign.value.side, opening, adverse, m.campaign.value.units, hits)
    requires InOrder(m.campaign.value.side, hits) && hits != [] && hits[0].k == 0
    ensures var s := Cascade(m, hits, ts, opening);
      && s.out.Ok?
      && s.m == m.(campaign := None, pendingExit := None)
      && Swept(m.campaign.value.side, opening, adverse, m.campaign.value.units, s.m.campaign, s.out.value)
      && forall d :: d in s.out.value ==> d.price == Some(hits[0].price)
  {
    var c := m.campaign.value;
    var units := c.units;
    CloseChildrenClosesAll(m, units, ts, hits[0].price, opening);
    var children := CloseChildren(m, units, ts, hits[0].price, opening).out.value;
    var ds := Cascade(m, hits, ts, opening).out.value;
    assert |ds| == |children| + 1 && ds[..|children|] == children;
    assert ds[|children|].k == Some(0) && ds[|children|].price == Some(hits[0].price);
    forall j | 0 <= j < |children| ensures ds[j].k != Some(0) && ds[j].price == Some(hits[0].price) {
      assert ds[j] == children[j] && children[j] in children;
    }
    forall u | u in units
      ensures ExitOf(c.side, opening, adverse, u, units[0]) == Some(hits[0].price)
    {
      ParentFirst(c.side, opening, adverse, units, hits, u);
    }
    forall u | u in units ensures Names(ds, u.k) {
      if u.k == 0 {
        assert ds[|children|].k == Some(u.k);
      } else {
        var j :| 0 <= j < |children| && children[j].k == Some(u.k);
        assert ds[j].k == Some(u.k);
      }
    }
    forall d | d in ds ensures exists u :: u in units && Describes(c.side, opening, adverse, d, u, units[0]) {
      if d in children {
        var u :| u in units && ClosesAt(c.side, opening, hits[0].price, d, u);
        assert Describes(c.side, opening, adverse, d, u, units[0]);
      } else {
        assert d == ds[|children|];
        assert Describes(c.side, opening, adverse, d, units[0], units[0]);
      }
    }
  }

  /** One child leaves, and the rest of the cascade sweeps what remains. */
  lemma ChildStep(
    m: Machine, hits: seq<HitAt>, ts: int, opening: real, adverse: real, u: Unit, rest: Step)
    requires m.campaign.Some? && Family(m.campaign.value.units)
    requires Orderly(m.campaign.value.side, opening, adverse)
    requires InOrder(m.campaign.value.side, hits) && hits != []
    requires u in m.campaign.value.units && u != m.campaign.value.units[0] && hits[0].k == u.k
    requires ExitOf(m.campaign.value.side, opening, adverse, u, m.campaign.value.units[0]) == Some(hits[0].price)
    requires ReasonAt(m.campaign.value.side, u, opening, hits[0].price) == ChildLiquidation
    requires var left := RemoveK(m.campaign.value.units, u.k);
      && left != [] && left[0] == m.campaign.value.units[0] && Evidenced(left)
      && rest.out.Ok?
      && Swept(m.campaign.value.side, opening, adverse, left, rest.m.campaign, rest.out.value)
    requires forall d :: d in rest.out.value ==> exists h :: h in hits[1..] && d.price == Some(h.price)
    requires HasK(m.campaign.value.units, u.k)
    ensures var s := ChildClosed(m, u.k, ts, hits[0].price, ChildLiquidation);
      && s.out.Ok?
      && Swept(m.campaign.value.side, opening, adverse, m.campaign.value.units, rest.m.campaign,
          Chain(s, rest).out.value)
      && forall d :: d in Chain(s, rest).out.value ==> exists h :: h in hits && d.price == Some(h.price)
  {
    var c := m.campaign.value;
    var s := ChildClosed(m, u.k, ts, hits[0].price, ChildLiquidation);
    var first := s.out.value[0];
    var left := RemoveK(c.units, u.k);
    assert Describes(c.side, opening, adverse, first, u, c.units[0]);
    WithoutRemoved(c.units, u);
    SurvivorsOfRemoved(c.side, opening, adverse, c.units, c.units[0], u);
    CombineFaithful(c.side, opening, adverse, c.units, left, c.units[0], u, first, rest.out.value);
    CombineComplete(c.side, opening, adverse, c.units, left, c.units[0], u, first, rest.out.value);
    CombineOrder(c.side, first, rest.out.value, hits);
  }

  lemma {:induction false} CascadeSweeps(m: Machine, hits: seq<HitAt>, ts: int, opening: real, adverse: real)
    requires m.campaign.Some? && Family(m.campaign.value.units)
    requires Orderly(m.campaign.value.side, opening, adverse)
    requires HitsMatch(m.campaign.value.side, opening, adverse, m.campaign.value.units, hits)
    requires InOrder(m.campaign.value.side, hits) && DistinctHits(hits)
    ensures var s := Cascade(m, hits, ts, opening);
      && s.out.Ok?
      && Swept(m.campaign.value.side, opening, adverse, m.campaign.value.units, s.m.campaign, s.out.value)
      && forall d :: d in s.out.value ==> exists h :: h in hits && d.price == Some(h.price)
    decreases |hits|
  {
    var c := m.campaign.value;
    if hits == [] {
      NoHits(c.side, opening, adverse, c.units);
      SurvivorsAll(c.side, opening, adverse, c.units, c.units[0]);
    } else if hits[0].k == 0 {
      LiquidateSweeps(m, hits, ts, opening, adverse);
      assert hits[0] in hits;
    } else {
      var u := ChildFirst(c.side, opening, adverse, c.units, hits);
      assert HasK(c.units, u.k);
      var s := ChildClosed(m, hits[0].k, ts, hits[0].price, ChildLiquidation);
      RemoveKeepsRest(c.units, u);
      RemainingHits(c.side, opening, adverse, c.units, hits, u);
      CascadeSweeps(s.m, hits[1..], ts, opening, adverse);
      ChildStep(m, hits, ts, opening, adverse, u, Cascade(s.m, hits[1..], ts, opening));
    }
  }

  lemma RemainingHits(side: Side, opening: real, adverse: real, units: seq<Unit>, hits: seq<HitAt>, u: Unit)
    requires Family(units) && HitsMatch(side, opening, adverse, units, hits) && DistinctHits(hits)
    requires u in units && hits != [] && hits[0] == HitAtOf(side, u, opening)
    requires forall v :: v in RemoveK(units, u.k) <==> v in units && v != u
    ensures Evidenced(RemoveK(units, u.k))
    ensures HitsMatch(side, opening, adverse, RemoveK(units, u.k), hits[1..])
  {
    var left := RemoveK(units, u.k);
    forall h | h in hits[1..]
      ensures exists v :: v in left && Hit(side, v, opening, adverse) && h == HitAtOf(side, v, opening)
    {
      assert h in hits;
      var v :| v in units && Hit(side, v, opening, adverse) && h == HitAtOf(side, v, opening);
      assert v != u;
    }
    forall v | v in left && Hit(side, v, opening, adverse) ensures HitAtOf(side, v, opening) in hits[1..] {
      assert HitAtOf(side, v, opening) in hits;
      var a, b :| 0 <= a < |units| && units[a] == v && 0 <= b < |units| && units[b] == u;
      assert v.k != u.k;
    }
  }

  lemma CombineOrder(side: Side, first: Decision, rest: seq<Decision>, hits: seq<HitAt>)
    requires InOrder(side, hits) && hits != [] && first.price == Some(hits[0].price)
    requires OncePerUnit(rest) && Monotone(side, rest)
    requires forall d :: d in rest ==> d.k != first.k && exists h :: h in hits[1..] && d.price == Some(h.price)
    ensures OncePerUnit([first] + rest) && Monotone(side, [first] + rest)
    ensures forall d :: d in [first] + rest ==> exists h :: h in hits && d.price == Some(h.price)
  {
    var ds := [first] + rest;
    assert hits[0] in hits;
    forall d | d in rest
      ensures exists h :: h in hits && d.price == Some(h.price)
      ensures d.price.Some? && !Earlier(side, d.price.value, hits[0].price)
    {
      var h :| h in hits[1..] && d.price == Some(h.price);
      assert h in hits;
      var n :| 0 <= n < |hits[1..]| && hits[1..][n] == h;
      assert Before(side, hits[0], hits[n + 1]);
    }
    forall i, j | 0 <= i < j < |ds|
      ensures ds[i].k != ds[j].k
      ensures ds[i].price.Some? && ds[j].price.Some? && !Earlier(side, ds[j].price.value, ds[i].price.value)
    {
      assert ds[j] == rest[j - 1] && ds[j] in rest;
      if i > 0 {
        assert ds[i] == rest[i - 1] && ds[i] in rest;
      }
    }
  }

  /** left is units without u. */
  ghost predicate Without(units: seq<Unit>, left: seq<Unit>, u: Unit) {
    && u in units
    && (forall v :: v in left ==> v in units && v.k != u.k)
    && (forall v :: v in units ==> v == u || v in left)
  }

  lemma CombineFaithful(
    side: Side, opening: real, adverse: real, units: seq<Unit>, left: seq<Unit>, p: Unit, u: Unit, first: Decision,
    rest: seq<Decision>)
    requires Evidenced(units) && Evidenced(left) && p.collateral.Some? && Without(units, left, u)
    requires Faithful(side, opening, adverse, left, p, rest)
    requires Describes(side, opening, adverse, first, u, p)
    ensures Faithful(side, opening, adverse, units, p, [first] + rest)
    ensures forall d :: d in rest ==> d.k != first.k
  {
    forall d | d in rest
      ensures d.k != first.k
      ensures exists v :: v in units && Describes(side, opening, adverse, d, v, p)
    {
      var v :| v in left && Describes(side, opening, adverse, d, v, p);
    }
  }

  lemma CombineComplete(
    side: Side, opening: real, adverse: real, units: seq<Unit>, left: seq<Unit>, p: Unit, u: Unit, first: Decision,
    rest: seq<Decision>)
    requires Evidenced(units) && Evidenced(left) && p.collateral.Some? && Without(units, left, u)
    requires Complete(side, opening, adverse, left, p, rest)
    requires first.k == Some(u.k)
    ensures Complete(side, opening, adverse, units, p, [first] + rest)
  {
    var ds := [first] + rest;
    forall v | v in units && ExitOf(side, opening, adverse, v, p).Some? ensures Names(ds, v.k) {
      if v == u {
        assert ds[0].k == Some(v.k);
      } else {
        assert Names(rest, v.k);
        var j :| 0 <= j < |rest| && rest[j].k == Some(v.k);
        assert ds[j + 1].k == Some(v.k);
      }
    }
  }

  /**
   The main result. For every valid historical campaign and every bar whose
   adverse extreme is not beyond its open, the code's cascade never fails a
   lookup; each unit leaves exactly when the price path first reaches its level
   or its parent's, at that price, by exactly one decision; prices move only in
   the adverse direction; and what remains are the untouched units, in order.
   */
  lemma CascadeFollowsPath(m: Machine, ts: int, opening: real, low: real, high: real)
    requires Observes(m, ts) && Evidenced(m.campaign.value.units) && ValidCampaign(m.campaign.value)
    requires Orderly(m.campaign.value.side, opening, Adverse(m.campaign.value.side, low, high))
    ensures var c := m.campaign.value;
      var adverse := Adverse(c.side, low, high);
      var s := ObservePrices(m, ts, opening, low, high);
      && s.out.Ok?
      && Swept(c.side, opening, adverse, c.units, s.m.campaign, s.out.value)
      && forall u, q :: u in c.units ==>
           (ExitOf(c.side, opening, adverse, u, c.units[0]) == Some(q) <==>
            FirstTouch(c.side, opening, adverse, Level(c.side, u, opening), Level(c.side, c.units[0], opening), q))
  {
    var c := m.campaign.value;
    var adverse := Adverse(c.side, low, high);
    var hits := HitsOf(c.side, c.units, opening, adverse);
    HitsOfMatches(c.side, opening, adverse, c.units);
    SortedSorts(c.side, hits);
    var sorted := Sorted(c.side, hits);
    assert HitsMatch(c.side, opening, adverse, c.units, sorted);
    CascadeSweeps(m.(lastPriceTs := Some(ts)), sorted, ts, opening, adverse);
    forall u, q | u in c.units
      ensures ExitOf(c.side, opening, adverse, u, c.units[0]) == Some(q)
         <==> FirstTouch(c.side, opening, adverse, Level(c.side, u, opening), Level(c.side, c.units[0], opening), q)
    {
      ExitPriceIsFirstTouch(c.side, opening, adverse, Level(c.side, u, opening), Level(c.side, c.units[0], opening), q);
    }
  }

  // ---- bars whose extreme lies beyond their open ----

  /** Who leaves on any bar, orderly or not: every unit that is hit, and with the parent everyone. */
  lemma {:induction false} CascadeRemovesHits(m: Machine, hits: seq<HitAt>, ts: int, opening: real, adverse: real)
    requires m.campaign.Some? && Family(m.campaign.value.units)
    requires HitsMatch(m.campaign.value.side, opening, adverse, m.campaign.value.units, hits) && DistinctHits(hits)
    ensures var c := m.campaign.value;
      var s := Cascade(m, hits, ts, opening);
      && s.out.Ok?
      && (s.m.campaign.None? <==> Hit(c.side, c.units[0], opening, adverse))
      && (s.m.campaign.Some? ==>
            forall u :: u in s.m.campaign.value.units <==> u in c.units && !Hit(c.side, u, opening, adverse))
      && (hits == [] ==> s.out.value == [] && s.m == m)
    decreases |hits|
  {
    hide Hit, ReasonAt;
    var c := m.campaign.value;
    if hits != [] {
      assert hits[0] in hits;
      var u :| u in c.units && Hit(c.side, u, opening, adverse) && hits[0] == HitAtOf(c.side, u, opening);
      if hits[0].k == 0 {
        var i :| 0 <= i < |c.units| && c.units[i] == u;
        assert i == 0;
        CloseChildrenClosesAll(m, c.units, ts, hits[0].price, opening);
      } else {
        assert HasK(c.units, u.k);
        RemoveKeepsRest(c.units, u);
        RemainingHits(c.side, opening, adverse, c.units, hits, u);
        CascadeRemovesHits(ChildClosed(m, u.k, ts, hits[0].price, ChildLiquidation).m, hits[1..], ts, opening, adverse);
      }
    }
  }

  /** The unit's level, or its parent's, is reached before the price moves at all. */
  predicate ReachedAtOpen(c: Campaign, opening: real, u: Unit)
    requires c.units != [] && Evidenced(c.units) && u.collateral.Some?
  {
    Reached(c.side, opening, Level(c.side, u, opening)) || Reached(c.side, opening, Level(c.side, c.units[0], opening))
  }

  /** The open has passed a level that the bar's extreme has not: the rule of the code does not see it. */
  predicate MissedAt(side: Side, opening: real, adverse: real, u: Unit)
    requires u.collateral.Some?
  {
    && Denominator(side, u.collateral.value, u.entryPrice) > 0.0
    && Reached(side, opening, Level(side, u, opening)) && !Reached(side, adverse, Level(side, u, opening))
  }

  predicate Left(after: Option<Campaign>, u: Unit) {
    after.None? || u !in after.value.units
  }

  /**
   Minute bars are not validated by the source. For every valid historical campaign and every bar,
   the units that the open alone already takes all leave exactly when the bar misses no such level,
   or takes the parent and everyone with it.
   */
  lemma OpenTakesItsUnitsExactly(m: Machine, ts: int, opening: real, low: real, high: real)
    requires Observes(m, ts) && Evidenced(m.campaign.value.units) && ValidCampaign(m.campaign.value)
    ensures var c := m.campaign.value;
      var adverse := Adverse(c.side, low, high);
      var s := ObservePrices(m, ts, opening, low, high);
      && s.out.Ok?
      && ((forall u :: u in c.units && ReachedAtOpen(c, opening, u) ==> Left(s.m.campaign, u)) <==>
          (Hit(c.side, c.units[0], opening, adverse) ||
           forall u :: u in c.units ==> !MissedAt(c.side, opening, adverse, u)))
  {
    var c := m.campaign.value;
    var adverse := Adverse(c.side, low, high);
    var hits := HitsOf(c.side, c.units, opening, adverse);
    HitsOfMatches(c.side, opening, adverse, c.units);
    SortedSorts(c.side, hits);
    CascadeRemovesHits(m.(lastPriceTs := Some(ts)), Sorted(c.side, hits), ts, opening, adverse);
    assert c.units[0] in c.units;
    forall u | u in c.units
      ensures MissedAt(c.side, opening, adverse, u) <==>
              Reached(c.side, opening, Level(c.side, u, opening)) && !Hit(c.side, u, opening, adverse)
    {
    }
  }

  /** An orderly bar misses nothing: every unit that the open alone takes leaves. */
  lemma OrderlyBarTakesItsUnits(m: Machine, ts: int, opening: real, low: real, high: real)
    requires Observes(m, ts) && Evidenced(m.campaign.value.units) && ValidCampaign(m.campaign.value)
    requires Orderly(m.campaign.value.side, opening, Adverse(m.campaign.value.side, low, high))
    ensures var c := m.campaign.value;
      forall u :: u in c.units && ReachedAtOpen(c, opening, u) ==>
        Left(ObservePrices(m, ts, opening, low, high).m.campaign, u)
  {
    hide ObservePrices, ValidCampaign;
    OpenTakesItsUnitsExactly(m, ts, opening, low, high);
  }

  /** A disorderly bar can miss one: the open is below a long unit's level, yet the bar liquidates nobody. */
  lemma DisorderlyBarMissesALevel() returns (m: Machine, u: Unit)
    ensures Observes(m, 0) && m.campaign.Some? && m.campaign.value.units == [u] && ValidCampaign(m.campaign.value)
    ensures u.collateral.Some? && Reached(m.campaign.value.side, 80.0, Level(m.campaign.value.side, u, 80.0))
    ensures ObservePrices(m, 0, 80.0, 90.0, 95.0) == Step(m.(lastPriceTs := Some(0)), Ok([]))
  {
    u := Unit(0, 0, 100.0, Historical, Some(0.002));
    var c := Campaign(CampaignId(0, 1), 1, 90.0, 0, 0, 0.0, Historical, 1, [u]);
    m := Blank.(campaign := Some(c));
    assert Denominator(1, 0.002, 100.0) == 0.012;
    assert Level(1, u, 80.0) == 1.001 / 0.012;
    assert 83.0 < 1.001 / 0.012 < 84.0;
    assert HitsOf(1, [u], 80.0, 90.0) == [];
  }
}
