/**
 The live loop around the adapter: bars, order outcomes, venue closures, saved
 snapshots, crashes and starts. No funded slot is ever orphaned.
 */
module AdapterRuns {
  import opened Common
  import opened CloseRange
  import opened CloseRangeProperties
  import opened Adapter

  datatype Phase = Idle | Delivering(before: Owned) | Submitting(intents: seq<Intent>, due: bool)

  /** The mirror is what the strategy was last shown of the executor's positions. */
  datatype Process = Down | Up(a: Adapter, mirror: Owned, liveSeen: bool, cfg: Config, phase: Phase)

  /** Positions, pending exits, undelivered closures and the snapshot survive a crash. */
  datatype Engine = Engine(
    process: Process, owned: Owned, exits: set<int>, undelivered: seq<Event>, saved: Option<Saved>)

  /** A withheld bar is one the engine keeps from the strategy: no decision, the rest of the loop as usual. */
  datatype Act =
    | Start(seed: Adapter, cfg: Config)
    | Crash
    | Funding(ts: int, rate: real, fixing: real)
    | Evidence(complete: bool, available: bool)
    | VenueCloses(events: seq<Event>)
    | Deliver
    | Retry(k: int)
    | BarArrives(bar: Bar, warmup: bool, due: bool)
    | BarWithheld(warmup: bool, due: bool)
    | Fill(price: Price, ts: int)
    | NoFill
    | Exited
    | NotExited(attempted: bool)
    | Noted
    | EndBar

  function EventKs(events: seq<Event>): set<int> {
    set e | e in events :: e.k
  }

  predicate Distinct(events: seq<Event>) {
    forall i, j :: 0 <= i < j < |events| ==> events[i].k != events[j].k
  }

  // ---- starting ----

  /** Reconcile, deliver what is undelivered, then take ownership: the engine's order. */
  function Reconciled(a: Adapter, owned: Owned, events: seq<Event>): Acted {
    var r := Reconcile(a, owned);
    if r.Raised? || events == [] then r else OnExternals(r.a, ChildrenFirst(events), owned)
  }

  function Started(a: Adapter, owned: Owned, events: seq<Event>): Acted {
    var r := Reconciled(a, owned, events);
    if r.Raised? then r else OnStartup(r.a, owned)
  }

  /** A first start has only modelled history and owns nothing. */
  predicate Fresh(a: Adapter) {
    && Restorable(a.machine) && (a.machine.campaign.Some? ==> a.machine.campaign.value.origin == Historical)
    && a.closing == {} && a.aborting == {} && a.pending == None && a.urgent == []
  }

  // ---- steps ----

  predicate InPhase(e: Engine, phase: Phase) {
    e.process.Up? && e.process.phase == phase
  }

  predicate Heads(e: Engine) {
    e.process.Up? && e.process.phase.Submitting? && e.process.phase.intents != []
  }

  predicate DueRule(b: Bar, warmup: bool, due: bool, intents: seq<Intent>) {
    && (warmup ==> !due)
    && (!warmup && (b.Daily? || intents != []) ==> due)
  }

  predicate Enabled(e: Engine, act: Act) {
    match act
    case Start(seed, _) => e.process.Down? && Fresh(seed)
    case Crash => e.process.Up?
    case Funding(_, _, _) => InPhase(e, Idle)
    case Evidence(_, _) => InPhase(e, Idle)
    case VenueCloses(events) =>
      InPhase(e, Idle) && events != [] && EventKs(events) <= e.owned.Keys && Distinct(events)
    case Deliver => e.process.Up? && e.process.phase.Delivering?
    case Retry(k) => InPhase(e, Idle) && k in e.exits
    case BarArrives(b, warmup, due) =>
      && InPhase(e, Idle) && (warmup ==> !e.process.liveSeen)
      && var r := OnBar(e.process.a, b, warmup, e.process.mirror, e.process.cfg);
      r.Acted? ==> DueRule(b, warmup, due, r.intents)
    case BarWithheld(warmup, due) => InPhase(e, Idle) && (warmup ==> !due && !e.process.liveSeen)
    case Fill(_, _) => Heads(e) && e.process.phase.intents[0].Enter?
    case NoFill => Heads(e) && e.process.phase.intents[0].Enter?
    case Exited => Heads(e) && e.process.phase.intents[0].Leave? && e.process.phase.intents[0].k in e.owned
    case NotExited(_) => Heads(e) && e.process.phase.intents[0].Leave?
    case Noted => Heads(e) && e.process.phase.intents[0].Note?
    case EndBar => e.process.Up? && e.process.phase.Submitting? && e.process.phase.intents == []
  }

  /** A hook that raises stops the process. */
  function Hooked(e: Engine, r: Acted, phase: Phase): Engine
    requires e.process.Up?
  {
    if r.Raised? then e.(process := Down) else e.(process := e.process.(a := r.a, phase := phase))
  }

  function Save(e: Engine): Engine
  {
    if e.process.Up? then e.(saved := Some(Persist(e.process.a))) else e
  }

  function StartNext(e: Engine, seed: Adapter, cfg: Config): Engine {
    var restored := if e.saved.Some? then Restored(e.saved.value) else Acted(seed, []);
    if restored.Raised? then e
    else
      var r := Reconciled(restored.a, e.owned, e.undelivered);
      if r.Raised? then e
      else
        var delivered := if e.undelivered == [] then e else e.(saved := Some(Persist(r.a)), undelivered := []);
        var s := OnStartup(r.a, e.owned);
        if s.Raised? then delivered else delivered.(process := Up(s.a, e.owned, false, cfg, Idle))
  }

  function Next(e: Engine, act: Act): Engine
    requires Enabled(e, act)
  {
    var p := e.process;
    match act
    case Start(seed, cfg) => StartNext(e, seed, cfg)
    case Crash => e.(process := Down)
    case Funding(ts, rate,
        fixing) => e.(process := p.(a := p.a.(machine := ApplyFunding(p.a.machine, ts, rate, fixing).m)))
    case Evidence(complete, available) =>
      e.(process := p.(a := p.a.(machine := p.a.machine.(modelComplete := complete, fundingAvailable := available))))
    case VenueCloses(events) =>
      var owned := e.owned - EventKs(events);
      e.(owned := owned, exits := e.exits - EventKs(events), undelivered := e.undelivered + events,
         process := p.(mirror := owned, phase := Delivering(e.owned)))
    case Deliver =>
      var e1 := Hooked(e, OnExternals(p.a, ChildrenFirst(e.undelivered), e.owned), Idle);
      if e1.process.Down? then e1 else Save(e1).(undelivered := [])
    case Retry(k) => e.(owned := e.owned - {k}, exits := e.exits - {k})
    case BarArrives(b, warmup, due) =>
      var r := OnBar(p.a, b, warmup, p.mirror, p.cfg);
      var e1 := Hooked(e, r, Submitting(if r.Acted? then r.intents else [], due));
      if e1.process.Down? then e1
      else
        var e2 := e1.(process := e1.process.(liveSeen := p.liveSeen || !warmup));
        if due then Save(e2) else e2
    case BarWithheld(warmup, due) =>
      var e1 := e.(process := p.(liveSeen := p.liveSeen || !warmup, phase := Submitting([], due)));
      if due then Save(e1) else e1
    case Fill(price, ts) =>
      var i, rest := p.phase.intents[0], p.phase.intents[1..];
      var r := OnEntered(p.a, i.k, price);
      Hooked(e.(owned := e.owned[i.k := Held(i.side, price, ts)]), r,
             Submitting(rest + if r.Acted? then r.intents else [], p.phase.due))
    case NoFill =>
      var i := p.phase.intents[0];
      Hooked(e, OnNotEntered(p.a, i.k, i.campaign), Submitting(p.phase.intents[1..], p.phase.due))
    case Exited =>
      var i := p.phase.intents[0];
      Hooked(e.(owned := e.owned - {i.k}, exits := e.exits - {i.k}), OnExited(p.a, i.k, i.abort),
             Submitting(p.phase.intents[1..], p.phase.due))
    case NotExited(attempted) =>
      var k := p.phase.intents[0].k;
      e.(exits := if attempted && k in e.owned then e.exits + {k} else e.exits,
         process := p.(phase := Submitting(p.phase.intents[1..], p.phase.due)))
    case Noted => e.(process := p.(phase := Submitting(p.phase.intents[1..], p.phase.due)))
    case EndBar =>
      var e1 := Hooked(e.(process := p.(mirror := e.owned)), Reconcile(p.a, e.owned), Idle);
      if p.phase.due then Save(e1) else e1
  }

  ghost predicate Follows(e: Engine, script: seq<Act>, end: Engine)
    decreases |script|
  {
    if script == [] then e == end else Enabled(e, script[0]) && Follows(Next(e, script[0]), script[1..], end)
  }

  const Initial := Engine(Down, map[], {}, [], None)

  ghost predicate Reachable(e: Engine) {
    exists script :: Follows(Initial, script, e)
  }

  // ---- the invariant ----

  const SLOTS: set<int> := {0, 1, 2, 3}
  const CHILDREN: set<int> := {1, 2, 3}

  /** A modelled parent that has not been funded. */
  predicate FreshParent(m: Machine) {
    && HasOrigin(m, Paper) && |Units(m)| == 1 && Units(m)[0].k == 0 && Units(m)[0].origin == Paper
    && m.campaign.value.lifetimeUnits == 1
  }

  predicate AllLive(units: seq<Unit>) {
    forall u :: u in units ==> u.origin == Live
  }

  predicate SidesAgree(m: Machine, owned: Owned)
    requires m.campaign.Some?
  {
    forall k :: k in owned ==> owned[k].side == m.campaign.value.side
  }

  predicate Bounds(a: Adapter, owned: Owned, exits: set<int>) {
    && Restorable(a.machine)
    && a.closing <= SLOTS && a.aborting <= CHILDREN && owned.Keys <= SLOTS && exits <= owned.Keys
    && (a.closing != {} ==> a.machine.campaign.None?)
  }

  /** Anything funded, about to be funded or being closed is later than the activation. */
  predicate Past(a: Adapter, held: set<int>) {
    && (HasOrigin(a.machine, Paper) || HasOrigin(a.machine, Live) || held != {} || a.closing != {} || a.aborting != {}
        || a.pending.Some? ==>
          a.machine.lastBarTs.Some? && a.machine.lastBarTs.value + DAY >= a.activation)
    && (a.pending.Some? ==> a.pending.value.ts <= a.machine.lastBarTs.value + DAY)
  }

  /** Between two bars every funded slot is a unit of the live campaign or is being closed. */
  predicate Campaigned(a: Adapter, owned: Owned) {
    match a.machine.campaign
    case None => owned.Keys <= a.closing
    case Some(c) =>
      match c.origin
      case Historical => owned == map[] && a.aborting == {} && a.pending == None
      case Paper => FreshParent(a.machine) && owned == map[]
                    && a.pending.Some? && a.pending.value.id == c.id && a.pending.value.side == c.side
      case Live =>
        && a.pending == None && 0 in owned && AllLive(c.units) && SidesAgree(a.machine, owned)
        && owned.Keys <= Ks(a.machine) <= owned.Keys + a.aborting
  }

  predicate UrgentOk(a: Adapter, owned: Owned) {
    forall i :: i in a.urgent ==> i.Leave? && !i.abort && (i.k in owned ==> i.k in a.closing)
  }

  predicate Settled(a: Adapter, owned: Owned, exits: set<int>) {
    && Bounds(a, owned, exits) && Past(a, owned.Keys) && Campaigned(a, owned) && UrgentOk(a, owned)
    && exits <= a.closing + a.aborting
  }

  predicate MirrorOk(a: Adapter, mirror: Owned, owned: Owned) {
    && (forall k :: k in owned ==> k in mirror && mirror[k] == owned[k])
    && mirror.Keys <= owned.Keys + a.closing + a.aborting
  }

  // ---- what a snapshot must promise ----

  /** The modelled add-on that a crash may have left without a confirmation. */
  predicate PaperLast(m: Machine, k: int) {
    && HasOrigin(m, Live) && Units(m) != []
    && Units(m)[|Units(m)| - 1].k == k && Units(m)[|Units(m)| - 1].origin == Paper
    && k > 0 && m.campaign.value.lifetimeUnits == k + 1
  }

  /** Which funded slots an exit may be pending for when a restart begins from this state. */
  predicate MayExit(a: Adapter, k: int, owned: Owned) {
    || a.machine.campaign.None?
    || k in a.aborting
    || (PaperLast(a.machine, k) && k in owned
        && TooFar(a.machine.campaign.value.side, owned[k].price, Units(a.machine)[0].entryPrice))
  }

  predicate LiveButLast(m: Machine) {
    && HasOrigin(m, Live) && Units(m) != [] && Units(m)[0].origin == Live
    && forall i :: 0 <= i < |Units(m)| ==> Units(m)[i].origin == Live || PaperLast(m, Units(m)[i].k)
  }

  /** held: the slots funded when the snapshot was saved or since, delivered or not. */
  predicate SavedCampaign(a: Adapter, owned: Owned, held: set<int>) {
    match a.machine.campaign
    case None => held <= a.closing
    case Some(c) =>
      match c.origin
      case Historical => held == {} && a.aborting == {} && a.pending == None
      case Paper =>
        FreshParent(a.machine) && held <= {0} && SidesAgree(a.machine, owned)
        && (a.pending.Some? ==> a.pending.value.id == c.id)
      case Live =>
        && a.pending == None && 0 in held && held <= Ks(a.machine) && LiveButLast(a.machine)
            && SidesAgree(a.machine, owned)
        && forall u :: u in c.units && u.origin == Live ==> u.k in held + a.aborting
  }

  predicate Resumable(a: Adapter, owned: Owned, undelivered: set<int>, exits: set<int>) {
    && Bounds(a, owned, exits) && undelivered <= SLOTS && undelivered !! owned.Keys
    && Past(a, owned.Keys + undelivered)
    && SavedCampaign(a, owned, owned.Keys + undelivered)
    && forall k :: k in exits ==> MayExit(a, k, owned)
  }

  predicate SavedOk(e: Engine) {
    match e.saved
    case None => e.owned == map[] && e.undelivered == [] && e.exits == {}
    case Some(s) =>
      Restored(s).Acted? && Resumable(Restored(s).a, e.owned, EventKs(e.undelivered), e.exits)
  }

  // ---- inside a bar ----

  predicate NoEntry(intents: seq<Intent>) {
    forall i :: i in intents ==> !i.Enter?
  }

  /** Exits still to be submitted are for slots the adapter is closing or aborting. */
  predicate LeavesOk(a: Adapter, owned: Owned, intents: seq<Intent>) {
    forall i :: i in intents && i.Leave? && i.k in owned ==> if i.abort then i.k in a.aborting else i.k in a.closing
  }

  /** The one state in which an entry may still be submitted, as the last intent. */
  predicate Entering(a: Adapter, owned: Owned, exits: set<int>, i: Intent) {
    && Bounds(a, owned, exits) && Past(a, owned.Keys) && i.Enter? && a.closing == {} && a.urgent == []
    && a.machine.campaign.Some? && a.machine.campaign.value.id == i.campaign && a.machine.campaign.value.side == i.side
    && exits <= a.aborting
    && if i.k == 0 then
         FreshParent(a.machine) && owned == map[] && (a.pending.Some? ==> a.pending.value.id == i.campaign)
       else
         && PaperLast(a.machine, i.k) && a.pending == None && a.aborting == {} && i.k !in owned
         && LiveButLast(a.machine) && SidesAgree(a.machine, owned)
         && 0 in owned && Ks(a.machine) == owned.Keys + {i.k}
  }

  predicate InBar(e: Engine) {
    e.process.Up? && e.process.phase.Submitting? ==>
      var p, intents := e.process, e.process.phase.intents;
      && LeavesOk(p.a, e.owned, intents)
      && (intents != [] ==>
            && p.liveSeen && p.phase.due && p.a.urgent == [] && e.saved.Some? && Restored(e.saved.value).Acted?
            && forall i :: i in intents && i.Leave? && i.k in e.owned ==>
                MayExit(Restored(e.saved.value).a, i.k, e.owned))
      && if NoEntry(intents) then Settled(p.a, e.owned, e.exits)
         else
           && NoEntry(intents[..|intents| - 1]) && Entering(p.a, e.owned, e.exits, intents[|intents| - 1])
           && Restored(e.saved.value).a == p.a
  }

  predicate Inv(e: Engine) {
    && SavedOk(e) && Distinct(e.undelivered)
    && InBar(e)
    && match e.process
       case Down => true
       case Up(a, mirror, liveSeen, _, phase) =>
         && (!liveSeen ==> !HasOrigin(a.machine, Paper))
         && (phase.Delivering? ==>
               && Settled(a, phase.before, e.exits) && e.owned == phase.before - EventKs(e.undelivered)
               && EventKs(e.undelivered) <= phase.before.Keys && mirror == e.owned)
         && (!phase.Delivering? ==> e.undelivered == [])
         && (phase.Idle? ==> Settled(a, e.owned, e.exits) && MirrorOk(a, mirror, e.owned))
  }
}
