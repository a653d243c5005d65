/**
 Delivery of venue-side closures into the strategies' durable state. A hook updates the
 strategy in memory; then one transaction stores the strategy and acknowledges the closures.
 Whatever the crash point, a stored state contains a closure exactly when it was acknowledged.
 */
module Delivery {
  import opened Common
  import opened Ledger
  import LedgerProperties

  /** A strategy's state: the closures it has taken into account, in order, and everything else it stores. */
  datatype State = State(effects: seq<TradeId>, rest: string)

  function Trades(events: seq<ExternalEvent>): seq<TradeId> {
    seq(|events|, i requires 0 <= i < |events| => events[i].trade)
  }

  function Hooked(s: State, events: seq<ExternalEvent>, rest: string): State {
    State(s.effects + Trades(events), rest)
  }

  function Keys(events: seq<ExternalEvent>): set<CommandKey> { set e | e in events :: CloseKey(e.trade) }

  class Deliverer {
    const recorder: Recorder
    var models: map<string, State>
    var snapshots: map<string, State>

    constructor (recorder: Recorder)
      ensures this.recorder == recorder && models == map[] && snapshots == map[]
    {
      this.recorder, models, snapshots := recorder, map[], map[];
    }

    /**
     Call the hook for every event, then commit callback state and acknowledgement as one unit.
     The hook may raise at the event with number raisesAt; then nothing stored or acknowledged has changed.
     */
    method DeliverExternal(owner: string, events: seq<ExternalEvent>, rest: string, raisesAt: nat) returns (ok: bool)
      requires owner in models
      modifies this, recorder
      ensures ok <==> |events| <= raisesAt
      ensures ok ==> models == old(models)[owner := Hooked(old(models)[owner], events, rest)]
      ensures ok ==> snapshots == old(snapshots)[owner := models[owner]]
      ensures ok ==> recorder.State() == Acknowledge(old(recorder.State()), Keys(events))
      ensures !ok ==> snapshots == old(snapshots) && recorder.State() == old(recorder.State())
    {
      var i := 0;
      while i < |events|
        invariant 0 <= i <= |events| && i <= raisesAt
        invariant snapshots == old(snapshots) && recorder.State() == old(recorder.State())
        invariant owner in models && models[owner].rest == old(models)[owner].rest
        invariant models[owner].effects == old(models)[owner].effects + Trades(events)[..i]
        invariant models == old(models)[owner := models[owner]]
      {
        if i == raisesAt {
          return false;
        }
        models := models[owner := models[owner].(effects := models[owner].effects + [events[i].trade])];
        i := i + 1;
      }
      assert Trades(events)[..i] == Trades(events);
      models := models[owner := models[owner].(rest := rest)];
      snapshots := snapshots[owner := models[owner]];
      recorder.AcknowledgeCommands(Keys(events));
      return true;
    }
  }

  // ---- the system ----

  datatype Phase = Idle | Called(owner: string, events: seq<ExternalEvent>)

  datatype Process = Down | Up(models: map<string, State>, phase: Phase)

  datatype Sys = Sys(ledger: Ledger, snapshots: map<string, State>, process: Process)

  datatype Act =
    | Start(owners: set<string>, blank: string)               // restore the bound strategies
    | Crash                                                   // anywhere
    | Command(key: CommandKey, action: Action, slot: Slot)    // the executor's own transactions
    | Answer(key: CommandKey, x: Execution)
    | Refuse(entry: EntryId)
    | Account(key: CommandKey)
    | Fund(runId: int, slot: Slot, row: FundingRow)
    | Think(owner: string, rest: string)                      // a strategy moves on its own
    | Store(owner: string)                                    // an ordinary snapshot
    | Call(owner: string, events: seq<ExternalEvent>, rest: string)
    | Raise(owner: string, events: seq<ExternalEvent>)        // the hook raises, which stops the process
    | Commit

  predicate Belongs(key: CommandKey, x: Execution) {
    x.external.Some? ==> key == CloseKey(x.external.value.trade)
  }

  predicate Mine(l: Ledger, key: CommandKey, owner: string) {
    Undelivered(l, key) && l.commands[key].result.value.external.value.slot.owner == owner
  }

  predicate NoRepeats(trades: seq<TradeId>) { forall i, j :: 0 <= i < j < |trades| ==> trades[i] != trades[j] }

  /** Exactly the undelivered closures of one owner. */
  ghost predicate AllPending(l: Ledger, owner: string, events: seq<ExternalEvent>) {
    && NoRepeats(Trades(events))
    && (forall e :: e in events ==>
                      && Mine(l, CloseKey(e.trade), owner)
                      && l.commands[CloseKey(e.trade)].result.value.external == Some(e))
    && forall key :: Mine(l, key, owner) ==> l.commands[key].result.value.external.value in events
  }

  predicate Ready(s: Sys) { s.process.Up? && s.process.phase.Idle? }

  ghost predicate Enabled(s: Sys, act: Act) {
    match act
    case Start(_, _) => s.process.Down?
    case Crash => s.process.Up?
    case Answer(key, x) => Ready(s) && Belongs(key, x) && LedgerProperties.Fits(key, x)
    case Refuse(entry) => Ready(s) && !LedgerProperties.IsApplied(s.ledger, EntryKey(entry))
    case Account(key) => Ready(s) && Appliable(s.ledger, key)
    case Think(owner, _) => Ready(s) && owner in s.process.models
    case Store(owner) => Ready(s) && owner in s.process.models
    case Call(owner, events, _) =>
      Ready(s) && owner in s.process.models && events != [] && AllPending(s.ledger, owner, events)
    case Raise(owner, events) =>
      Ready(s) && owner in s.process.models && events != [] && AllPending(s.ledger, owner, events)
    case Commit => s.process.Up? && s.process.phase.Called? && s.process.phase.owner in s.process.models
    case _ => Ready(s)
  }

  function Restored(snapshots: map<string, State>, owners: set<string>, blank: string): map<string, State> {
    map o | o in owners :: if o in snapshots then snapshots[o] else State([], blank)
  }

  ghost function Next(s: Sys, act: Act): Sys
    requires Enabled(s, act)
  {
    var p, l := s.process, s.ledger;
    match act
    case Start(owners, blank) => s.(process := Up(Restored(s.snapshots, owners, blank), Idle))
    case Crash => s.(process := Down)
    case Command(key, action, slot) => s.(ledger := Begin(l, key, action, slot))
    case Answer(key, x) => s.(ledger := Receive(l, key, x))
    case Refuse(entry) => s.(ledger := Reject(l, EntryKey(entry)))
    case Account(key) => s.(ledger := Post(l, key))
    case Fund(runId, slot, row) => s.(ledger := RecordFunding(l, runId, slot, row))
    case Think(owner, rest) => s.(process := p.(models := p.models[owner := p.models[owner].(rest := rest)]))
    case Store(owner) => s.(snapshots := s.snapshots[owner := p.models[owner]])
    case Call(owner, events, rest) =>
      s.(process := Up(p.models[owner := Hooked(p.models[owner], events, rest)], Called(owner, events)))
    case Raise(_, _) => s.(process := Down)
    case Commit =>
      Sys(Acknowledge(l, Keys(p.phase.events)), s.snapshots[p.phase.owner := p.models[p.phase.owner]],
          Up(p.models, Idle))
  }

  ghost predicate Run(states: seq<Sys>, acts: seq<Act>) {
    && |states| == |acts| + 1 && states[0] == Sys(Empty, map[], Down)
    && forall i :: 0 <= i < |acts| ==> Enabled(states[i], acts[i]) && states[i + 1] == Next(states[i], acts[i])
  }

  // ---- exactly once ----

  function Effects(snapshots: map<string, State>, owner: string): seq<TradeId> {
    if owner in snapshots then snapshots[owner].effects else []
  }

  /** A closure the ledger has accounted for. */
  predicate Closed(l: Ledger, key: CommandKey) {
    && key in l.commands && l.commands[key].status == Applied
    && l.commands[key].result.Some? && l.commands[key].result.value.external.Some?
  }

  function OwnerOf(l: Ledger, key: CommandKey): string
    requires Closed(l, key)
  {
    l.commands[key].result.value.external.value.slot.owner
  }

  ghost predicate Fitting(l: Ledger) {
    forall key :: key in l.commands && l.commands[key].result.Some? ==> Belongs(key, l.commands[key].result.value)
  }

  /** A stored state contains a closure exactly when it was acknowledged. */
  ghost predicate AckedIffStored(l: Ledger, snapshots: map<string, State>) {
    forall trade: TradeId :: Closed(l, CloseKey(trade)) ==>
        (l.commands[CloseKey(trade)].notified <==> trade in Effects(snapshots, OwnerOf(l, CloseKey(trade))))
  }

  /** No stored state contains anything else, or anything twice. */
  ghost predicate OnlyClosures(l: Ledger, snapshots: map<string, State>) {
    && (forall owner, trade :: trade in Effects(snapshots, owner) ==>
          Closed(l, CloseKey(trade)) && OwnerOf(l, CloseKey(trade)) == owner)
    && forall owner :: NoRepeats(Effects(snapshots, owner))
  }

  /** What memory adds to the stored effects. */
  ghost predicate InStep(s: Sys) {
    s.process.Up? ==>
      && (forall o :: o in s.process.models ==>
            s.process.models[o].effects == Effects(s.snapshots, o)
              + if s.process.phase.Called? && s.process.phase.owner == o then Trades(s.process.phase.events) else [])
      && (s.process.phase.Called? ==> AllPending(s.ledger, s.process.phase.owner, s.process.phase.events))
  }

  ghost predicate Inv(s: Sys) {
    && Fitting(s.ledger) && AckedIffStored(s.ledger, s.snapshots) && OnlyClosures(s.ledger, s.snapshots) && InStep(s)
  }

  /** A ledger transaction that touches no accounted closure and accounts only unacknowledged ones keeps all. */
  lemma LedgerStep(s: Sys, l: Ledger)
    requires Inv(s) && Ready(s) && Fitting(l)
    requires forall trade: TradeId :: Closed(s.ledger, CloseKey(trade)) ==>
                 CloseKey(trade) in l.commands && l.commands[CloseKey(trade)] == s.ledger.commands[CloseKey(trade)]
    requires forall trade: TradeId :: Closed(l, CloseKey(trade)) && !Closed(s.ledger, CloseKey(trade)) ==>
                 !l.commands[CloseKey(trade)].notified
    ensures Inv(s.(ledger := l))
  {
    hide NoRepeats, Belongs;
    forall trade: TradeId | Closed(l, CloseKey(trade))
      ensures l.commands[CloseKey(trade)].notified <==> trade in Effects(s.snapshots, OwnerOf(l, CloseKey(trade)))
    {
      if !Closed(s.ledger, CloseKey(trade)) && trade in Effects(s.snapshots, OwnerOf(l, CloseKey(trade))) {
        assert false;
      }
    }
  }

  lemma ExecutorKeeps(s: Sys, act: Act)
    requires Inv(s) && Enabled(s, act)
    requires act.Command? || act.Answer? || act.Refuse? || act.Account? || act.Fund?
    ensures Inv(Next(s, act))
  {
    hide NoRepeats, InStep, OnlyClosures, AckedIffStored, Inv, Upsert, AddEvent;
    LedgerStepReady(s, act);
    LedgerStep(s, Next(s, act).ledger);
  }

  lemma LedgerStepReady(s: Sys, act: Act)
    requires Inv(s) && Enabled(s, act)
    requires act.Command? || act.Answer? || act.Refuse? || act.Account? || act.Fund?
    ensures Inv(s) && Ready(s) && Fitting(Next(s, act).ledger) && Next(s, act) == s.(ledger := Next(s, act).ledger)
    ensures forall trade: TradeId :: Closed(s.ledger, CloseKey(trade)) ==>
                && CloseKey(trade) in Next(s, act).ledger.commands
                && Next(s, act).ledger.commands[CloseKey(trade)] == s.ledger.commands[CloseKey(trade)]
    ensures var l := Next(s, act).ledger;
            forall trade: TradeId ::
              Closed(l, CloseKey(trade)) && !Closed(s.ledger, CloseKey(trade)) ==> !l.commands[CloseKey(trade)].notified
  {
    hide NoRepeats, InStep, OnlyClosures, AckedIffStored, Upsert, AddEvent;
  }

  /** A restart brings back the stored states: none contains a closure still to be delivered. */
  lemma StartKeeps(s: Sys, owners: set<string>, blank: string)
    requires Inv(s) && s.process.Down?
    ensures Inv(Next(s, Start(owners, blank)))
  {
    hide NoRepeats, OnlyClosures, AckedIffStored, Fitting;
  }

  lemma StoreKeeps(s: Sys, owner: string)
    requires Inv(s) && Enabled(s, Store(owner))
    ensures Inv(Next(s, Store(owner)))
  {
    hide NoRepeats, Fitting, Closed;
    var after := Next(s, Store(owner));
    assert forall o :: Effects(after.snapshots, o) == Effects(s.snapshots, o);
  }

  lemma ThinkKeeps(s: Sys, owner: string, rest: string)
    requires Inv(s) && Enabled(s, Think(owner, rest))
    ensures Inv(Next(s, Think(owner, rest)))
  {
    hide NoRepeats, OnlyClosures, AckedIffStored, Fitting;
  }

  lemma CallKeeps(s: Sys, owner: string, events: seq<ExternalEvent>, rest: string)
    requires Inv(s) && Enabled(s, Call(owner, events, rest))
    ensures Inv(Next(s, Call(owner, events, rest)))
  {
    hide NoRepeats, OnlyClosures, AckedIffStored, Fitting, Trades, AllPending;
  }

  lemma TradesAre(events: seq<ExternalEvent>)
    ensures forall t :: t in Trades(events) <==> CloseKey(t) in Keys(events)
    ensures forall t :: t in Trades(events) ==> exists e :: e in events && e.trade == t
  {
    forall t | t in Trades(events) ensures CloseKey(t) in Keys(events) && exists e :: e in events && e.trade == t {
      var i :| 0 <= i < |events| && Trades(events)[i] == t;
      assert events[i] in events;
    }
    forall t: TradeId | CloseKey(t) in Keys(events) ensures t in Trades(events) {
      var e :| e in events && e.trade == t;
      var i :| 0 <= i < |events| && events[i] == e;
      assert Trades(events)[i] == t;
    }
  }

  /** The one transaction makes the closures both stored and acknowledged. */
  lemma CommitKeeps(s: Sys)
    requires Inv(s) && Enabled(s, Commit)
    ensures Inv(Next(s, Commit))
  {
    hide NoRepeats, Trades, Keys, Inv;
    CommitFacts(s);
    var after := Next(s, Commit);
    assert InStep(after);
    CommitStored(s);
    assert Fitting(after.ledger);
    InvFrom(after);
  }

  lemma InvFrom(s: Sys)
    requires Fitting(s.ledger) && AckedIffStored(s.ledger, s.snapshots) && OnlyClosures(s.ledger, s.snapshots)
    requires InStep(s)
    ensures Inv(s)
  {
  }

  lemma CommitFacts(s: Sys)
    requires Inv(s) && Enabled(s, Commit)
    ensures Fitting(s.ledger) && AckedIffStored(s.ledger, s.snapshots) && OnlyClosures(s.ledger, s.snapshots)
    ensures InStep(s)
    ensures InStep(Next(s, Commit))
  {
    hide NoRepeats, Trades, Keys, OnlyClosures, AckedIffStored, Fitting, AllPending;
    var after, owner := Next(s, Commit), s.process.phase.owner;
    assert after.snapshots[owner].effects == s.process.models[owner].effects;
  }

  /** The trades being delivered are those pending, and none of them is stored yet. */
  lemma PendingAreNew(s: Sys)
    requires Inv(s) && Enabled(s, Commit)
    ensures var owner, events := s.process.phase.owner, s.process.phase.events;
            && NoRepeats(Trades(events))
            && (forall t :: t in Trades(events) ==>
                              && Closed(s.ledger, CloseKey(t)) && OwnerOf(s.ledger, CloseKey(t)) == owner
                              && !s.ledger.commands[CloseKey(t)].notified && t !in Effects(s.snapshots, owner))
            && (forall t: TradeId :: Mine(s.ledger, CloseKey(t), owner) ==> t in Trades(events))
  {
    hide NoRepeats, Trades, Keys, OnlyClosures;
    var owner, events := s.process.phase.owner, s.process.phase.events;
    TradesAre(events);
    forall t: TradeId | Mine(s.ledger, CloseKey(t), owner) ensures t in Trades(events) {
      var e := s.ledger.commands[CloseKey(t)].result.value.external.value;
      assert e in events && e.trade == t;
      KeysHas(events, e);
    }
  }

  lemma KeysHas(events: seq<ExternalEvent>, e: ExternalEvent)
    requires e in events
    ensures CloseKey(e.trade) in Keys(events)
  {
  }

  lemma DistinctJoin(a: seq<TradeId>, b: seq<TradeId>)
    requires NoRepeats(a) && NoRepeats(b) && forall t :: t in b ==> t !in a
    ensures NoRepeats(a + b)
  {
    var all := a + b;
    forall i, j | 0 <= i < j < |all| ensures all[i] != all[j] {
      if i < |a| <= j {
        assert b[j - |a|] in b && a[i] in a;
      }
    }
  }

  lemma CommitStored(s: Sys)
    requires Inv(s) && Enabled(s, Commit)
    ensures AckedIffStored(Next(s, Commit).ledger, Next(s, Commit).snapshots)
    ensures OnlyClosures(Next(s, Commit).ledger, Next(s, Commit).snapshots)
  {
    hide NoRepeats, Trades, Keys;
    var after, owner, events := Next(s, Commit), s.process.phase.owner, s.process.phase.events;
    PendingAreNew(s);
    TradesAre(events);
    DistinctJoin(Effects(s.snapshots, owner), Trades(events));
    assert Effects(after.snapshots, owner) == Effects(s.snapshots, owner) + Trades(events);
    assert forall o :: o != owner ==> Effects(after.snapshots, o) == Effects(s.snapshots, o);
    forall t: TradeId ensures Closed(after.ledger, CloseKey(t)) <==> Closed(s.ledger, CloseKey(t)) {}
  }

  lemma StepKeeps(s: Sys, act: Act)
    requires Inv(s) && Enabled(s, act)
    ensures Inv(Next(s, act))
  {
    hide Inv, Enabled, Next;
    match act
    case Start(owners, blank) => StartStep(s, owners, blank);
    case Crash => CrashStep(s);
    case Raise(owner, events) => RaiseStep(s, owner, events);
    case Think(owner, rest) => ThinkKeeps(s, owner, rest);
    case Store(owner) => StoreKeeps(s, owner);
    case Call(owner, events, rest) => CallKeeps(s, owner, events, rest);
    case Commit => CommitKeeps(s);
    case _ => ExecutorKeeps(s, act);
  }

  lemma StartStep(s: Sys, owners: set<string>, blank: string)
    requires Inv(s) && Enabled(s, Start(owners, blank))
    ensures Inv(Next(s, Start(owners, blank)))
  {
    hide Inv;
    StartKeeps(s, owners, blank);
  }

  /** A raising hook leaves the ledger and every stored state alone. */
  lemma RaiseStep(s: Sys, owner: string, events: seq<ExternalEvent>)
    requires Inv(s) && Enabled(s, Raise(owner, events))
    ensures Inv(Next(s, Raise(owner, events)))
    ensures Next(s, Raise(owner, events)).ledger == s.ledger && Next(s, Raise(owner, events)).snapshots == s.snapshots
  {
    hide Fitting, AckedIffStored, OnlyClosures, AllPending;
  }

  lemma CrashStep(s: Sys)
    requires Inv(s) && Enabled(s, Crash)
    ensures Inv(Next(s, Crash))
  {
    hide Fitting, AckedIffStored, OnlyClosures;
  }

  /** In every run, at every crash point: stored exactly when acknowledged, each closure once, nothing else. */
  lemma {:induction false} DeliveredExactlyOnce(states: seq<Sys>, acts: seq<Act>, i: nat)
    requires Run(states, acts) && i < |states|
    ensures Inv(states[i])
    ensures AckedIffStored(states[i].ledger, states[i].snapshots)
    ensures OnlyClosures(states[i].ledger, states[i].snapshots)
  {
    hide Enabled, Next;
    if i > 0 {
      DeliveredExactlyOnce(states, acts, i - 1);
      StepKeeps(states[i - 1], acts[i - 1]);
    }
  }

  /** Delivering disturbs no books: rows, event keys and daily totals stay sound in every run. */
  lemma {:induction false} BooksStaySound(states: seq<Sys>, acts: seq<Act>, i: nat)
    requires Run(states, acts) && i < |states|
    ensures LedgerProperties.Sound(states[i].ledger)
  {
    hide LedgerProperties.Sound;
    if i == 0 {
      LedgerProperties.EmptyIsSound();
    } else {
      BooksStaySound(states, acts, i - 1);
      BooksStep(states[i - 1], acts[i - 1]);
    }
  }

  lemma BooksStep(s: Sys, act: Act)
    requires LedgerProperties.Sound(s.ledger) && Enabled(s, act)
    ensures LedgerProperties.Sound(Next(s, act).ledger)
  {
    hide LedgerProperties.Sound, Post, Begin, Receive, Reject, Acknowledge, RecordFunding, AllPending;
    match act
    case Command(key, action, slot) => LedgerProperties.BeginKeeps(s.ledger, key, action, slot);
    case Answer(key, x) => LedgerProperties.ReceiveKeeps(s.ledger, key, x);
    case Refuse(entry) => LedgerProperties.RejectKeeps(s.ledger, EntryKey(entry));
    case Account(key) => LedgerProperties.PostKeeps(s.ledger, key);
    case Fund(runId, slot, row) => LedgerProperties.FundingKeeps(s.ledger, runId, slot, row);
    case Commit => LedgerProperties.AcknowledgeKeeps(s.ledger, Keys(s.process.phase.events));
    case _ =>
  }

  /** After any crash the owner is handed every closure it has not stored, in the state from before them. */
  lemma RedeliveredToPreEventState(s: Sys, owners: set<string>, blank: string, owner: string, trade: TradeId)
    requires Inv(s) && s.process.Down? && owner in owners
    requires Closed(s.ledger, CloseKey(trade)) && OwnerOf(s.ledger, CloseKey(trade)) == owner
    ensures var restored := Next(s, Start(owners, blank)).process.models[owner];
            trade in restored.effects <==> !Mine(s.ledger, CloseKey(trade), owner)
  {
    hide NoRepeats, Fitting;
  }

  /** One delivery leaves the owner nothing undelivered, and no other owner's closures touched. */
  lemma DeliveryIsComplete(s: Sys, owner: string, events: seq<ExternalEvent>, rest: string, key: CommandKey)
    requires Inv(s) && Enabled(s, Call(owner, events, rest))
    ensures Enabled(Next(s, Call(owner, events, rest)), Commit)
    ensures var after := Next(Next(s, Call(owner, events, rest)), Commit);
            && !Mine(after.ledger, key, owner)
            && forall other :: other != owner ==> (Mine(after.ledger, key, other) <==> Mine(s.ledger, key, other))
  {
    hide NoRepeats, Trades, Fitting, AckedIffStored, OnlyClosures;
    if Mine(s.ledger, key, owner) {
      var e := s.ledger.commands[key].result.value.external.value;
      assert e in events;
      PendingKey(s, owner, events, key);
    }
    forall other | other != owner && Mine(s.ledger, key, other)
      ensures key !in Keys(events)
    {
      forall e | e in events ensures CloseKey(e.trade) != key { assert Mine(s.ledger, CloseKey(e.trade), owner); }
    }
  }

  lemma PendingKey(s: Sys, owner: string, events: seq<ExternalEvent>, key: CommandKey)
    requires Fitting(s.ledger) && AllPending(s.ledger, owner, events) && Mine(s.ledger, key, owner)
    ensures key in Keys(events)
  {
    var e := s.ledger.commands[key].result.value.external.value;
    assert Belongs(key, s.ledger.commands[key].result.value);
    KeysHas(events, e);
  }
}
