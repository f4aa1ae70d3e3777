/** The instance cache of one process, fed by reads, write-through and notifications, beside the
    database that any process may change. */
module Caching {
  import opened Wrappers
  import opened Amm
  import opened PricingEngine
  import opened Fee
  import opened Books
  import opened Exchange
  import opened Invariant
  import opened Preservation
  import opened Evolution
  import opened Runs
  import opened Audit
  import opened Theorems
  import opened Effects

  const TTL_MS := 2_000
  const CAPACITY := 10_000

  datatype Entry = Entry(row: Instance, stored: int)

  /** A notification: a trade carries its inventory, every other event none. */
  datatype Note = Note(market: MarketId, version: nat, inventory: Option<seq<int>>)

  // ---- The cache's operations -----------------------------------------------------------------------

  function Inserted(cache: map<MarketId, Entry>, id: MarketId, row: Instance, now: int): map<MarketId, Entry> {
    (if |cache| >= CAPACITY then map[] else cache)[id := Entry(row, now)]
  }

  /** The version guard: the next version is applied, a gap drops the entry, anything older is
      ignored. */
  function Traded(
      cache: map<MarketId, Entry>, id: MarketId, version: nat, inventory: seq<int>, now: int
    ): map<MarketId, Entry> {
    if id !in cache then cache
    else if cache[id].row.version + 1 == version then
      cache[id := Entry(cache[id].row.(inventory := inventory, version := version), now)]
    else if cache[id].row.version < version then cache - {id}
    else cache
  }

  function Handled(cache: map<MarketId, Entry>, note: Note, now: int): map<MarketId, Entry> {
    match note.inventory
    case Some(inventory) => Traded(cache, note.market, note.version, inventory, now)
    case None => cache - {note.market}
  }

  class Cache {
    var instances: map<MarketId, Entry>

    constructor ()
      ensures instances == map[]
    {
      instances := map[];
    }

    method Lookup(id: MarketId, now: int) returns (hit: Option<Instance>)
      ensures hit.Some? <==> id in instances && now - instances[id].stored < TTL_MS
      ensures hit.Some? ==> hit.value == instances[id].row
    {
      hit := None;
      if id in instances {
        var entry := instances[id];
        if now - entry.stored < TTL_MS {
          hit := Some(entry.row);
        }
      }
    }

    method PutInstance(id: MarketId, row: Instance, now: int)
      modifies this
      ensures instances == Inserted(old(instances), id, row, now)
      ensures instances == (if |old(instances)| < 10_000 then old(instances) else map[])[id := Entry(row, now)]
    {
      if |instances| >= CAPACITY {
        instances := map[];
      }
      instances := instances[id := Entry(row, now)];
    }

    method ApplyTrade(id: MarketId, version: nat, inventory: seq<int>, now: int)
      modifies this
      ensures instances == Traded(old(instances), id, version, inventory, now)
      ensures id !in old(instances) || version <= old(instances)[id].row.version ==> instances == old(instances)
      ensures id in old(instances) && version == old(instances)[id].row.version + 1 ==>
        instances == old(instances)[id := Entry(old(instances)[id].row.(inventory := inventory, version := version), now)]
      ensures id in old(instances) && version > old(instances)[id].row.version + 1 ==> instances == old(instances) - {id}
    {
      if id in instances {
        var entry := instances[id].row;
        if entry.version == version - 1 {
          entry := entry.(inventory := inventory);
          entry := entry.(version := version);
          instances := instances[id := Entry(entry, now)];
        } else if entry.version < version {
          instances := instances - {id};
        }
      }
    }

    method Invalidate(id: MarketId)
      modifies this
      ensures instances == old(instances) - {id}
    {
      instances := instances - {id};
    }

    method Handle(note: Note, now: int)
      modifies this
      ensures instances == Handled(old(instances), note, now)
    {
      match note.inventory
      case Some(inventory) => ApplyTrade(note.market, note.version, inventory, now);
      case None => Invalidate(note.market);
    }
  }

  // ---- The cache beside the database ------------------------------------------------------------------

  function At(e: Engine, steps: seq<Step>, k: nat): State
    requires k <= |steps|
  {
    Run(e, Genesis(), steps[..k])
  }

  /** The row was committed at some point of the run; a read may return any such row, however
      stale by now. */
  ghost predicate CommittedAt(e: Engine, steps: seq<Step>, id: MarketId, row: Instance, k: nat) {
    k <= |steps| && id in At(e, steps, k).db.markets && At(e, steps, k).db.markets[id].row == row
  }

  ghost predicate Committed(e: Engine, steps: seq<Step>, id: MarketId, row: Instance) {
    exists k: nat :: CommittedAt(e, steps, id, row, k)
  }

  /** Step `k` was the trade that moved the market to `version`. */
  ghost predicate TradedAt(e: Engine, steps: seq<Step>, id: MarketId, version: nat, inventory: seq<int>, k: nat) {
    && k < |steps| && steps[k].op.TradeOp?
    && id in At(e, steps, k).db.markets && id in At(e, steps, k + 1).db.markets
    && At(e, steps, k).db.markets[id].row.version + 1 == version
    && At(e, steps, k + 1).db.markets[id].row.version == version
    && At(e, steps, k + 1).db.markets[id].row.inventory == inventory
  }

  /** Notifications announce committed events, at any time and any number of times; notes without
      an inventory only drop an entry, so nothing is asked of them. */
  ghost predicate Genuine(e: Engine, steps: seq<Step>, note: Note) {
    note.inventory.Some? ==> exists k: nat :: TradedAt(e, steps, note.market, note.version, note.inventory.value, k)
  }

  datatype Event =
    | Transact(step: Step)
    | Fill(market: MarketId, row: Instance, at: int)
    | Hear(note: Note, at: int)
    | Drop(market: MarketId)

  datatype System = System(steps: seq<Step>, cache: map<MarketId, Entry>)

  function After(y: System, event: Event): System {
    match event
    case Transact(step) => y.(steps := y.steps + [step])
    case Fill(id, row, at) => y.(cache := Inserted(y.cache, id, row, at))
    case Hear(note, at) => y.(cache := Handled(y.cache, note, at))
    case Drop(id) => y.(cache := y.cache - {id})
  }

  function AfterAll(events: seq<Event>): System {
    if events == [] then System([], map[])
    else After(AfterAll(events[..|events| - 1]), events[|events| - 1])
  }

  ghost predicate LegalEvent(e: Engine, y: System, event: Event) {
    match event
    case Transact(step) => LegalStep(Run(e, Genesis(), y.steps), step)
    case Fill(id, row, _) => Committed(e, y.steps, id, row)
    case Hear(note, _) => Genuine(e, y.steps, note)
    case Drop(_) => true
  }

  ghost predicate LegalEvents(e: Engine, events: seq<Event>) {
    forall k :: 0 <= k < |events| ==> LegalEvent(e, AfterAll(events[..k]), events[k])
  }

  /** Every cached entry is the row as it was committed at the entry's version. */
  ghost predicate Agrees(e: Engine, y: System) {
    forall id :: id in y.cache ==> Committed(e, y.steps, id, y.cache[id].row)
  }

  // ---- A version names one row --------------------------------------------------------------------------

  lemma SameVersionSameRow(e: Engine, steps: seq<Step>, id: MarketId, a: Instance, b: Instance, k: nat, l: nat)
    requires SoundEngine(e) && LegalRun(e, Genesis(), steps)
    requires CommittedAt(e, steps, id, a, k) && CommittedAt(e, steps, id, b, l) && a.version == b.version
    ensures a == b
  {
    if k <= l {
      MarketBetween(e, steps, id, k, l);
    } else {
      MarketBetween(e, steps, id, l, k);
    }
  }

  lemma MarketBetween(e: Engine, steps: seq<Step>, id: MarketId, k: nat, l: nat)
    requires SoundEngine(e) && LegalRun(e, Genesis(), steps) && k <= l <= |steps|
    requires id in At(e, steps, k).db.markets && id in At(e, steps, l).db.markets
    ensures MarketEvolves(At(e, steps, k).db.markets[id], At(e, steps, l).db.markets[id])
  {
    hide SoundEngine, Run, Inv, Audited, LegalRun, MarketEvolves;
    var before := steps[..l];
    PrefixIsLegal(e, Genesis(), steps, l);
    PrefixIsLegal(e, Genesis(), before, k);
    assert before[..k] == steps[..k];
    GenesisIsSound(e);
    RunKeepsInv(e, Genesis(), before[..k]);
    RunSplits(e, Genesis(), before, k);
    SuffixIsLegal(e, Genesis(), before, k);
    RunEvolves(e, Run(e, Genesis(), before[..k]), before[k..]);
  }

  /** A trade changes the row only in its inventory and version. */
  lemma TradeChangesRow(e: Engine, db: Db, op: Op, now: int, id: MarketId)
    requires op.TradeOp? && id in db.markets && Apply(e, db, op, now).Ok?
    ensures var next := Apply(e, db, op, now).value;
            && id in next.markets
            && next.markets[id].row
               == db.markets[id].row.(inventory := next.markets[id].row.inventory, version := next.markets[id].row.version)
  {
    hide Recheck, Fund, Post, ParseMicros;
  }

  lemma TradedRow(e: Engine, steps: seq<Step>, id: MarketId, version: nat, inventory: seq<int>, k: nat)
    requires TradedAt(e, steps, id, version, inventory, k)
    ensures At(e, steps, k + 1).db.markets[id].row
         == At(e, steps, k).db.markets[id].row.(inventory := inventory, version := version)
  {
    hide Apply;
    assert steps[..k + 1][..k] == steps[..k];
    var before := At(e, steps, k);
    if Apply(e, before.db, steps[k].op, steps[k].now).Ok? {
      TradeChangesRow(e, before.db, steps[k].op, steps[k].now, id);
    }
  }

  // ---- Agreement ------------------------------------------------------------------------------------------

  lemma CommittedStays(e: Engine, steps: seq<Step>, step: Step, id: MarketId, row: Instance)
    requires Committed(e, steps, id, row)
    ensures Committed(e, steps + [step], id, row)
  {
    var k: nat :| CommittedAt(e, steps, id, row, k);
    assert (steps + [step])[..k] == steps[..k];
    assert CommittedAt(e, steps + [step], id, row, k);
  }

  lemma NextVersionIsCommitted(
      e: Engine, steps: seq<Step>, id: MarketId, row: Instance, version: nat, inventory: seq<int>
    )
    requires SoundEngine(e) && LegalRun(e, Genesis(), steps)
    requires Committed(e, steps, id, row) && row.version + 1 == version
    requires exists k: nat :: TradedAt(e, steps, id, version, inventory, k)
    ensures Committed(e, steps, id, row.(inventory := inventory, version := version))
  {
    hide At, SoundEngine, LegalRun;
    var k: nat :| TradedAt(e, steps, id, version, inventory, k);
    var l: nat :| CommittedAt(e, steps, id, row, l);
    var before := At(e, steps, k).db.markets[id].row;
    assert CommittedAt(e, steps, id, before, k);
    SameVersionSameRow(e, steps, id, before, row, k, l);
    TradedRow(e, steps, id, version, inventory, k);
    assert CommittedAt(e, steps, id, row.(inventory := inventory, version := version), k + 1);
  }

  lemma EventKeepsAgreement(e: Engine, y: System, event: Event)
    requires SoundEngine(e) && LegalRun(e, Genesis(), y.steps)
    requires Agrees(e, y) && LegalEvent(e, y, event)
    ensures Agrees(e, After(y, event))
  {
    hide Committed, SoundEngine, LegalRun, LegalStep, TradedAt, Run;
    var next := After(y, event);
    forall id | id in next.cache ensures Committed(e, next.steps, id, next.cache[id].row) {
      match event
      case Transact(step) => CommittedStays(e, y.steps, step, id, y.cache[id].row);
      case Fill(_, _, _) =>
      case Hear(note, _) =>
        if id == note.market && note.inventory.Some? && y.cache[id].row.version + 1 == note.version {
          NextVersionIsCommitted(e, y.steps, id, y.cache[id].row, note.version, note.inventory.value);
        }
      case Drop(_) =>
    }
  }

  /** Under any interleaving of transactions, stale fills, write-through, and duplicated, reordered
      or lost notifications, the cache agrees with the database. */
  lemma {:induction false} CacheAgreesWithDatabase(e: Engine, events: seq<Event>)
    requires SoundEngine(e) && LegalEvents(e, events)
    ensures Agrees(e, AfterAll(events)) && LegalRun(e, Genesis(), AfterAll(events).steps)
  {
    hide Agrees, SoundEngine, LegalEvent, LegalRun, After;
    if events == [] {
      assert Agrees(e, System([], map[])) && LegalRun(e, Genesis(), []) by {
        EmptyAgrees(e);
      }
    } else {
      var n := |events| - 1;
      assert LegalEvents(e, events[..n]) by {
        forall k | 0 <= k < n ensures LegalEvent(e, AfterAll(events[..n][..k]), events[..n][k]) {
          assert events[..n][..k] == events[..k];
        }
      }
      CacheAgreesWithDatabase(e, events[..n]);
      EventKeepsAgreement(e, AfterAll(events[..n]), events[n]);
      EventKeepsLegality(e, AfterAll(events[..n]), events[n]);
    }
  }

  lemma EmptyAgrees(e: Engine)
    ensures Agrees(e, System([], map[])) && LegalRun(e, Genesis(), [])
  {}

  lemma EventKeepsLegality(e: Engine, y: System, event: Event)
    requires LegalRun(e, Genesis(), y.steps) && LegalEvent(e, y, event)
    ensures LegalRun(e, Genesis(), After(y, event).steps)
  {
    hide LegalStep, Run, Committed, Genuine;
    if event.Transact? {
      var steps := y.steps + [event.step];
      forall k | 0 <= k < |steps| ensures LegalStep(Run(e, Genesis(), steps[..k]), steps[k]) {
        assert steps[..k] == y.steps[..k];
        assert y.steps[..|y.steps|] == y.steps;
      }
    }
  }

  /** A current entry that hears of the next trade is current again: trades heard in order never make
      the cache ask the database. */
  lemma HeardTradeStaysCurrent(e: Engine, s: State, step: Step, id: MarketId, cache: map<MarketId, Entry>, at: int)
    requires step.op.TradeOp? && id in cache && id in s.db.markets && cache[id].row == s.db.markets[id].row
    requires id in Next(e, s, step).db.markets && Next(e, s, step).db.markets[id].row.version == s.db.markets[id].row.version + 1
    ensures var row := Next(e, s, step).db.markets[id].row;
            var heard := Handled(cache, Note(id, row.version, Some(row.inventory)), at);
            id in heard && heard[id] == Entry(row, at) && forall i :: i != id && i in cache ==> i in heard && heard[i] == cache[i]
  {
    hide Apply;
    if Apply(e, s.db, step.op, step.now).Ok? {
      TradeChangesRow(e, s.db, step.op, step.now, id);
    }
  }

  // ---- Quotes from the cache ----------------------------------------------------------------------------------

  /** A quote issued from any committed row, by now stale or not, is never refused because the
      calculation changed; and while its version is current it recomputes to the same deal. */
  lemma GenuineQuoteNeverChanges(
    e: Engine, steps: seq<Step>, id: MarketId, quoted: Instance, user: UserId, held: int, outcome: nat, side: Side,
    quantity: int, issued: int, k: nat, limit: int, now: int
  )
    requires SoundEngine(e) && LegalRun(e, Genesis(), steps) && Committed(e, steps, id, quoted)
    requires k <= |steps| && id in At(e, steps, k).db.markets
    requires QuoteTx(e, quoted, id, user, held, outcome, side, quantity, issued).Ok?
    ensures var c := QuoteTx(e, quoted, id, user, held, outcome, side, quantity, issued).value;
            var row := At(e, steps, k).db.markets[id].row;
            && Recheck(e, row, c, limit, now) != Err(Conflict(QuoteChanged))
            && (c.version == row.version && Tradable(row, now) && now < c.expires
                && Charged(c.amount, side, row.terms.feeCharged) == Ok(limit) ==>
                  Recheck(e, row, c, limit, now).Ok? && Recheck(e, row, c, limit, now).value.total == limit)
  {
    hide Tradable, Charged, SoundEngine, LegalRun, At;
    var c := QuoteTx(e, quoted, id, user, held, outcome, side, quantity, issued).value;
    var row := At(e, steps, k).db.markets[id].row;
    QuoteErrors(e, row, c.outcome, c.side, c.quantity);
    if c.version == row.version {
      var l: nat :| CommittedAt(e, steps, id, quoted, l);
      assert CommittedAt(e, steps, id, row, k);
      SameVersionSameRow(e, steps, id, quoted, row, l, k);
    }
  }

  lemma QuoteErrors(e: Engine, row: Instance, outcome: nat, side: Side, quantity: int)
    requires SoundEngine(e)
    ensures Quote(e, row, outcome, side, quantity) != Err(Conflict(QuoteChanged))
  {
    hide SoundEngine;
    QuoteIsSound(e, row, outcome, side, quantity);
  }

  /** A quote issued from any committed row is kept: executed less than fifteen seconds later, before
      the close, while its version is current and at its own total as the limit, it commits exactly when
      the trader has the units or the shares. */
  lemma FreshQuoteCommits(
    e: Engine, steps: seq<Step>, id: MarketId, quoted: Instance, user: UserId, held: int, outcome: nat, side: Side,
    quantity: int, issued: int, key: string, text: string, now: int
  )
    requires SoundEngine(e) && LegalRun(e, Genesis(), steps) && Committed(e, steps, id, quoted)
    requires QuoteTx(e, quoted, id, user, held, outcome, side, quantity, issued).Ok?
    requires var db := Run(e, Genesis(), steps).db;
             id in db.markets && db.markets[id].row.version == quoted.version && (user, key) !in db.keys
    requires now < issued + 15_000 && now < quoted.terms.closeMs
    ensures var c := QuoteTx(e, quoted, id, user, held, outcome, side, quantity, issued).value;
            var db, total := Run(e, Genesis(), steps).db, if side == Buy then c.amount + c.fee else c.amount - c.fee;
            ExecuteOnce(e, db, key, TradeRequest(c, text), total, now).Ok? <==> CanSettle(db.books, db.markets[id].positions, c)
  {
    hide SoundEngine, Run, LegalRun, Inv, Audited, QuoteTx, IsFee, CanSettle;
    var s, c := Run(e, Genesis(), steps), QuoteTx(e, quoted, id, user, held, outcome, side, quantity, issued).value;
    QuoteEffects(e, quoted, id, user, held, outcome, side, quantity, issued);
    ReachableIsSound(e, s);
    CurrentRow(e, steps, id, quoted);
    var total := if side == Buy then c.amount + c.fee else c.amount - c.fee;
    TradeCommits(e, s.db, s.clock, key, TradeRequest(c, text), total, now);
  }

  lemma CurrentRow(e: Engine, steps: seq<Step>, id: MarketId, row: Instance)
    requires SoundEngine(e) && LegalRun(e, Genesis(), steps) && Committed(e, steps, id, row)
    requires id in Run(e, Genesis(), steps).db.markets && Run(e, Genesis(), steps).db.markets[id].row.version == row.version
    ensures Run(e, Genesis(), steps).db.markets[id].row == row
  {
    hide SoundEngine, Run, LegalRun;
    assert steps[..|steps|] == steps;
    var l: nat :| CommittedAt(e, steps, id, row, l);
    var now := Run(e, Genesis(), steps).db.markets[id].row;
    assert CommittedAt(e, steps, id, now, |steps|);
    SameVersionSameRow(e, steps, id, row, now, l, |steps|);
  }

  /** What the cache promises a quote. */
  lemma CachedQuoteNeverChanges(
    e: Engine, events: seq<Event>, id: MarketId, user: UserId, held: int, outcome: nat, side: Side, quantity: int,
    issued: int, later: seq<Event>, limit: int, now: int
  )
    requires SoundEngine(e) && LegalEvents(e, events + later) && id in AfterAll(events).cache
    requires QuoteTx(e, AfterAll(events).cache[id].row, id, user, held, outcome, side, quantity, issued).Ok?
    requires id in Run(e, Genesis(), AfterAll(events + later).steps).db.markets
    ensures var c := QuoteTx(e, AfterAll(events).cache[id].row, id, user, held, outcome, side, quantity, issued).value;
            var row := Run(e, Genesis(), AfterAll(events + later).steps).db.markets[id].row;
            Recheck(e, row, c, limit, now) != Err(Conflict(QuoteChanged))
  {
    hide SoundEngine, LegalEvent, QuoteTx, Recheck, Run;
    var all := events + later;
    forall k | 0 <= k < |events| ensures LegalEvent(e, AfterAll(events[..k]), events[k]) {
      assert events[..k] == all[..k] && events[k] == all[k];
    }
    CacheAgreesWithDatabase(e, events);
    CacheAgreesWithDatabase(e, all);
    var quoted := AfterAll(events).cache[id].row;
    StepsGrow(e, events, later, id, quoted);
    var steps := AfterAll(all).steps;
    assert steps[..|steps|] == steps;
    GenuineQuoteNeverChanges(e, steps, id, quoted, user, held, outcome, side, quantity, issued, |steps|, limit, now);
  }

  lemma {:induction false} StepsGrow(e: Engine, events: seq<Event>, later: seq<Event>, id: MarketId, row: Instance)
    requires Committed(e, AfterAll(events).steps, id, row)
    ensures Committed(e, AfterAll(events + later).steps, id, row)
    decreases |later|
  {
    hide Committed;
    if later == [] {
      assert events + later == events;
    } else {
      var n := |later| - 1;
      StepsGrow(e, events, later[..n], id, row);
      assert (events + later)[..|events + later| - 1] == events + later[..n];
      var y := AfterAll(events + later[..n]);
      if later[n].Transact? {
        CommittedStays(e, y.steps, later[n].step, id, row);
      }
    }
  }
}
