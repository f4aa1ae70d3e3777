/** Runs of the exchange: any interleaving of its transactions, at a clock that never goes back. */
module Runs {
  import opened Wrappers
  import opened PricingEngine
  import opened Books
  import opened Rules
  import opened Exchange
  import opened Invariant
  import opened Preservation
  import opened Settlement
  import opened Transactions
  import opened Evolution

  /** One database transaction. `ResolverOp` carries the time at which the worker selected the
      instance; a purge or a closing names the rows its query happened to return. */
  datatype Op =
    | GrantOp(user: UserId, name: string, amount: int)
    | CreateOp(market: MarketId, terms: Terms, demo: bool)
    | TradeOp(user: UserId, key: string, request: TradeRequest)
    | CloseOp(ids: set<MarketId>)
    | SuspendOp(market: MarketId, suspended: bool, reason: string)
    | ObserveOp(market: MarketId, input: EvidenceInput, demo: bool)
    | CreatorOp(market: MarketId, submitter: UserId, outcome: nat, event: string, nonce: string, signed: bool)
    | ResolverOp(market: MarketId, outcome: nat, event: string, replay: bool, selected: int)
    | SettleOp(market: MarketId, batch: seq<UserId>)
    | PurgeOp(ids: set<MarketId>)

  function Apply(e: Engine, db: Db, op: Op, now: int): Result<Db> {
    match op
    case GrantOp(user, name, amount) => GrantTx(db, user, name, amount)
    case CreateOp(id, terms, demo) => CreateTx(e, db, id, terms, demo, now)
    case TradeOp(user, key, request) =>
      var traded :- ExecuteTx(e, db, user, key, request, now);
      Ok(traded.0)
    case CloseOp(ids) => Ok(CloseTx(db, ids, now))
    case SuspendOp(id, suspended, reason) => SuspendTx(db, id, suspended, reason)
    case ObserveOp(id, input, demo) => ObserveTx(db, id, input, demo, now)
    case CreatorOp(id, submitter, outcome, event, nonce, signed) => CreatorTx(db, id, submitter, outcome, event, nonce, signed, now)
    case ResolverOp(id, outcome, event, replay, _) => ResolverTx(db, id, outcome, event, replay, now)
    case SettleOp(id, batch) => SettleTx(db, id, batch, now)
    case PurgeOp(ids) => Ok(PurgeTx(db, ids, now))
  }

  /** The environment's side: a settlement batch is what its query returns, and the worker asks the
      resolver only for instances of resolver series whose observation window had ended when it
      selected them. */
  ghost predicate Legal(db: Db, op: Op, now: int) {
    match op
    case SettleOp(id, batch) => id in db.markets ==> ValidBatch(Finalize(db.markets[id], now), batch)
    case ResolverOp(id, _, _, _, selected) =>
      id in db.markets ==>
        var t := db.markets[id].row.terms;
        t.authority == Resolver && t.observationEnd <= selected <= now
    case _ => true
  }

  datatype State = State(db: Db, clock: int)

  datatype Step = Step(op: Op, now: int)

  /** A refused or aborted transaction changes nothing. */
  function Next(e: Engine, s: State, step: Step): State {
    match Apply(e, s.db, step.op, step.now)
    case Ok(db) => State(db, step.now)
    case Err(_) => State(s.db, step.now)
  }

  function Run(e: Engine, s: State, steps: seq<Step>): State {
    if steps == [] then s
    else Next(e, Run(e, s, steps[..|steps| - 1]), steps[|steps| - 1])
  }

  ghost predicate LegalStep(s: State, step: Step) {
    s.clock <= step.now && Legal(s.db, step.op, step.now)
  }

  ghost predicate LegalRun(e: Engine, s: State, steps: seq<Step>) {
    forall k :: 0 <= k < |steps| ==> LegalStep(Run(e, s, steps[..k]), steps[k])
  }

  // ---- The invariant over runs ----------------------------------------------------------------------

  lemma ApplyKeepsInv(e: Engine, db: Db, clock: int, op: Op, now: int)
    requires SoundEngine(e) && Inv(e, db, clock) && clock <= now && Legal(db, op, now)
    requires Apply(e, db, op, now).Ok?
    ensures Inv(e, Apply(e, db, op, now).value, now)
  {
    hide Inv, SoundEngine, GrantTx, CreateTx, ExecuteOnce, CloseTx, SuspendTx, ObserveTx, CreatorTx,
         ResolverTx, SettleTx, PurgeTx, Finalize, ValidBatch;
    match op
    case GrantOp(user, name, amount) => GrantKeepsInv(e, db, clock, user, name, amount, now);
    case CreateOp(id, terms, demo) => CreateKeepsInv(e, db, clock, id, terms, demo, now);
    case TradeOp(user, key, request) =>
      ExecuteKeepsInv(e, db, clock, key, request, ParseMicros(request.limit).value, now);
    case CloseOp(ids) => CloseKeepsInv(e, db, clock, ids, now);
    case SuspendOp(id, suspended, reason) => SuspendKeepsInv(e, db, clock, id, suspended, reason, now);
    case ObserveOp(id, input, demo) => ObserveKeepsInv(e, db, clock, id, input, demo, now);
    case CreatorOp(id, submitter, outcome, event, nonce, signed) => CreatorKeepsInv(e, db, clock, id, submitter, outcome, event, nonce, signed, now);
    case ResolverOp(id, outcome, event, replay, selected) =>
      ResolverNeedsMarket(db, id, outcome, event, replay, now);
      ResolverKeepsInv(e, db, clock, id, outcome, event, replay, now);
    case SettleOp(id, batch) =>
      SettleNeedsMarket(db, id, batch, now);
      SettleSucceeds(e, db, clock, id, batch, now);
    case PurgeOp(ids) => PurgeKeepsInv(e, db, clock, ids, now);
  }

  lemma ResolverNeedsMarket(db: Db, id: MarketId, outcome: nat, event: string, replay: bool, now: int)
    requires ResolverTx(db, id, outcome, event, replay, now).Ok?
    ensures id in db.markets
  {}

  lemma SettleNeedsMarket(db: Db, id: MarketId, batch: seq<UserId>, now: int)
    requires SettleTx(db, id, batch, now).Ok?
    ensures id in db.markets
  {}

  lemma NextKeepsInv(e: Engine, s: State, step: Step)
    requires SoundEngine(e) && Inv(e, s.db, s.clock) && LegalStep(s, step)
    ensures Inv(e, Next(e, s, step).db, Next(e, s, step).clock)
  {
    hide Inv, SoundEngine, Apply, Legal;
    if Apply(e, s.db, step.op, step.now).Ok? {
      ApplyKeepsInv(e, s.db, s.clock, step.op, step.now);
    } else {
      InvLater(e, s.db, s.clock, step.now);
    }
  }

  lemma {:induction false} RunKeepsInv(e: Engine, s: State, steps: seq<Step>)
    requires SoundEngine(e) && Inv(e, s.db, s.clock) && LegalRun(e, s, steps)
    ensures Inv(e, Run(e, s, steps).db, Run(e, s, steps).clock)
  {
    hide Inv, SoundEngine, Next, LegalStep;
    if steps != [] {
      var rest := steps[..|steps| - 1];
      assert LegalRun(e, s, rest) by {
        forall k | 0 <= k < |rest| ensures LegalStep(Run(e, s, rest[..k]), rest[k]) {
          assert rest[..k] == steps[..k];
        }
      }
      RunKeepsInv(e, s, rest);
      assert LegalStep(Run(e, s, steps[..|steps| - 1]), steps[|steps| - 1]);
      NextKeepsInv(e, Run(e, s, rest), steps[|steps| - 1]);
    }
  }

  // ---- Evolution over runs ----------------------------------------------------------------------------

  lemma RowChangeEvolves(e: Engine, db: Db, clock: int, id: MarketId, mk: Market)
    requires Inv(e, db, clock) && id in db.markets && MarketEvolves(db.markets[id], mk)
    ensures Evolves(db, WithMarket(db, id, mk))
  {
    hide MarketOk, MarketEvolves;
    AllReserved(e, db, clock);
    forall i | i in db.markets ensures MarketEvolves(db.markets[i], db.markets[i]) {
      MarketStays(db.markets[i]);
    }
  }

  lemma MarketStays(mk: Market)
    ensures MarketEvolves(mk, mk)
  {}

  lemma AllReserved(e: Engine, db: Db, clock: int)
    requires Inv(e, db, clock)
    ensures forall i :: i in db.markets ==> Reserve(i) in db.books.balances
  {
    forall i | i in db.markets ensures Reserve(i) in db.books.balances {
      assert MarketKept(e, db, i, clock);
    }
  }

  lemma GrantEvolves(e: Engine, db: Db, clock: int, user: UserId, name: string, amount: int)
    requires Inv(e, db, clock) && GrantTx(db, user, name, amount).Ok?
    ensures Evolves(db, GrantTx(db, user, name, amount).value)
  {
    hide MarketOk, MarketEvolves;
    AllReserved(e, db, clock);
    forall i | i in db.markets ensures MarketEvolves(db.markets[i], db.markets[i]) {
      MarketStays(db.markets[i]);
    }
  }

  lemma CreateEvolves(e: Engine, db: Db, clock: int, id: MarketId, terms: Terms, demo: bool, now: int)
    requires Inv(e, db, clock) && CreateTx(e, db, id, terms, demo, now).Ok?
    ensures Evolves(db, CreateTx(e, db, id, terms, demo, now).value)
  {
    hide MarketOk, MarketEvolves, SlotTaken, ValidRule, CreateTx, Allowed;
    CreateIsCreated(e, db, id, terms, demo, now);
    AllReserved(e, db, clock);
    forall i | i in db.markets ensures MarketEvolves(db.markets[i], db.markets[i]) {
      MarketStays(db.markets[i]);
    }
  }

  lemma TradeEvolves(e: Engine, db: Db, clock: int, key: string, request: TradeRequest, limit: int, now: int)
    requires SoundEngine(e) && Inv(e, db, clock)
    requires ExecuteOnce(e, db, key, request, limit, now).Ok?
    ensures Evolves(db, ExecuteOnce(e, db, key, request, limit, now).value.0)
  {
    hide SoundEngine, Affordable, Allowed, MarketOk, MarketEvolves, CommitTrade, Recheck, TradedMarket, SoundDeal;
    var c, next := request.claims, ExecuteOnce(e, db, key, request, limit, now).value.0;
    AllReserved(e, db, clock);
    forall i | i in db.markets ensures MarketEvolves(db.markets[i], db.markets[i]) {
      MarketStays(db.markets[i]);
    }
    if (c.user, key) in db.keys {
    } else {
      var mk := db.markets[c.market];
      RecheckedDeal(e, mk.row, c, limit, now);
      var deal := Recheck(e, mk.row, c, limit, now).value;
      CommitIsCommitted(db, key, request, deal, now);
      CommitOnlyAddsKey(db, key, request, deal, now);
      assert MarketKept(e, db, c.market, clock);
      TradedEvolves(e, mk, db.books.balances[Reserve(c.market)], clock, c, deal, now);
    }
  }

  lemma TradedEvolves(e: Engine, mk: Market, reserve: int, clock: int, c: QuoteClaims, deal: Deal, now: int)
    requires MarketOk(e, mk, reserve, clock) && mk.row.phase == Open && c.outcome < Outcomes(mk.row)
    ensures MarketEvolves(mk, TradedMarket(mk, c, deal, now))
  {}

  lemma CommitOnlyAddsKey(db: Db, key: string, request: TradeRequest, deal: Deal, now: int)
    requires request.claims.market in db.markets
    requires request.claims.outcome < Outcomes(db.markets[request.claims.market].row)
    requires CommitTrade(db, key, request, deal, now).Ok?
    ensures var r := CommitTrade(db, key, request, deal, now).value;
            && r.0.keys == db.keys[(request.claims.user, key) := KeyRow(request, Some(r.1))]
            && r.1.market == request.claims.market
            && r.1.version == db.markets[request.claims.market].row.version + 1
  {}

  lemma CloseEvolves(e: Engine, db: Db, clock: int, ids: set<MarketId>, now: int)
    requires Inv(e, db, clock)
    ensures Evolves(db, CloseTx(db, ids, now))
  {
    hide MarketEvolves, MarketOk;
    AllReserved(e, db, clock);
    forall i | i in db.markets ensures MarketEvolves(db.markets[i], CloseTx(db, ids, now).markets[i]) {
      assert MarketKept(e, db, i, clock);
      MarketStays(db.markets[i]);
      if Due(db.markets[i], now) {
        ClosedEvolves(e, db.markets[i], db.books.balances[Reserve(i)], clock);
      }
    }
  }

  lemma ClosedEvolves(e: Engine, mk: Market, reserve: int, clock: int)
    requires MarketOk(e, mk, reserve, clock) && mk.row.phase == Open
    ensures MarketEvolves(mk, ClosedMarket(mk))
  {}

  lemma EvidenceEvolves(e: Engine, mk: Market, reserve: int, clock: int, x: Evidence, evidenceId: Option<EventKey>)
    requires MarketOk(e, mk, reserve, clock) && (mk.row.phase == Open || mk.row.phase == Closed)
    ensures MarketEvolves(mk, WithEvidence(mk, x, evidenceId))
  {}

  lemma SuspendEvolves(e: Engine, db: Db, clock: int, id: MarketId, suspended: bool, reason: string)
    requires Inv(e, db, clock) && SuspendTx(db, id, suspended, reason).Ok?
    ensures Evolves(db, SuspendTx(db, id, suspended, reason).value)
  {
    hide Inv;
    MarketIsKept(e, db, clock, id);
    var mk := db.markets[id];
    RowChangeEvolves(e, db, clock, id, Announce(mk, mk.row.(suspended := suspended), SuspensionEvent));
  }

  lemma ObserveEvolves(e: Engine, db: Db, clock: int, id: MarketId, input: EvidenceInput, demo: bool, now: int)
    requires Inv(e, db, clock) && ObserveTx(db, id, input, demo, now).Ok?
    ensures Evolves(db, ObserveTx(db, id, input, demo, now).value)
  {
    hide Inv, MarketEvolves, MarketOk, InputBounded, Evaluate, HasRevision, WithEvidence;
    MarketIsKept(e, db, clock, id);
    var mk := db.markets[id];
    var next := ObserveMarket(mk, input, demo, now).value;
    MarketStays(mk);
    if next != mk {
      var result := Evaluate(mk.row.terms.rule, input.observation, mk.row.terms.observationStart, mk.row.terms.observationEnd).value;
      var x := Evidence(EventKey(input.source, input.event), input.revision, mk.row.terms.observationEnd, Observed(input), result);
      var top := Latest(mk.evidence + [x]);
      EvidenceEvolves(e, mk, db.books.balances[Reserve(id)], clock, x, if top.Some? then Some(top.value.key) else None);
    }
    RowChangeEvolves(e, db, clock, id, next);
  }

  lemma CreatorEvolves(
      e: Engine, db: Db, clock: int, id: MarketId, submitter: UserId, outcome: nat, event: string, nonce: string, signed: bool, now: int
    )
    requires Inv(e, db, clock) && CreatorTx(db, id, submitter, outcome, event, nonce, signed, now).Ok?
    ensures Evolves(db, CreatorTx(db, id, submitter, outcome, event, nonce, signed, now).value)
  {
    hide Inv, MarketEvolves, MarketOk, WithEvidence;
    MarketIsKept(e, db, clock, id);
    var key := EventKey(CREATOR_SOURCE, event);
    EvidenceEvolves(e, db.markets[id], db.books.balances[Reserve(id)], clock,
                    Evidence(key, 0, now, Stated(outcome), Some(Winner(outcome))), Some(key));
    RowChangeEvolves(e, db, clock, id, CreatorResolves(db.markets[id], submitter, outcome, event, signed, now).value);
  }

  lemma ResolverEvolves(
      e: Engine, db: Db, clock: int, id: MarketId, outcome: nat, event: string, replay: bool, now: int
    )
    requires Inv(e, db, clock) && ResolverTx(db, id, outcome, event, replay, now).Ok?
    ensures Evolves(db, ResolverTx(db, id, outcome, event, replay, now).value)
  {
    hide Inv, MarketEvolves, MarketOk, WithEvidence;
    MarketIsKept(e, db, clock, id);
    MarketStays(db.markets[id]);
    var key := EventKey(RESOLVER_SOURCE, event);
    EvidenceEvolves(e, db.markets[id], db.books.balances[Reserve(id)], clock,
                    Evidence(key, 0, now, Stated(outcome), Some(Winner(outcome))), Some(key));
    RowChangeEvolves(e, db, clock, id, ResolverAnswers(db.markets[id], outcome, event, replay, now).value);
  }

  /** The market a settlement leads to, step by step. */
  lemma SettledEvolves(mk: Market, clock: int, now: int, claims: map<UserId, int>, closed: bool)
    requires PhaseOk(mk.row, clock)
    requires Finalize(mk, now).row.phase == Resolving
    requires forall u :: u in mk.claims ==> u in claims && claims[u] == mk.claims[u]
    ensures var paid := Finalize(mk, now).(claims := claims);
            MarketEvolves(mk, if closed then TerminalMarket(paid) else paid)
  {
    hide FinalResult;
  }

  lemma SettleEvolves(e: Engine, db: Db, clock: int, id: MarketId, batch: seq<UserId>, now: int)
    requires Inv(e, db, clock) && SettleTx(db, id, batch, now).Ok?
    ensures Evolves(db, SettleTx(db, id, batch, now).value)
    ensures BooksContinue(db.books, SettleTx(db, id, batch, now).value.books, db.markets.Keys)
  {
    hide Inv, MarketOk, MarketEvolves, Finalize, PayClaims, Drain, Unclaimed, TerminalMarket;
    MarketIsKept(e, db, clock, id);
    var was, mk := db.markets[id], Finalize(db.markets[id], now);
    FinalizeKeepsClaims(was, now);
    if mk.row.phase == Resolving {
      var start := Settling(db.books, mk);
      ClaimsContinue(start, id, batch, db.markets.Keys);
      var paid := PayClaims(start, id, batch).value;
      var closed := Unclaimed(paid.market) == {};
      if closed {
        DrainContinues(paid.books, paid.market, id, db.markets.Keys);
        ContinuesTransitively(db.books.ledger, paid.books.ledger, CloseOut(paid, id).value.books.ledger, db.markets.Keys);
      }
      PhaseIsOk(e, was, db.books.balances[Reserve(id)], clock);
      SettledEvolves(was, clock, now, paid.market.claims, closed);
      RowChangeEvolves(e, db, clock, id, CloseOut(paid, id).value.market);
    } else {
      MarketStays(was);
      RowChangeEvolves(e, db, clock, id, was);
      assert WithMarket(db, id, was) == db;
    }
  }

  lemma PhaseIsOk(e: Engine, mk: Market, reserve: int, clock: int)
    requires MarketOk(e, mk, reserve, clock)
    ensures PhaseOk(mk.row, clock)
  {}

  lemma FinalizeKeepsClaims(mk: Market, now: int)
    ensures Finalize(mk, now).claims == mk.claims
  {}

  lemma PurgeEvolves(e: Engine, db: Db, clock: int, ids: set<MarketId>, now: int)
    requires Inv(e, db, clock)
    ensures Evolves(db, PurgeTx(db, ids, now))
  {
    hide MarketOk, MarketEvolves, Purgeable;
    AllReserved(e, db, clock);
    forall i | i in db.markets ensures MarketEvolves(db.markets[i], db.markets[i]) {
      MarketStays(db.markets[i]);
    }
  }

  lemma ApplyEvolves(e: Engine, db: Db, clock: int, op: Op, now: int)
    requires SoundEngine(e) && Inv(e, db, clock) && Apply(e, db, op, now).Ok?
    ensures Evolves(db, Apply(e, db, op, now).value)
  {
    hide Inv, SoundEngine, Evolves, GrantTx, CreateTx, ExecuteOnce, CloseTx, SuspendTx, ObserveTx, CreatorTx,
         ResolverTx, SettleTx, PurgeTx, BooksContinue;
    match op
    case GrantOp(user, name, amount) => GrantEvolves(e, db, clock, user, name, amount);
    case CreateOp(id, terms, demo) => CreateEvolves(e, db, clock, id, terms, demo, now);
    case TradeOp(user, key, request) =>
      TradeEvolves(e, db, clock, key, request, ParseMicros(request.limit).value, now);
    case CloseOp(ids) => CloseEvolves(e, db, clock, ids, now);
    case SuspendOp(id, suspended, reason) => SuspendEvolves(e, db, clock, id, suspended, reason);
    case ObserveOp(id, input, demo) => ObserveEvolves(e, db, clock, id, input, demo, now);
    case CreatorOp(id, submitter, outcome, event, nonce, signed) => CreatorEvolves(e, db, clock, id, submitter, outcome, event, nonce, signed, now);
    case ResolverOp(id, outcome, event, replay, _) => ResolverEvolves(e, db, clock, id, outcome, event, replay, now);
    case SettleOp(id, batch) => SettleEvolves(e, db, clock, id, batch, now);
    case PurgeOp(ids) => PurgeEvolves(e, db, clock, ids, now);
  }
}
