/** The remaining transactions keep the invariant: grants, market creation, closing, suspension,
    the three ways of recording evidence, and the purge. */
module Transactions {
  import opened Wrappers
  import opened Amm
  import opened PricingEngine
  import opened MapSum
  import opened Books
  import opened Rules
  import opened Exchange
  import opened Invariant
  import opened Preservation
  import opened Settlement

  // ---- Updates that touch only the instance row and its evidence -----------------------------------

  /** The announced row keeps the terms, inventory and result, and moves only where the lifecycle
      allows; the evidence may grow by one row. */
  lemma AnnouncedMarketOk(
      e: Engine, mk: Market, reserve: int, clock: int, row: Instance, kind: EventKind, evidence: seq<Evidence>
    )
    requires SoundEngine(e)
    requires MarketOk(e, mk, reserve, clock)
    requires row.terms == mk.row.terms && row.inventory == mk.row.inventory && row.result == mk.row.result
    requires PhaseOk(row, clock) && (Terminal(row) <==> Terminal(mk.row))
    requires EvidenceOk(mk.(row := row, evidence := evidence), clock)
    ensures MarketOk(e, Announce(mk, row, kind).(evidence := evidence), reserve, clock)
  {
    hide ValidRule, RowsOk, Column, Credit, HasShares, Supported, TimesOrdered, SoundEngine, MoneyOk;
    var next := Announce(mk, row, kind).(evidence := evidence);
    assert PositionsOk(next);
    AnnouncedMoneyOk(e, mk, next, reserve);
  }

  /** Cash covers a later version of the same inventory. */
  lemma AnnouncedMoneyOk(e: Engine, mk: Market, next: Market, reserve: int)
    requires SoundEngine(e) && ShapeOk(mk.row) && ShapeOk(next.row) && MoneyOk(e, mk, reserve)
    requires next.row.terms == mk.row.terms && next.row.inventory == mk.row.inventory && next.row.version == mk.row.version + 1
    requires next.positions == mk.positions && next.claims == mk.claims && next.trades == mk.trades
    requires Terminal(next.row) <==> Terminal(mk.row)
    ensures MoneyOk(e, next, reserve)
  {
    hide SoundEngine, ShapeOk, HasShares;
    if Terminal(mk.row) {
      assert Unclaimed(next) == Unclaimed(mk);
    } else {
      CoverPaysMax(e, mk.row.inventory, mk.row.terms.liquidity, mk.row.version, Cash(mk, reserve));
    }
  }

  lemma AnnouncedKeepsInv(
      e: Engine, db: Db, clock: int, id: MarketId, row: Instance, kind: EventKind, evidence: seq<Evidence>
    )
    requires SoundEngine(e)
    requires Inv(e, db, clock) && id in db.markets
    requires var mk := db.markets[id];
             && row.terms == mk.row.terms && row.inventory == mk.row.inventory && row.result == mk.row.result
             && PhaseOk(row, clock) && (Terminal(row) <==> Terminal(mk.row))
             && EvidenceOk(mk.(row := row, evidence := evidence), clock)
    ensures Inv(e, WithMarket(db, id, Announce(db.markets[id], row, kind).(evidence := evidence)), clock)
  {
    hide MarketOk, Balanced, RefsKnown, KeysAnswered, PhaseOk, EvidenceOk, SoundEngine;
    assert MarketKept(e, db, id, clock);
    AnnouncedMarketOk(e, db.markets[id], db.books.balances[Reserve(id)], clock, row, kind, evidence);
    MarketReplaced(e, db, clock, id, Announce(db.markets[id], row, kind).(evidence := evidence));
  }

  lemma MarketIsKept(e: Engine, db: Db, clock: int, id: MarketId)
    requires Inv(e, db, clock) && id in db.markets
    ensures Reserve(id) in db.books.balances
    ensures MarketOk(e, db.markets[id], db.books.balances[Reserve(id)], clock)
  {
    assert MarketKept(e, db, id, clock);
  }

  lemma SuspendKeepsInv(e: Engine, db: Db, clock: int, id: MarketId, suspended: bool, reason: string, now: int)
    requires SoundEngine(e)
    requires Inv(e, db, clock) && clock <= now
    requires SuspendTx(db, id, suspended, reason).Ok?
    ensures Inv(e, SuspendTx(db, id, suspended, reason).value, now)
  {
    InvLater(e, db, clock, now);
    MarketIsKept(e, db, now, id);
    var mk := db.markets[id];
    hide Inv, SoundEngine;
    AnnouncedKeepsInv(e, db, now, id, mk.row.(suspended := suspended), SuspensionEvent, mk.evidence);
  }

  // ---- Evidence --------------------------------------------------------------------------------------

  lemma EvidenceFits(e: Engine, mk: Market, reserve: int, clock: int, x: Evidence, evidenceId: Option<EventKey>)
    requires MarketOk(e, mk, reserve, clock)
    requires mk.row.terms.observationEnd <= x.received <= clock
    requires x.result.Some? ==> InOutcomes(x.result.value, Outcomes(mk.row))
    ensures var row := mk.row.(evidenceId := evidenceId);
            PhaseOk(row, clock) && EvidenceOk(mk.(row := row, evidence := mk.evidence + [x]), clock)
  {
    hide PositionsOk, ClaimsOk, TradesOk, OutboxOk, MoneyOk, ShapeOk;
  }

  lemma EvidenceKeepsInv(
      e: Engine, db: Db, clock: int, id: MarketId, x: Evidence, evidenceId: Option<EventKey>
    )
    requires SoundEngine(e)
    requires Inv(e, db, clock) && id in db.markets
    requires db.markets[id].row.terms.observationEnd <= x.received <= clock
    requires x.result.Some? ==> InOutcomes(x.result.value, Outcomes(db.markets[id].row))
    ensures Inv(e, WithMarket(db, id, WithEvidence(db.markets[id], x, evidenceId)), clock)
  {
    hide Inv, MarketOk, PhaseOk, EvidenceOk, SoundEngine;
    var mk := db.markets[id];
    MarketIsKept(e, db, clock, id);
    EvidenceFits(e, mk, db.books.balances[Reserve(id)], clock, x, evidenceId);
    AnnouncedKeepsInv(e, db, clock, id, mk.row.(evidenceId := evidenceId), EvidenceEvent, mk.evidence + [x]);
  }

  /** A recorded observation is received at the end of its window and names a published outcome. */
  ghost predicate Recorded(mk: Market, next: Market) {
    && |next.evidence| == |mk.evidence| + 1
    && var x := next.evidence[|mk.evidence|];
       && next == WithEvidence(mk, x, next.row.evidenceId)
       && x.received == mk.row.terms.observationEnd
       && (x.result.Some? ==> InOutcomes(x.result.value, OutcomeCount(mk.row.terms.rule)))
  }

  lemma ObservationIsRecorded(mk: Market, input: EvidenceInput, demo: bool, now: int)
    requires ObserveMarket(mk, input, demo, now).Ok?
    ensures var next := ObserveMarket(mk, input, demo, now).value;
            next == mk || (Recorded(mk, next) && mk.row.terms.observationEnd <= now)
  {
    hide Evaluate, HasRevision, Latest;
    var t := mk.row.terms;
    if FindEvent(mk.evidence, EventKey(input.source, input.event)).None? {
      EvaluateNamesPublishedOutcome(t.rule, input.observation, t.observationStart, t.observationEnd);
    }
  }

  lemma OutcomesAreRuled(e: Engine, mk: Market, reserve: int, clock: int)
    requires MarketOk(e, mk, reserve, clock)
    ensures Outcomes(mk.row) == OutcomeCount(mk.row.terms.rule)
  {}

  lemma ObserveKeepsInv(e: Engine, db: Db, clock: int, id: MarketId, input: EvidenceInput, demo: bool, now: int)
    requires SoundEngine(e)
    requires Inv(e, db, clock) && clock <= now
    requires ObserveTx(db, id, input, demo, now).Ok?
    ensures Inv(e, ObserveTx(db, id, input, demo, now).value, now)
  {
    hide Inv, InputBounded, ObserveMarket, WithEvidence, MarketOk, SoundEngine;
    InvLater(e, db, clock, now);
    MarketIsKept(e, db, now, id);
    OutcomesAreRuled(e, db.markets[id], db.books.balances[Reserve(id)], now);
    var mk, next := db.markets[id], ObserveMarket(db.markets[id], input, demo, now).value;
    ObservationIsRecorded(mk, input, demo, now);
    if next == mk {
      assert WithMarket(db, id, mk) == db;
    } else {
      EvidenceKeepsInv(e, db, now, id, next.evidence[|mk.evidence|], next.row.evidenceId);
    }
  }

  lemma CreatorKeepsInv(
      e: Engine, db: Db, clock: int, id: MarketId, submitter: UserId, outcome: nat, event: string, nonce: string, signed: bool, now: int
    )
    requires SoundEngine(e)
    requires Inv(e, db, clock) && clock <= now
    requires CreatorTx(db, id, submitter, outcome, event, nonce, signed, now).Ok?
    ensures Inv(e, CreatorTx(db, id, submitter, outcome, event, nonce, signed, now).value, now)
  {
    InvLater(e, db, clock, now);
    hide Inv, SoundEngine;
    var key := EventKey(CREATOR_SOURCE, event);
    EvidenceKeepsInv(e, db, now, id, Evidence(key, 0, now, Stated(outcome), Some(Winner(outcome))), Some(key));
  }

  /** A first answer, recorded before the observation window has ended, is out of order. */
  lemma EarlyAnswerBreaksInv(e: Engine, db: Db, id: MarketId, outcome: nat, event: string, replay: bool, now: int)
    requires ResolverTx(db, id, outcome, event, replay, now).Ok?
    requires !HasSource(db.markets[id].evidence, RESOLVER_SOURCE) && now < db.markets[id].row.terms.observationEnd
    ensures !Inv(e, ResolverTx(db, id, outcome, event, replay, now).value, now)
  {
    hide Inv, MarketOk;
    var next := ResolverTx(db, id, outcome, event, replay, now).value;
    if Inv(e, next, now) {
      MarketIsKept(e, next, now, id);
      EvidenceIsLate(e, next.markets[id], next.books.balances[Reserve(id)], now);
    }
  }

  lemma EvidenceIsLate(e: Engine, mk: Market, reserve: int, clock: int)
    requires MarketOk(e, mk, reserve, clock)
    ensures mk.evidence != [] ==> mk.row.terms.observationEnd <= clock
  {}

  /** The recorder itself does not check the observation window, so it keeps the invariant exactly
      when the answer is a repeated one or the window has ended; its caller, the worker, selects only
      instances whose window has ended. */
  lemma ResolverKeepsInv(
      e: Engine, db: Db, clock: int, id: MarketId, outcome: nat, event: string, replay: bool, now: int
    )
    requires SoundEngine(e)
    requires Inv(e, db, clock) && clock <= now
    requires ResolverTx(db, id, outcome, event, replay, now).Ok?
    ensures Inv(e, ResolverTx(db, id, outcome, event, replay, now).value, now)
       <==> HasSource(db.markets[id].evidence, RESOLVER_SOURCE) || db.markets[id].row.terms.observationEnd <= now
  {
    InvLater(e, db, clock, now);
    hide Inv, SoundEngine;
    var key := EventKey(RESOLVER_SOURCE, event);
    if HasSource(db.markets[id].evidence, RESOLVER_SOURCE) {
      assert ResolverTx(db, id, outcome, event, replay, now).value == db;
    } else if now < db.markets[id].row.terms.observationEnd {
      EarlyAnswerBreaksInv(e, db, id, outcome, event, replay, now);
    } else {
      EvidenceKeepsInv(e, db, now, id, Evidence(key, 0, now, Stated(outcome), Some(Winner(outcome))), Some(key));
    }
  }

  // ---- Closing and purging ------------------------------------------------------------------------

  lemma ClosedMarketOk(e: Engine, mk: Market, reserve: int, clock: int)
    requires SoundEngine(e)
    requires MarketOk(e, mk, reserve, clock) && Due(mk, clock)
    ensures MarketOk(e, ClosedMarket(mk), reserve, clock)
  {
    hide RowsOk, Column, Supported, ValidRule, TimesOrdered, SoundEngine;
    AnnouncedMarketOk(e, mk, reserve, clock, mk.row.(phase := Closed), ClosedEvent, mk.evidence);
    assert ClosedMarket(mk) == Announce(mk, mk.row.(phase := Closed), ClosedEvent).(evidence := mk.evidence);
  }

  lemma RefKnownInRows(db: Db, next: Db, r: Ref)
    requires RefKnown(db, r) && next.books == db.books && next.markets.Keys <= db.markets.Keys
    requires forall i :: i in next.markets ==>
      && db.markets[i].row.version <= next.markets[i].row.version
      && db.markets[i].claims == next.markets[i].claims
      && (Terminal(db.markets[i].row) <==> Terminal(next.markets[i].row))
    ensures RefKnown(next, r)
  {}

  lemma CloseKeepsInv(e: Engine, db: Db, clock: int, ids: set<MarketId>, now: int)
    requires SoundEngine(e)
    requires Inv(e, db, clock) && clock <= now
    ensures Inv(e, CloseTx(db, ids, now), now)
  {
    hide MarketOk, Balanced, KeysAnswered, SoundEngine;
    InvLater(e, db, clock, now);
    var next := CloseTx(db, ids, now);
    forall i | i in next.markets ensures MarketKept(e, next, i, now) {
      assert MarketKept(e, db, i, now);
      if i in ids && Due(db.markets[i], now) {
        ClosedMarketOk(e, db.markets[i], db.books.balances[Reserve(i)], now);
      }
    }
    forall i | 0 <= i < |next.books.ledger| ensures RefKnown(next, next.books.ledger[i].ref) {
      assert RefKnown(db, db.books.ledger[i].ref);
      RefKnownInRows(db, next, db.books.ledger[i].ref);
    }
  }

  lemma PurgeKeepsInv(e: Engine, db: Db, clock: int, ids: set<MarketId>, now: int)
    requires Inv(e, db, clock) && clock <= now
    ensures Inv(e, PurgeTx(db, ids, now), now)
  {
    hide MarketOk, Balanced, KeysAnswered, Purgeable;
    InvLater(e, db, clock, now);
    var next := PurgeTx(db, ids, now);
    forall i | i in next.markets ensures MarketKept(e, next, i, now) {
      assert MarketKept(e, db, i, now);
    }
    forall i | 0 <= i < |next.books.ledger| ensures RefKnown(next, next.books.ledger[i].ref) {
      assert RefKnown(db, db.books.ledger[i].ref);
      RefKnownInRows(db, next, db.books.ledger[i].ref);
    }
  }

  /** The purge guard on the reserve balance never blocks: a terminal market's reserve is empty. */
  lemma PurgeGuardNeverBlocks(e: Engine, db: Db, clock: int, id: MarketId, now: int)
    requires Inv(e, db, clock) && id in db.markets
    ensures Purgeable(db, id, now) <==>
      && db.markets[id].row.terms.recurring && Terminal(db.markets[id].row)
      && db.markets[id].row.terms.deadline <= now - BRACKET_RETENTION_MS
  {
    MarketIsKept(e, db, clock, id);
  }

  // ---- Accounts and creation ----------------------------------------------------------------------

  lemma GrantKeepsInv(e: Engine, db: Db, clock: int, user: UserId, name: string, amount: int, now: int)
    requires Inv(e, db, clock) && clock <= now
    requires GrantTx(db, user, name, amount).Ok?
    ensures Inv(e, GrantTx(db, user, name, amount).value, now)
  {
    hide MarketOk, KeysAnswered, Balanced, Allowed;
    InvLater(e, db, clock, now);
    var next := GrantTx(db, user, name, amount).value;
    var withAccount := OpenAccount(db.books, User(user)).value;
    OpenKeepsBalanced(db.books, User(user));
    PostKeepsBalanced(withAccount, Transfer(Treasury, User(user), amount, Grant(user)));
    forall i | i in next.markets ensures MarketKept(e, next, i, now) {
      assert MarketKept(e, db, i, now);
    }
    forall i | 0 <= i < |next.books.ledger| ensures RefKnown(next, next.books.ledger[i].ref) {
      if i < |db.books.ledger| {
        assert RefKnown(db, db.books.ledger[i].ref);
      }
    }
  }

  lemma NewMarketOk(e: Engine, terms: Terms, funding: int, clock: int)
    requires SoundEngine(e)
    requires e.funding(terms.liquidity, OutcomeCount(terms.rule)) == Ok(funding) && TimesOrdered(terms) && ValidRule(terms.rule)
    ensures MarketOk(e, NewMarket(terms), funding, clock)
  {
    var mk, n := NewMarket(terms), OutcomeCount(terms.rule);
    assert FundsOpening(e, terms.liquidity, n);
    assert Supported(Zeros(n), terms.liquidity);
    forall o | 0 <= o < n ensures SumOf(Column(mk.positions, o)) == 0 {
      assert Column(mk.positions, o) == map[];
    }
  }

  /** What a committed creation has passed and done. */
  ghost predicate Created(e: Engine, db: Db, next: Db, id: MarketId, terms: Terms) {
    var funding := e.funding(terms.liquidity, OutcomeCount(terms.rule));
    var withAccount := db.books.balances[Reserve(id) := 0];
    && ValidRule(terms.rule) && TimesOrdered(terms) && funding.Ok? && !SlotTaken(db, terms)
    && (terms.creator.Some? ==> User(terms.creator.value) in db.books.balances)
    && Reserve(id) !in db.books.balances && id !in db.markets
    && var t := Transfer(Treasury, Reserve(id), funding.value, Subsidy(id));
    && Allowed(Books(withAccount, db.books.ledger), t)
    && next == db.(books := Posted(Books(withAccount, db.books.ledger), t), markets := db.markets[id := NewMarket(terms)],
                   templates := db.templates[terms.template := CategoryOf(terms.rule)])
  }

  lemma CreateIsCreated(e: Engine, db: Db, id: MarketId, terms: Terms, demo: bool, now: int)
    requires CreateTx(e, db, id, terms, demo, now).Ok?
    ensures Created(e, db, CreateTx(e, db, id, terms, demo, now).value, id, terms)
  {
    hide TextValid, ModeValid, ValidRule, SlotTaken, CategoryFits, Allowed;
  }

  lemma CreateKeepsInv(e: Engine, db: Db, clock: int, id: MarketId, terms: Terms, demo: bool, now: int)
    requires SoundEngine(e)
    requires Inv(e, db, clock) && clock <= now
    requires CreateTx(e, db, id, terms, demo, now).Ok?
    ensures Inv(e, CreateTx(e, db, id, terms, demo, now).value, now)
  {
    hide MarketOk, KeysAnswered, Balanced, SoundEngine, SlotTaken, MarketsKept, RefsKnown, CreateTx, ValidRule;
    CreateIsCreated(e, db, id, terms, demo, now);
    InvLater(e, db, clock, now);
    var next := CreateTx(e, db, id, terms, demo, now).value;
    var funding := e.funding(terms.liquidity, OutcomeCount(terms.rule)).value;
    var withAccount := OpenAccount(db.books, Reserve(id)).value;
    OpenKeepsBalanced(db.books, Reserve(id));
    PostKeepsBalanced(withAccount, Transfer(Treasury, Reserve(id), funding, Subsidy(id)));
    NewMarketOk(e, terms, funding, now);
    InvChanges(e, db, next, id, now);
  }
}
