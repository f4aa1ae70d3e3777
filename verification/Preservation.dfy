/** Every transaction keeps the invariant; and on states that satisfy it, neither the coverage
    check nor any table constraint ever aborts a settlement. */
module Preservation {
  import opened Wrappers
  import opened Amm
  import opened Lmsr
  import opened PricingEngine
  import opened Fee
  import opened MapSum
  import opened Books
  import opened Exchange
  import opened Invariant

  // ---- Framing --------------------------------------------------------------------------------

  /** Only market `id` and accounts outside the other reserves changed. */
  ghost predicate Changes(db: Db, next: Db, id: MarketId) {
    && id in next.markets
    && next.markets == db.markets[id := next.markets[id]]
    && db.books.balances.Keys <= next.books.balances.Keys
    && (forall j :: j in db.markets && j != id && Reserve(j) in db.books.balances ==>
          next.books.balances[Reserve(j)] == db.books.balances[Reserve(j)])
    && (if id in db.markets then
          && db.markets[id].row.version <= next.markets[id].row.version
          && db.markets[id].claims.Keys <= next.markets[id].claims.Keys
          && (Terminal(db.markets[id].row) ==> Terminal(next.markets[id].row))
        else Reserve(id) !in db.books.balances)
  }

  lemma MarketOkLater(e: Engine, mk: Market, reserve: int, clock: int, later: int)
    requires MarketOk(e, mk, reserve, clock) && clock <= later
    ensures MarketOk(e, mk, reserve, later)
  {}

  lemma InvLater(e: Engine, db: Db, clock: int, later: int)
    requires Inv(e, db, clock) && clock <= later
    ensures Inv(e, db, later)
  {
    forall id | id in db.markets ensures MarketKept(e, db, id, later) {
      assert MarketKept(e, db, id, clock);
      MarketOkLater(e, db.markets[id], db.books.balances[Reserve(id)], clock, later);
    }
  }

  lemma RefStaysKnown(db: Db, next: Db, id: MarketId, r: Ref)
    requires Changes(db, next, id) && RefKnown(db, r)
    ensures RefKnown(next, r)
  {}

  /** The ledger grew, and its new references are known in the new state. */
  ghost predicate Extended(db: Db, next: Db) {
    var n := |db.books.ledger|;
    && n <= |next.books.ledger| && next.books.ledger[..n] == db.books.ledger
    && forall i :: n <= i < |next.books.ledger| ==> RefKnown(next, next.books.ledger[i].ref)
  }

  lemma PostExtends(db: Db, next: Db, t: Transfer)
    requires t.from in db.books.balances && t.to in db.books.balances
    requires next.books == Posted(db.books, t) && RefKnown(next, t.ref)
    ensures Extended(db, next)
  {}

  lemma RefsStayKnown(db: Db, next: Db, id: MarketId)
    requires RefsKnown(db) && Changes(db, next, id) && Extended(db, next)
    ensures RefsKnown(next)
  {
    forall i | 0 <= i < |next.books.ledger| ensures RefKnown(next, next.books.ledger[i].ref) {
      if i < |db.books.ledger| {
        assert next.books.ledger[i] == db.books.ledger[i];
        RefStaysKnown(db, next, id, db.books.ledger[i].ref);
      }
    }
  }

  lemma MarketsStayKept(e: Engine, db: Db, next: Db, id: MarketId, clock: int)
    requires MarketsKept(e, db, clock) && Changes(db, next, id) && MarketKept(e, next, id, clock)
    ensures MarketsKept(e, next, clock)
  {
    forall j | j in next.markets ensures MarketKept(e, next, j, clock) {
      if j != id {
        assert MarketKept(e, db, j, clock);
      }
    }
  }

  lemma InvChanges(e: Engine, db: Db, next: Db, id: MarketId, clock: int)
    requires Inv(e, db, clock) && Changes(db, next, id) && Extended(db, next)
    requires Balanced(next.books) && MarketKept(e, next, id, clock) && KeysAnswered(next.keys)
    ensures Inv(e, next, clock)
  {
    MarketsStayKept(e, db, next, id, clock);
    RefsStayKnown(db, next, id);
  }

  // ---- Trades ---------------------------------------------------------------------------------

  lemma ColumnUpdate(positions: map<UserId, seq<int>>, u: UserId, q: seq<int>, o: nat, n: nat)
    requires RowsOk(positions, n) && |q| == n && o < n
    ensures SumOf(Column(positions[u := q], o))
         == SumOf(Column(positions, o)) + q[o] - (if u in positions then positions[u][o] else 0)
  {
    assert Column(positions[u := q], o) == Column(positions, o)[u := q[o]];
    SumPut(Column(positions, o), u, q[o]);
  }

  lemma TradePositions(mk: Market, c: QuoteClaims, deal: Deal, now: int)
    requires PositionsOk(mk) && c.outcome < Outcomes(mk.row)
    requires deal.inventory == Moved(mk.row.inventory, c.outcome, c.side, c.quantity)
    requires 0 <= Holding(mk, c.user)[c.outcome] + Delta(c.side, c.quantity)
    ensures PositionsOk(TradedMarket(mk, c, deal, now))
  {
    var next := TradedMarket(mk, c, deal, now);
    var held := Holding(mk, c.user);
    var q := held[c.outcome := held[c.outcome] + Delta(c.side, c.quantity)];
    assert next.positions == mk.positions[c.user := q];
    forall o | 0 <= o < Outcomes(next.row)
      ensures SumOf(Column(next.positions, o)) == next.row.inventory[o]
    {
      ColumnUpdate(mk.positions, c.user, q, o, Outcomes(mk.row));
    }
  }

  /** A quoted deal is the engine's calculation with the fee split out of the total. */
  ghost predicate SoundDeal(e: Engine, row: Instance, outcome: nat, side: Side, quantity: int, deal: Deal) {
    && Accepts(row.inventory, row.terms.liquidity, outcome, side, quantity)
    && deal.inventory == Moved(row.inventory, outcome, side, quantity)
    && e.cost(deal.inventory, row.terms.liquidity, row.version + 1) - e.cost(row.inventory, row.terms.liquidity, row.version)
       <= Signed(side, deal.amount) as real
    && deal.fee == FeeOf(deal.amount, row.terms.feeCharged)
    && 0 <= deal.fee && 0 <= deal.total
    && Signed(side, deal.total) == Signed(side, deal.amount) + deal.fee
  }

  lemma EnginePrices(
      e: Engine, inventory: seq<int>, liquidity: int, outcome: nat, side: Side, quantity: int, version: nat
    )
    requires SoundEngine(e)
    ensures PricesTrade(e, inventory, liquidity, outcome, side, quantity, version)
  {
    hide PricesTrade;
  }

  lemma QuoteIsSound(e: Engine, row: Instance, outcome: nat, side: Side, quantity: int)
    requires SoundEngine(e)
    ensures Quote(e, row, outcome, side, quantity).Err? ==>
      Quote(e, row, outcome, side, quantity).error == Invalid || Quote(e, row, outcome, side, quantity).error == Internal
    ensures Quote(e, row, outcome, side, quantity).Ok? ==>
      outcome < Outcomes(row) && SoundDeal(e, row, outcome, side, quantity, Quote(e, row, outcome, side, quantity).value)
  {
    hide Supported, Moved, TradeFee, SoundEngine;
    EnginePrices(e, row.inventory, row.terms.liquidity, outcome, side, quantity, row.version);
    var r := e.calculate(row.inventory, row.terms.liquidity, outcome, side, quantity, row.version);
    if r.Ok? {
      ChargedSplits(r.value.amount, side, row.terms.feeCharged);
    }
  }

  /** What a successful recheck establishes. */
  lemma RecheckedDeal(e: Engine, row: Instance, c: QuoteClaims, limit: int, now: int)
    requires SoundEngine(e)
    requires Recheck(e, row, c, limit, now).Ok?
    ensures Tradable(row, now) && c.outcome < Outcomes(row) && c.version == row.version
    ensures SoundDeal(e, row, c.outcome, c.side, c.quantity, Recheck(e, row, c, limit, now).value)
  {
    hide SoundEngine, SoundDeal, Quote;
    QuoteIsSound(e, row, c.outcome, c.side, c.quantity);
    assert Quote(e, row, c.outcome, c.side, c.quantity) == Ok(Recheck(e, row, c, limit, now).value);
  }

  lemma TradeCash(mk: Market, reserve: int, clock: int, c: QuoteClaims, deal: Deal, now: int)
    requires c.outcome < Outcomes(mk.row) && mk.row.phase == Open
    requires ClaimsOk(mk) && PhaseOk(mk.row, clock) && TradesOk(mk, clock)
    requires 0 <= deal.fee && Signed(c.side, deal.total) == Signed(c.side, deal.amount) + deal.fee
    ensures var next := TradedMarket(mk, c, deal, now);
            var after := reserve + Signed(c.side, deal.total);
            && Cash(next, after) == Cash(mk, reserve) + Signed(c.side, deal.amount)
            && Cash(next, after) <= after
  {
    var next := TradedMarket(mk, c, deal, now);
    FeesAppend(mk.trades, next.trades[|mk.trades|]);
    FeesNonnegative(next.trades);
    assert mk.claims == map[] by {
      assert forall u :: u !in mk.claims;
    }
  }

  lemma TradeMoney(e: Engine, mk: Market, reserve: int, clock: int, c: QuoteClaims, deal: Deal, now: int)
    requires SoundEngine(e)
    requires MarketOk(e, mk, reserve, clock) && mk.row.phase == Open
    requires SoundDeal(e, mk.row, c.outcome, c.side, c.quantity, deal)
    ensures var next := TradedMarket(mk, c, deal, now);
            var after := reserve + Signed(c.side, deal.total);
            && ShapeOk(next.row) && MoneyOk(e, next, after)
            && 1000 * Max(deal.inventory) <= Cash(next, after) <= after
  {
    hide TimesOrdered, SoundEngine, PositionsOk, ClaimsOk, TradesOk, EvidenceOk, OutboxOk, PhaseOk, FeeOf,
         Cash, Holding, InRange, InSpread, Max;
    var next := TradedMarket(mk, c, deal, now);
    var after := reserve + Signed(c.side, deal.total);
    TradeCash(mk, reserve, clock, c, deal, now);
    assert Covers(e, mk.row.inventory, mk.row.terms.liquidity, mk.row.version, Cash(mk, reserve));
    assert Covers(e, deal.inventory, mk.row.terms.liquidity, mk.row.version + 1, Cash(next, after));
    CoverPaysMax(e, deal.inventory, mk.row.terms.liquidity, mk.row.version + 1, Cash(next, after));
  }

  lemma TradedMarketOk(e: Engine, mk: Market, reserve: int, clock: int, c: QuoteClaims, deal: Deal, now: int)
    requires SoundEngine(e)
    requires MarketOk(e, mk, reserve, clock) && clock <= now && Tradable(mk.row, now)
    requires SoundDeal(e, mk.row, c.outcome, c.side, c.quantity, deal)
    requires c.side == Sell ==> c.quantity <= Holding(mk, c.user)[c.outcome]
    ensures MarketOk(e, TradedMarket(mk, c, deal, now), reserve + Signed(c.side, deal.total), now)
  {
    TradeMoney(e, mk, reserve, clock, c, deal, now);
    TradePositions(mk, c, deal, now);
    MarketOkLater(e, mk, reserve, clock, now);
    TradeRecords(mk, clock, c, deal, now);
  }

  lemma TradeRecords(mk: Market, clock: int, c: QuoteClaims, deal: Deal, now: int)
    requires c.outcome < Outcomes(mk.row) && |deal.inventory| == |mk.row.inventory|
    requires PhaseOk(mk.row, clock) && ClaimsOk(mk) && TradesOk(mk, clock) && EvidenceOk(mk, clock) && OutboxOk(mk)
    requires clock <= now && Tradable(mk.row, now) && 0 <= deal.fee && 0 <= deal.total
    ensures var next := TradedMarket(mk, c, deal, now);
            PhaseOk(next.row, now) && ClaimsOk(next) && TradesOk(next, now) && EvidenceOk(next, now) && OutboxOk(next)
  {
  }

  ghost predicate Affordable(db: Db, mk: Market, c: QuoteClaims, deal: Deal)
    requires c.outcome < Outcomes(mk.row)
  {
    && User(c.user) in db.books.balances
    && (c.side == Buy ==> deal.total <= db.books.balances[User(c.user)])
    && (c.side == Sell ==> c.quantity <= Holding(mk, c.user)[c.outcome])
  }

  lemma UnknownIsUnused(db: Db, r: Ref)
    requires RefsKnown(db) && !RefKnown(db, r)
    ensures !Used(db.books.ledger, r)
  {
    forall i | 0 <= i < |db.books.ledger| ensures db.books.ledger[i].ref != r {
      assert RefKnown(db, db.books.ledger[i].ref);
    }
  }

  lemma NextTradeRefUnused(db: Db, id: MarketId)
    requires RefsKnown(db) && id in db.markets
    ensures !Used(db.books.ledger, TradeOf(id, db.markets[id].row.version + 1))
  {
    UnknownIsUnused(db, TradeOf(id, db.markets[id].row.version + 1));
  }

  /** The funding checks pass exactly for affordable deals, coverage never refuses, and the
      ledger then accepts the transfer. */
  ghost predicate FundsExactly(db: Db, mk: Market, c: QuoteClaims, deal: Deal)
    requires c.outcome < Outcomes(mk.row)
  {
    && (Fund(db, mk, c, deal).Ok? <==> Affordable(db, mk, c, deal))
    && Fund(db, mk, c, deal) != Err(Conflict(ReserveCoverage))
    && (Fund(db, mk, c, deal).Ok? ==> Allowed(db.books, TradeTransfer(c, deal, mk.row.version + 1)))
  }

  ghost predicate CoveredDeal(db: Db, id: MarketId, side: Side, deal: Deal) {
    && Reserve(id) in db.books.balances
    && |deal.inventory| > 0 && 0 <= deal.inventory[0] && 0 <= deal.total
    && 1000 * Max(deal.inventory) <= db.books.balances[Reserve(id)] + Signed(side, deal.total)
  }

  lemma CoveredDealIsFunded(db: Db, mk: Market, c: QuoteClaims, deal: Deal)
    requires c.outcome < Outcomes(mk.row)
    requires CoveredDeal(db, c.market, c.side, deal)
    requires !Used(db.books.ledger, TradeOf(c.market, mk.row.version + 1))
    ensures FundsExactly(db, mk, c, deal)
  {}

  lemma SoundDealIsCovered(e: Engine, db: Db, clock: int, c: QuoteClaims, deal: Deal)
    requires SoundEngine(e)
    requires Inv(e, db, clock) && c.market in db.markets && db.markets[c.market].row.phase == Open
    requires SoundDeal(e, db.markets[c.market].row, c.outcome, c.side, c.quantity, deal)
    ensures CoveredDeal(db, c.market, c.side, deal)
  {
    var mk := db.markets[c.market];
    assert MarketKept(e, db, c.market, clock);
    TradeMoney(e, mk, db.books.balances[Reserve(c.market)], clock, c, deal, clock);
  }

  lemma SoundDealIsFunded(e: Engine, db: Db, clock: int, c: QuoteClaims, deal: Deal)
    requires SoundEngine(e)
    requires Inv(e, db, clock) && c.market in db.markets && db.markets[c.market].row.phase == Open
    requires SoundDeal(e, db.markets[c.market].row, c.outcome, c.side, c.quantity, deal)
    requires c.outcome < Outcomes(db.markets[c.market].row)
    ensures FundsExactly(db, db.markets[c.market], c, deal)
  {
    hide Balanced, KeysAnswered, MarketsKept, RefsKnown, CoveredDeal, FundsExactly;
    SoundDealIsCovered(e, db, clock, c, deal);
    NextTradeRefUnused(db, c.market);
    CoveredDealIsFunded(db, db.markets[c.market], c, deal);
  }

  // ---- When a trade commits ---------------------------------------------------------------------

  /** The least whole number not below 25 basis points of the amount, on markets that charge a fee. */
  ghost predicate IsFee(amount: int, fee: int, feeCharged: bool) {
    if feeCharged then 10_000 * (fee - 1) < 25 * amount <= 10_000 * fee else fee == 0
  }

  /** The market is open to this trader and the quote in force: neither its time, its version, its
      amount nor its fee has changed. */
  ghost predicate QuoteStands(e: Engine, row: Instance, c: QuoteClaims, now: int) {
    && row.phase == Open && !row.suspended && now < row.terms.closeMs
    && row.terms.creator != Some(c.user)
    && now < c.expires && c.version == row.version && c.outcome < |row.inventory|
    && (var r := e.calculate(row.inventory, row.terms.liquidity, c.outcome, c.side, c.quantity, row.version);
        r.Ok? && r.value.amount == c.amount)
    && IsFee(c.amount, c.fee, row.terms.feeCharged)
  }

  /** A purchase costs at most the limit, a sale yields at least the limit, fees included. */
  ghost predicate WithinLimit(c: QuoteClaims, limit: int) {
    if c.side == Buy then c.amount + c.fee <= limit else limit <= c.amount - c.fee
  }

  /** The trader has the units to buy or the shares to sell. */
  ghost predicate CanSettle(b: Books, positions: map<UserId, seq<int>>, c: QuoteClaims) {
    && User(c.user) in b.balances
    && (c.side == Buy ==> c.amount + c.fee <= b.balances[User(c.user)])
    && (c.side == Sell ==>
          c.user in positions && c.outcome < |positions[c.user]| && c.quantity <= positions[c.user][c.outcome])
  }

  lemma FeeIsUnique(amount: int, fee: int, feeCharged: bool)
    ensures IsFee(amount, fee, feeCharged) <==> fee == FeeOf(amount, feeCharged)
  {}

  /** The rechecks pass exactly when the quote stands and its total is within the limit. */
  lemma RecheckMeans(e: Engine, row: Instance, c: QuoteClaims, limit: int, now: int)
    requires SoundEngine(e)
    ensures Recheck(e, row, c, limit, now).Ok? <==> QuoteStands(e, row, c, now) && WithinLimit(c, limit)
    ensures Recheck(e, row, c, limit, now).Ok? ==>
      Signed(c.side, Recheck(e, row, c, limit, now).value.total) == Signed(c.side, c.amount) + c.fee
  {
    hide SoundEngine, IsFee, FeeOf, Charged, Accepts, Moved;
    EnginePrices(e, row.inventory, row.terms.liquidity, c.outcome, c.side, c.quantity, row.version);
    var r := e.calculate(row.inventory, row.terms.liquidity, c.outcome, c.side, c.quantity, row.version);
    if r.Ok? {
      AmountIsSmall(e, row, c.outcome, c.side, c.quantity);
      ChargedSplits(r.value.amount, c.side, row.terms.feeCharged);
      FeeIsUnique(r.value.amount, c.fee, row.terms.feeCharged);
    }
  }

  lemma AmountIsSmall(e: Engine, row: Instance, outcome: nat, side: Side, quantity: int)
    requires PricesTrade(e, row.inventory, row.terms.liquidity, outcome, side, quantity, row.version)
    ensures var r := e.calculate(row.inventory, row.terms.liquidity, outcome, side, quantity, row.version);
            r.Ok? ==> 0 <= r.value.amount <= 1000 * MAX_QUANTITY + 1 && 1 <= quantity
  {}

  lemma AffordableMeans(e: Engine, db: Db, clock: int, c: QuoteClaims, deal: Deal)
    requires Inv(e, db, clock) && c.market in db.markets && c.outcome < Outcomes(db.markets[c.market].row)
    requires Signed(c.side, deal.total) == Signed(c.side, c.amount) + c.fee && 1 <= c.quantity
    ensures Affordable(db, db.markets[c.market], c, deal) <==> CanSettle(db.books, db.markets[c.market].positions, c)
  {
    hide Balanced, RefsKnown, KeysAnswered;
    assert MarketKept(e, db, c.market, clock);
  }

  /** A new trade commits exactly when its market is known, its quote stands and is within the limit,
      and the trader has the units or the shares; the coverage of the reserve never stands in its way. */
  lemma TradeCommits(e: Engine, db: Db, clock: int, key: string, request: TradeRequest, limit: int, now: int)
    requires SoundEngine(e)
    requires Inv(e, db, clock)
    requires (request.claims.user, key) !in db.keys
    ensures var c := request.claims;
            ExecuteOnce(e, db, key, request, limit, now).Ok? <==>
              && c.market in db.markets
              && QuoteStands(e, db.markets[c.market].row, c, now) && WithinLimit(c, limit)
              && CanSettle(db.books, db.markets[c.market].positions, c)
    ensures ExecuteOnce(e, db, key, request, limit, now) != Err(Conflict(ReserveCoverage))
  {
    hide Inv, Affordable, Recheck, QuoteStands, WithinLimit, CanSettle, CommitTrade, SoundDeal;
    var c := request.claims;
    if c.market in db.markets {
      var row := db.markets[c.market].row;
      RecheckedCommits(e, db, clock, key, request, limit, now);
      RecheckMeans(e, row, c, limit, now);
      if Recheck(e, row, c, limit, now).Ok? {
        RecheckedDeal(e, row, c, limit, now);
        SoundDealIsSome(e, row, c, Recheck(e, row, c, limit, now).value);
        AffordableMeans(e, db, clock, c, Recheck(e, row, c, limit, now).value);
      }
    }
  }

  lemma SoundDealIsSome(e: Engine, row: Instance, c: QuoteClaims, deal: Deal)
    requires SoundDeal(e, row, c.outcome, c.side, c.quantity, deal)
    ensures 1 <= c.quantity
  {}

  lemma RecheckedCommits(e: Engine, db: Db, clock: int, key: string, request: TradeRequest, limit: int, now: int)
    requires SoundEngine(e)
    requires Inv(e, db, clock)
    requires (request.claims.user, key) !in db.keys && request.claims.market in db.markets
    ensures var mk := db.markets[request.claims.market];
            var checked := Recheck(e, mk.row, request.claims, limit, now);
            && (checked.Ok? ==> request.claims.outcome < Outcomes(mk.row))
            && (ExecuteOnce(e, db, key, request, limit, now).Ok?
                <==> checked.Ok? && Affordable(db, mk, request.claims, checked.value))
            && ExecuteOnce(e, db, key, request, limit, now) != Err(Conflict(ReserveCoverage))
  {
    hide Inv, FundsExactly, SoundDeal, CommitTrade, Affordable, Recheck;
    var row := db.markets[request.claims.market].row;
    var checked := Recheck(e, row, request.claims, limit, now);
    RecheckNeverCoverage(e, row, request.claims, limit, now);
    if checked.Ok? {
      RecheckedDeal(e, row, request.claims, limit, now);
      SoundDealIsFunded(e, db, clock, request.claims, checked.value);
      FundedCommits(db, key, request, checked.value, now);
    }
  }

  lemma RecheckNeverCoverage(e: Engine, row: Instance, c: QuoteClaims, limit: int, now: int)
    requires SoundEngine(e)
    ensures Recheck(e, row, c, limit, now) != Err(Conflict(ReserveCoverage))
    ensures Recheck(e, row, c, limit, now).Ok? ==> row.phase == Open
  {
    hide SoundEngine, SoundDeal, Quote, Accepts;
    QuoteIsSound(e, row, c.outcome, c.side, c.quantity);
  }

  lemma FundedCommits(db: Db, key: string, request: TradeRequest, deal: Deal, now: int)
    requires request.claims.market in db.markets
    requires request.claims.outcome < Outcomes(db.markets[request.claims.market].row)
    requires FundsExactly(db, db.markets[request.claims.market], request.claims, deal)
    ensures CommitTrade(db, key, request, deal, now).Ok?
       <==> Affordable(db, db.markets[request.claims.market], request.claims, deal)
    ensures CommitTrade(db, key, request, deal, now) != Err(Conflict(ReserveCoverage))
  {}

  /** What a committed trade changes in the state. */
  ghost predicate Committed(db: Db, next: Db, c: QuoteClaims, deal: Deal, now: int)
    requires c.market in db.markets && c.outcome < Outcomes(db.markets[c.market].row)
  {
    var mk := db.markets[c.market];
    var t := TradeTransfer(c, deal, mk.row.version + 1);
    && Allowed(db.books, t)
    && next.books == Posted(db.books, t)
    && next.markets == db.markets[c.market := TradedMarket(mk, c, deal, now)]
    && Affordable(db, mk, c, deal)
  }

  lemma CommitIsCommitted(db: Db, key: string, request: TradeRequest, deal: Deal, now: int)
    requires request.claims.market in db.markets
    requires request.claims.outcome < Outcomes(db.markets[request.claims.market].row)
    requires CommitTrade(db, key, request, deal, now).Ok?
    ensures Committed(db, CommitTrade(db, key, request, deal, now).value.0, request.claims, deal, now)
  {}

  lemma CommittedChanges(db: Db, next: Db, c: QuoteClaims, deal: Deal, now: int)
    requires c.market in db.markets && c.outcome < Outcomes(db.markets[c.market].row)
    requires Committed(db, next, c, deal, now)
    ensures Changes(db, next, c.market) && Extended(db, next)
    ensures next.books.balances[Reserve(c.market)]
         == db.books.balances[Reserve(c.market)] + Signed(c.side, deal.total)
  {
    PostExtends(db, next, TradeTransfer(c, deal, db.markets[c.market].row.version + 1));
  }

  lemma CommittedBalanced(db: Db, next: Db, c: QuoteClaims, deal: Deal, now: int)
    requires Balanced(db.books)
    requires c.market in db.markets && c.outcome < Outcomes(db.markets[c.market].row)
    requires Committed(db, next, c, deal, now)
    ensures Balanced(next.books)
  {
    hide Balanced;
    PostKeepsBalanced(db.books, TradeTransfer(c, deal, db.markets[c.market].row.version + 1));
  }

  lemma CommitKeepsInv(e: Engine, db: Db, clock: int, c: QuoteClaims, deal: Deal, next: Db, now: int)
    requires SoundEngine(e)
    requires Inv(e, db, clock) && clock <= now
    requires c.market in db.markets && Tradable(db.markets[c.market].row, now)
    requires SoundDeal(e, db.markets[c.market].row, c.outcome, c.side, c.quantity, deal)
    requires Committed(db, next, c, deal, now) && KeysAnswered(next.keys)
    ensures Inv(e, next, now)
  {
    hide MarketKept, Balanced, Committed, RefsKnown, KeysAnswered, Extended;
    InvLater(e, db, clock, now);
    CommittedChanges(db, next, c, deal, now);
    CommittedBalanced(db, next, c, deal, now);
    assert MarketKept(e, db, c.market, clock);
    CommitKeepsMarket(e, db, clock, c, deal, next, now);
    InvChanges(e, db, next, c.market, now);
  }

  lemma CommitKeepsMarket(e: Engine, db: Db, clock: int, c: QuoteClaims, deal: Deal, next: Db, now: int)
    requires SoundEngine(e)
    requires clock <= now
    requires c.market in db.markets && Tradable(db.markets[c.market].row, now)
    requires MarketKept(e, db, c.market, clock)
    requires SoundDeal(e, db.markets[c.market].row, c.outcome, c.side, c.quantity, deal)
    requires Committed(db, next, c, deal, now)
    ensures MarketKept(e, next, c.market, now)
  {
    CommittedChanges(db, next, c, deal, now);
    TradedMarketOk(e, db.markets[c.market], db.books.balances[Reserve(c.market)], clock, c, deal, now);
  }

  lemma CommitKeepsKeys(db: Db, key: string, request: TradeRequest, deal: Deal, now: int)
    requires KeysAnswered(db.keys)
    requires request.claims.market in db.markets
    requires request.claims.outcome < Outcomes(db.markets[request.claims.market].row)
    requires CommitTrade(db, key, request, deal, now).Ok?
    ensures KeysAnswered(CommitTrade(db, key, request, deal, now).value.0.keys)
  {}

  lemma ExecuteKeepsInv(e: Engine, db: Db, clock: int, key: string, request: TradeRequest, limit: int, now: int)
    requires SoundEngine(e)
    requires Inv(e, db, clock) && clock <= now
    requires ExecuteOnce(e, db, key, request, limit, now).Ok?
    ensures Inv(e, ExecuteOnce(e, db, key, request, limit, now).value.0, now)
  {
    hide MarketsKept, Balanced, RefsKnown, CommitTrade, Recheck, SoundDeal;
    var c := request.claims;
    InvLater(e, db, clock, now);
    if (c.user, key) !in db.keys {
      RecheckedDeal(e, db.markets[c.market].row, c, limit, now);
      var deal := Recheck(e, db.markets[c.market].row, c, limit, now).value;
      CommitIsCommitted(db, key, request, deal, now);
      CommitKeepsKeys(db, key, request, deal, now);
      CommitKeepsInv(e, db, clock, c, deal, CommitTrade(db, key, request, deal, now).value.0, now);
    }
  }
}
