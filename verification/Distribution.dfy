/** Where a market's money goes, in any run: before it is settled its reserve holds the funding and
    what traders paid, less what was claimed; and once it is terminal, the ledger has exactly the
    claims, release and fee rows that its terms, trades, positions and result determine. */
module Distribution {
  import opened Lmsr
  import opened PricingEngine
  import opened MapSum
  import opened Books
  import opened Rules
  import opened Exchange
  import opened Invariant
  import opened Preservation
  import opened Settlement
  import opened Transactions
  import opened Runs
  import opened Audit
  import opened Theorems

  // ---- The closed form ------------------------------------------------------------------------------

  /** What traders paid in, fees included, less what they were paid. */
  function Flow(trades: seq<Trade>): int {
    if trades == [] then 0
    else Flow(trades[..|trades| - 1]) + Signed(trades[|trades| - 1].side, trades[|trades| - 1].total)
  }

  function FundingOf(e: Engine, t: Terms): int {
    match e.funding(t.liquidity, OutcomeCount(t.rule))
    case Ok(funding) => funding
    case Err(_) => 0
  }

  function RowIf(condition: bool, t: Transfer): seq<Transfer> {
    if condition then [t] else []
  }

  /** The transfers that close a market whose claims are all paid. */
  ghost function ClosingRows(e: Engine, mk: Market, id: MarketId): seq<Transfer> {
    var creator, fees, cut := mk.row.terms.creator, Fees(mk.trades), CreatorCut(mk);
    var release := FundingOf(e, mk.row.terms) + Flow(mk.trades) - SumOf(mk.claims) - fees;
    [Transfer(Reserve(id), Treasury, release, Release(id))]
    + RowIf(fees - cut > 0, Transfer(Reserve(id), Treasury, fees - cut, FeeToTreasury(id)))
    + RowIf(creator.Some? && cut > 0, Transfer(Reserve(id), User(if creator.Some? then creator.value else 0), cut, FeeToCreator(id)))
  }

  /** The ledger's closing rows of a market, in order. */
  ghost function ClosingOf(ledger: seq<Transfer>, id: MarketId): seq<Transfer> {
    if ledger == [] then []
    else
      var last := ledger[|ledger| - 1];
      ClosingOf(ledger[..|ledger| - 1], id) + if ClosingRef(last.ref, id) then [last] else []
  }

  lemma ClosingAppend(ledger: seq<Transfer>, t: Transfer, id: MarketId)
    ensures ClosingOf(ledger + [t], id) == ClosingOf(ledger, id) + if ClosingRef(t.ref, id) then [t] else []
  {
    assert (ledger + [t])[..|ledger|] == ledger;
  }

  function ClaimRow(id: MarketId, user: UserId, credit: int): Transfer {
    Transfer(Reserve(id), User(user), credit, Claim(id, user))
  }

  ghost predicate ClaimsRecorded(ledger: seq<Transfer>, mk: Market, id: MarketId) {
    forall u :: u in mk.claims ==> ClaimRow(id, u, mk.claims[u]) in ledger
  }

  /** The market's part of the ledger and of the balances. */
  ghost predicate Trail(e: Engine, ledger: seq<Transfer>, mk: Market, id: MarketId, reserve: int) {
    && ClaimsRecorded(ledger, mk, id)
    && if Terminal(mk.row) then ClosingOf(ledger, id) == ClosingRows(e, mk, id)
       else ClosingOf(ledger, id) == [] && reserve == FundingOf(e, mk.row.terms) + Flow(mk.trades) - SumOf(mk.claims)
  }

  ghost predicate Trails(e: Engine, db: Db) {
    && (forall i :: i in db.markets ==>
          Reserve(i) in db.books.balances && Trail(e, db.books.ledger, db.markets[i], i, db.books.balances[Reserve(i)]))
  }

  // ---- What leaves a trail alone ------------------------------------------------------------------------

  ghost predicate SameTrail(mk: Market, next: Market) {
    next.row.terms == mk.row.terms && next.trades == mk.trades && next.claims == mk.claims
    && (Terminal(next.row) <==> Terminal(mk.row))
  }

  lemma SameMarketTrail(e: Engine, ledger: seq<Transfer>, mk: Market, next: Market, id: MarketId, reserve: int)
    requires Trail(e, ledger, mk, id, reserve) && SameTrail(mk, next)
    ensures Trail(e, ledger, next, id, reserve)
  {}

  /** One more row about something else. */
  lemma OtherRow(e: Engine, ledger: seq<Transfer>, t: Transfer, mk: Market, id: MarketId, reserve: int)
    requires Trail(e, ledger, mk, id, reserve) && !ClosingRef(t.ref, id)
    ensures Trail(e, ledger + [t], mk, id, reserve)
  {
    hide ClosingOf, ClosingRows;
    ClosingAppend(ledger, t, id);
  }

  /** The trail of another market survives a posting between other accounts. */
  lemma PostKeepsTrail(e: Engine, b: Books, t: Transfer, mk: Market, id: MarketId)
    requires Allowed(b, t) && Reserve(id) in b.balances && t.from != Reserve(id) && t.to != Reserve(id)
    requires Trail(e, b.ledger, mk, id, b.balances[Reserve(id)]) && !ClosingRef(t.ref, id)
    ensures Trail(e, Posted(b, t).ledger, mk, id, Posted(b, t).balances[Reserve(id)])
  {
    hide Trail;
    OtherRow(e, b.ledger, t, mk, id, b.balances[Reserve(id)]);
  }

  // ---- Transactions that move no reserve ------------------------------------------------------------------

  lemma RowChangeKeepsTrail(e: Engine, db: Db, op: Op, now: int)
    requires op.SuspendOp? || op.ObserveOp? || op.CreatorOp? || op.ResolverOp?
    requires Apply(e, db, op, now).Ok?
    ensures var next := Apply(e, db, op, now).value;
            && op.market in db.markets && op.market in next.markets
            && next == WithMarket(db, op.market, next.markets[op.market])
            && SameTrail(db.markets[op.market], next.markets[op.market])
  {
    hide Evaluate, InputBounded, HasRevision, HasSource, FindEvent, Latest, GrantTx, CreateTx, ExecuteTx,
         CloseTx, SettleTx, PurgeTx;
  }

  lemma RowsKeepTrails(e: Engine, db: Db, next: Db)
    requires Trails(e, db) && next.books == db.books && next.markets.Keys <= db.markets.Keys
    requires forall i :: i in next.markets ==> SameTrail(db.markets[i], next.markets[i])
    ensures Trails(e, next)
  {
    hide Trail, SameTrail;
    forall i | i in next.markets
      ensures Reserve(i) in next.books.balances && Trail(e, next.books.ledger, next.markets[i], i, next.books.balances[Reserve(i)])
    {
      SameMarketTrail(e, db.books.ledger, db.markets[i], next.markets[i], i, db.books.balances[Reserve(i)]);
    }
  }

  lemma RowOpsKeepTrails(e: Engine, db: Db, op: Op, now: int)
    requires RowsOnly(op) && Trails(e, db) && Apply(e, db, op, now).Ok?
    ensures Trails(e, Apply(e, db, op, now).value)
  {
    hide Trails, SuspendTx, ObserveTx, CreatorTx, ResolverTx, Purgeable, GrantTx, CreateTx, ExecuteTx, SettleTx;
    if !op.CloseOp? && !op.PurgeOp? {
      RowChangeKeepsTrail(e, db, op, now);
    }
    RowsKeepTrails(e, db, Apply(e, db, op, now).value);
  }

  lemma GrantKeepsTrails(e: Engine, db: Db, user: UserId, name: string, amount: int)
    requires Trails(e, db) && GrantTx(db, user, name, amount).Ok?
    ensures Trails(e, GrantTx(db, user, name, amount).value)
  {
    hide Trail, Posted, ValidName;
    var withAccount := OpenAccount(db.books, User(user)).value;
    var t := Transfer(Treasury, User(user), amount, Grant(user));
    forall i | i in db.markets
      ensures Reserve(i) in Posted(withAccount, t).balances
           && Trail(e, Posted(withAccount, t).ledger, db.markets[i], i, Posted(withAccount, t).balances[Reserve(i)])
    {
      PostedKeys(withAccount, t);
      PostKeepsTrail(e, withAccount, t, db.markets[i], i);
    }
  }

  lemma PostedKeys(b: Books, t: Transfer)
    requires t.from in b.balances && t.to in b.balances
    ensures Posted(b, t).balances.Keys == b.balances.Keys && Posted(b, t).ledger == b.ledger + [t]
  {}

  // ---- Creation and trades ----------------------------------------------------------------------------------

  lemma NewTrail(e: Engine, db: Db, id: MarketId, terms: Terms, next: Db)
    requires RefsKnown(db) && Created(e, db, next, id, terms)
    ensures Reserve(id) in next.books.balances
    ensures Trail(e, next.books.ledger, next.markets[id], id, next.books.balances[Reserve(id)])
  {
    hide Allowed, SlotTaken, ValidRule, RefKnown;
    var funding := e.funding(terms.liquidity, OutcomeCount(terms.rule)).value;
    var t := Transfer(Treasury, Reserve(id), funding, Subsidy(id));
    AllowedAccounts(Books(db.books.balances[Reserve(id) := 0], db.books.ledger), t);
    NothingClosed(db, db.books.ledger, id);
    ClosingAppend(db.books.ledger, t, id);
  }

  lemma AllowedAccounts(b: Books, t: Transfer)
    requires Allowed(b, t)
    ensures t.from in b.balances && t.to in b.balances && t.from != t.to
  {}

  lemma {:induction false} NothingClosed(db: Db, ledger: seq<Transfer>, id: MarketId)
    requires Reserve(id) !in db.books.balances
    requires forall i :: 0 <= i < |ledger| ==> RefKnown(db, ledger[i].ref)
    ensures ClosingOf(ledger, id) == []
  {
    if ledger != [] {
      NothingClosed(db, ledger[..|ledger| - 1], id);
      assert RefKnown(db, ledger[|ledger| - 1].ref);
    }
  }

  lemma CreateKeepsTrails(e: Engine, db: Db, clock: int, id: MarketId, terms: Terms, demo: bool, now: int)
    requires Inv(e, db, clock) && Trails(e, db) && CreateTx(e, db, id, terms, demo, now).Ok?
    ensures Trails(e, CreateTx(e, db, id, terms, demo, now).value)
  {
    hide Trail, CreateTx, Posted, Balanced, MarketsKept, RefsKnown, KeysAnswered, Allowed, SlotTaken, ValidRule;
    var next := CreateTx(e, db, id, terms, demo, now).value;
    CreateIsCreated(e, db, id, terms, demo, now);
    NewTrail(e, db, id, terms, next);
    var funding := e.funding(terms.liquidity, OutcomeCount(terms.rule)).value;
    var withAccount := Books(db.books.balances[Reserve(id) := 0], db.books.ledger);
    var t := Transfer(Treasury, Reserve(id), funding, Subsidy(id));
    AllowedAccounts(withAccount, t);
    PostedKeys(withAccount, t);
    forall i | i in next.markets
      ensures Reserve(i) in next.books.balances && Trail(e, next.books.ledger, next.markets[i], i, next.books.balances[Reserve(i)])
    {
      if i != id {
        PostKeepsTrail(e, withAccount, t, db.markets[i], i);
      }
    }
  }

  lemma TradedTrail(e: Engine, db: Db, c: QuoteClaims, deal: Deal, now: int, next: Db)
    requires Trails(e, db) && c.market in db.markets && c.outcome < Outcomes(db.markets[c.market].row)
    requires Committed(db, next, c, deal, now) && !Terminal(db.markets[c.market].row)
    ensures Reserve(c.market) in next.books.balances
    ensures Trail(e, next.books.ledger, next.markets[c.market], c.market, next.books.balances[Reserve(c.market)])
  {
    hide Affordable, Used, ClosingRows, ClosingOf, TradedMarket, ClaimsRecorded;
    var mk, t := db.markets[c.market], TradeTransfer(c, deal, db.markets[c.market].row.version + 1);
    ClosingAppend(db.books.ledger, t, c.market);
    MoreTraded(mk, c, deal, now);
    StillRecorded(db.books.ledger, t, mk, next.markets[c.market], c.market);
  }

  lemma MoreTraded(mk: Market, c: QuoteClaims, deal: Deal, now: int)
    requires c.outcome < Outcomes(mk.row)
    ensures var next := TradedMarket(mk, c, deal, now);
            && Flow(next.trades) == Flow(mk.trades) + Signed(c.side, deal.total)
            && next.claims == mk.claims && next.row.terms == mk.row.terms && (Terminal(next.row) <==> Terminal(mk.row))
  {
    hide Holding;
    var trades := TradedMarket(mk, c, deal, now).trades;
    assert trades[..|trades| - 1] == mk.trades;
  }

  lemma StillRecorded(ledger: seq<Transfer>, t: Transfer, mk: Market, next: Market, id: MarketId)
    requires ClaimsRecorded(ledger, mk, id) && next.claims == mk.claims
    ensures ClaimsRecorded(ledger + [t], next, id)
  {}

  lemma CommitKeepsTrails(e: Engine, db: Db, c: QuoteClaims, deal: Deal, now: int, next: Db)
    requires Trails(e, db) && c.market in db.markets && c.outcome < Outcomes(db.markets[c.market].row)
    requires Committed(db, next, c, deal, now) && !Terminal(db.markets[c.market].row)
    ensures Trails(e, next)
  {
    hide Trail, Affordable, Allowed, Posted, TradedMarket;
    TradedTrail(e, db, c, deal, now, next);
    var t := TradeTransfer(c, deal, db.markets[c.market].row.version + 1);
    AllowedAccounts(db.books, t);
    PostedKeys(db.books, t);
    forall i | i in next.markets
      ensures Reserve(i) in next.books.balances && Trail(e, next.books.ledger, next.markets[i], i, next.books.balances[Reserve(i)])
    {
      if i != c.market {
        PostKeepsTrail(e, db.books, t, db.markets[i], i);
      }
    }
  }

  lemma TradeKeepsTrails(e: Engine, db: Db, clock: int, user: UserId, key: string, request: TradeRequest, now: int)
    requires SoundEngine(e) && Inv(e, db, clock) && Trails(e, db) && Apply(e, db, TradeOp(user, key, request), now).Ok?
    ensures Trails(e, Apply(e, db, TradeOp(user, key, request), now).value)
  {
    hide SoundEngine, Inv, Trails, CommitTrade, Recheck, SoundDeal, ParseMicros, Committed;
    var c, limit := request.claims, ParseMicros(request.limit).value;
    if (c.user, key) in db.keys && db.keys[(c.user, key)].response.Some? {
    } else {
      var mk := db.markets[c.market];
      RecheckedDeal(e, mk.row, c, limit, now);
      var deal := Recheck(e, mk.row, c, limit, now).value;
      CommitIsCommitted(db, key, request, deal, now);
      CommitKeepsTrails(e, db, c, deal, now, CommitTrade(db, key, request, deal, now).value.0);
    }
  }

  // ---- Settlement ------------------------------------------------------------------------------------------

  ghost predicate SettlingTrail(e: Engine, s: Settling, id: MarketId) {
    && Reserve(id) in s.books.balances && !Terminal(s.market.row)
    && Trail(e, s.books.ledger, s.market, id, s.books.balances[Reserve(id)])
  }

  lemma ClaimKeepsTrail(e: Engine, s: Settling, id: MarketId, user: UserId)
    requires SettlingTrail(e, s, id) && PayClaim(s, id, user).Ok?
    ensures SettlingTrail(e, PayClaim(s, id, user).value, id)
  {
    hide Credit, Holding, Used, ClosingRows, ClosingOf, ClaimsRecorded, SumOf, Flow;
    var credit := Credit(s.market.row.result.value, Outcomes(s.market.row), Holding(s.market, user));
    ClosingAppend(s.books.ledger, ClaimRow(id, user, credit), id);
    SumPut(s.market.claims, user, credit);
    OneMoreRecorded(s.books.ledger, s.market, id, user, credit);
  }

  lemma OneMoreRecorded(ledger: seq<Transfer>, mk: Market, id: MarketId, user: UserId, credit: int)
    requires ClaimsRecorded(ledger, mk, id)
    ensures ClaimsRecorded(ledger + [ClaimRow(id, user, credit)], mk.(claims := mk.claims[user := credit]), id)
  {
    var more := ledger + [ClaimRow(id, user, credit)];
    assert more[|ledger|] == ClaimRow(id, user, credit);
  }

  /** Other markets do not notice a posting out of this reserve. */
  ghost predicate OthersSame(e: Engine, markets: map<MarketId, Market>, b: Books, id: MarketId) {
    forall i :: i in markets && i != id ==>
      Reserve(i) in b.balances && Trail(e, b.ledger, markets[i], i, b.balances[Reserve(i)])
  }

  lemma PostKeepsOthers(e: Engine, markets: map<MarketId, Market>, b: Books, id: MarketId, t: Transfer)
    requires OthersSame(e, markets, b, id) && Post(b, t).Ok? && t.from == Reserve(id)
    requires !t.to.Reserve? && (forall i :: i != id ==> !ClosingRef(t.ref, i))
    ensures OthersSame(e, markets, Post(b, t).value, id)
  {
    hide Trail, Allowed, Posted;
    AllowedAccounts(b, t);
    PostedKeys(b, t);
    forall i | i in markets && i != id
      ensures Reserve(i) in Posted(b, t).balances
           && Trail(e, Posted(b, t).ledger, markets[i], i, Posted(b, t).balances[Reserve(i)])
    {
      PostKeepsTrail(e, b, t, markets[i], i);
    }
  }

  lemma {:induction false} ClaimsKeepTrail(
      e: Engine, markets: map<MarketId, Market>, s: Settling, id: MarketId, batch: seq<UserId>
    )
    requires SettlingTrail(e, s, id) && OthersSame(e, markets, s.books, id) && PayClaims(s, id, batch).Ok?
    ensures var paid := PayClaims(s, id, batch).value;
            SettlingTrail(e, paid, id) && OthersSame(e, markets, paid.books, id)
  {
    hide SettlingTrail, OthersSame, Credit, Holding, Allowed, Posted;
    if batch != [] {
      var n := |batch| - 1;
      ClaimsKeepTrail(e, markets, s, id, batch[..n]);
      var before := PayClaims(s, id, batch[..n]).value;
      ClaimKeepsTrail(e, before, id, batch[n]);
      var credit := Credit(before.market.row.result.value, Outcomes(before.market.row), Holding(before.market, batch[n]));
      PostKeepsOthers(e, markets, before.books, id, ClaimRow(id, batch[n], credit));
    }
  }

  lemma DrainKeepsOthers(e: Engine, markets: map<MarketId, Market>, b: Books, mk: Market, id: MarketId)
    requires OthersSame(e, markets, b, id) && Drain(b, mk, id).Ok?
    ensures OthersSame(e, markets, Drain(b, mk, id).value, id)
  {
    hide OthersSame, Allowed, Posted;
    var creator, fees, cut := mk.row.terms.creator, Fees(mk.trades), CreatorCut(mk);
    var t1 := Transfer(Reserve(id), Treasury, Reserved(b, id) - fees, Release(id));
    PostKeepsOthers(e, markets, b, id, t1);
    var b1 := Post(b, t1).value;
    var t2 := Transfer(Reserve(id), Treasury, fees - cut, FeeToTreasury(id));
    if fees - cut > 0 {
      PostKeepsOthers(e, markets, b1, id, t2);
    }
    var b2 := PostIf(b1, fees - cut > 0, t2).value;
    if creator.Some? && cut > 0 {
      PostKeepsOthers(e, markets, b2, id, Transfer(Reserve(id), User(creator.value), cut, FeeToCreator(id)));
    }
  }

  lemma PostIfAppends(b: Books, condition: bool, t: Transfer, id: MarketId)
    requires PostIf(b, condition, t).Ok? && ClosingRef(t.ref, id)
    ensures var next := PostIf(b, condition, t).value;
            && b.ledger <= next.ledger && ClosingOf(next.ledger, id) == ClosingOf(b.ledger, id) + RowIf(condition, t)
  {
    ClosingAppend(b.ledger, t, id);
  }

  /** The closing transfers are the closing rows. */
  lemma DrainIsClosing(e: Engine, s: Settling, id: MarketId)
    requires SettlingTrail(e, s, id) && Drain(s.books, s.market, id).Ok?
    ensures var b := Drain(s.books, s.market, id).value;
            s.books.ledger <= b.ledger && ClosingOf(b.ledger, id) == ClosingRows(e, s.market, id)
  {
    hide Allowed, Posted, ClosingOf, ClaimsRecorded;
    var b, mk := s.books, s.market;
    var creator, fees, cut := mk.row.terms.creator, Fees(mk.trades), CreatorCut(mk);
    var t1 := Transfer(Reserve(id), Treasury, Reserved(b, id) - fees, Release(id));
    PostIfAppends(b, true, t1, id);
    var b1 := Post(b, t1).value;
    var t2 := Transfer(Reserve(id), Treasury, fees - cut, FeeToTreasury(id));
    PostIfAppends(b1, fees - cut > 0, t2, id);
    var b2 := PostIf(b1, fees - cut > 0, t2).value;
    PostIfAppends(b2, creator.Some? && cut > 0,
                  Transfer(Reserve(id), User(if creator.Some? then creator.value else 0), cut, FeeToCreator(id)), id);
  }

  lemma CloseOutTrail(e: Engine, markets: map<MarketId, Market>, s: Settling, id: MarketId)
    requires SettlingTrail(e, s, id) && OthersSame(e, markets, s.books, id) && CloseOut(s, id).Ok?
    ensures var done := CloseOut(s, id).value;
            && OthersSame(e, markets, done.books, id)
            && (Reserve(id) in done.books.balances ==>
                  Trail(e, done.books.ledger, done.market, id, done.books.balances[Reserve(id)]))
  {
    hide OthersSame, Drain, ClosingOf;
    if Unclaimed(s.market) == {} {
      DrainIsClosing(e, s, id);
      DrainKeepsOthers(e, markets, s.books, s.market, id);
      assert ClosingRows(e, TerminalMarket(s.market), id) == ClosingRows(e, s.market, id);
    }
  }

  lemma SettleKeepsTrails(e: Engine, db: Db, clock: int, id: MarketId, batch: seq<UserId>, now: int)
    requires Inv(e, db, clock) && Trails(e, db) && SettleTx(db, id, batch, now).Ok?
    ensures Trails(e, SettleTx(db, id, batch, now).value)
  {
    hide Inv, Trail, PayClaims, CloseOut, SettlingTrail, FinalResult;
    var mk := Finalize(db.markets[id], now);
    if mk.row.phase == Resolving {
      SameMarketTrail(e, db.books.ledger, db.markets[id], mk, id, db.books.balances[Reserve(id)]);
      var start := Settling(db.books, mk);
      StartsTrail(e, start, id);
      ClaimsKeepTrail(e, db.markets, start, id, batch);
      var paid := PayClaims(start, id, batch).value;
      CloseOutTrail(e, db.markets, paid, id);
      SettleEvolves(e, db, clock, id, batch, now);
    }
  }

  lemma StartsTrail(e: Engine, s: Settling, id: MarketId)
    requires Reserve(id) in s.books.balances && s.market.row.phase == Resolving
    requires Trail(e, s.books.ledger, s.market, id, s.books.balances[Reserve(id)])
    ensures SettlingTrail(e, s, id)
  {}

  // ---- Over runs ---------------------------------------------------------------------------------------------

  lemma ApplyKeepsTrails(e: Engine, db: Db, clock: int, op: Op, now: int)
    requires SoundEngine(e) && Inv(e, db, clock) && Trails(e, db) && Apply(e, db, op, now).Ok?
    ensures Trails(e, Apply(e, db, op, now).value)
  {
    hide SoundEngine, Inv, Trails, GrantTx, CreateTx, ExecuteTx, SettleTx, SuspendTx, ObserveTx, CreatorTx,
         ResolverTx, CloseTx, PurgeTx;
    if RowsOnly(op) {
      RowOpsKeepTrails(e, db, op, now);
    } else {
      match op
      case GrantOp(user, name, amount) => GrantKeepsTrails(e, db, user, name, amount);
      case CreateOp(id, terms, demo) => CreateKeepsTrails(e, db, clock, id, terms, demo, now);
      case TradeOp(user, key, request) => TradeKeepsTrails(e, db, clock, user, key, request, now);
      case SettleOp(id, batch) => SettleKeepsTrails(e, db, clock, id, batch, now);
    }
  }

  lemma {:induction false} RunKeepsTrails(e: Engine, steps: seq<Step>)
    requires SoundEngine(e) && LegalRun(e, Genesis(), steps)
    ensures Trails(e, Run(e, Genesis(), steps).db)
  {
    hide SoundEngine, LegalRun, Inv, Apply, Audited, Trails, Genesis, LegalStep;
    if steps == [] {
      NoTrails(e);
    } else {
      var n := |steps| - 1;
      PrefixIsLegal(e, Genesis(), steps, n);
      RunKeepsTrails(e, steps[..n]);
      GenesisIsSound(e);
      RunKeepsInv(e, Genesis(), steps[..n]);
      var before := Run(e, Genesis(), steps[..n]);
      if Apply(e, before.db, steps[n].op, steps[n].now).Ok? {
        ApplyKeepsTrails(e, before.db, before.clock, steps[n].op, steps[n].now);
      }
    }
  }

  lemma NoTrails(e: Engine)
    ensures Trails(e, Genesis().db)
  {}

  lemma ReachableTrail(e: Engine, s: State, id: MarketId)
    requires SoundEngine(e) && Reachable(e, s) && id in s.db.markets
    ensures Reserve(id) in s.db.books.balances
    ensures Trail(e, s.db.books.ledger, s.db.markets[id], id, s.db.books.balances[Reserve(id)])
  {
    hide SoundEngine, LegalRun, Run, Trail;
    var steps :| LegalRun(e, Genesis(), steps) && Run(e, Genesis(), steps) == s;
    RunKeepsTrails(e, steps);
  }

  /** At every point of every run, the reserve of a market that is not yet terminal holds exactly its
      funding and what its traders paid in, less the claims paid so far. */
  lemma ReserveIsConserved(e: Engine, s: State, id: MarketId)
    requires SoundEngine(e) && Reachable(e, s) && id in s.db.markets && !Terminal(s.db.markets[id].row)
    ensures var mk := s.db.markets[id];
            Reserved(s.db.books, id) == FundingOf(e, mk.row.terms) + Flow(mk.trades) - SumOf(mk.claims)
    ensures ClosingOf(s.db.books.ledger, id) == []
  {
    hide SoundEngine, Reachable;
    ReachableTrail(e, s, id);
  }

  /** However a market came to be terminal, in whatever interleaving with everything else: its ledger
      rows are a claim for each holder of shares, of what its position and the result give, and the
      closing rows; and there are no others. */
  lemma TerminalDistribution(e: Engine, s: State, id: MarketId)
    requires SoundEngine(e) && Reachable(e, s) && id in s.db.markets && Terminal(s.db.markets[id].row)
    ensures s.db.markets[id].row.result.Some?
    ensures var mk := s.db.markets[id];
            && ClosingOf(s.db.books.ledger, id) == ClosingRows(e, mk, id)
            && PaysHolders(mk)
            && (forall t, u :: t in s.db.books.ledger && t.ref == Claim(id, u) ==>
                  u in mk.claims && t == ClaimRow(id, u, mk.claims[u]))
            && (forall u :: u in mk.claims ==> ClaimRow(id, u, mk.claims[u]) in s.db.books.ledger)
            && mk.claims == HolderCredits(mk)
  {
    hide SoundEngine, Reachable, HolderCredits, PaysHolders, ClosingOf, ClosingRows, Inv, Audited;
    ReachableTrail(e, s, id);
    TerminalClaimsAreCredits(e, s, id);
    ReachableIsSound(e, s);
    var mk := s.db.markets[id];
    forall t, u | t in s.db.books.ledger && t.ref == Claim(id, u)
      ensures u in mk.claims && t == ClaimRow(id, u, mk.claims[u])
    {
      OneClaimRow(e, s.db, s.clock, id, u, t);
    }
  }

  lemma OneClaimRow(e: Engine, db: Db, clock: int, id: MarketId, u: UserId, t: Transfer)
    requires Inv(e, db, clock) && id in db.markets && ClaimsRecorded(db.books.ledger, db.markets[id], id)
    requires t in db.books.ledger && t.ref == Claim(id, u)
    ensures u in db.markets[id].claims && t == ClaimRow(id, u, db.markets[id].claims[u])
  {
    hide MarketsKept, KeysAnswered;
    var i :| 0 <= i < |db.books.ledger| && db.books.ledger[i] == t;
    assert RefKnown(db, db.books.ledger[i].ref);
    var j :| 0 <= j < |db.books.ledger| && db.books.ledger[j] == ClaimRow(id, u, db.markets[id].claims[u]);
    assert i == j;
  }
}
