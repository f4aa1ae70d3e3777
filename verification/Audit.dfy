/** What holds at every point of every run of the exchange. */
module Audit {
  import opened Wrappers
  import opened PricingEngine
  import opened MapSum
  import opened Books
  import opened Rules
  import opened Exchange
  import opened Invariant
  import opened Preservation
  import opened Settlement
  import opened Transactions
  import opened Evolution
  import opened Runs

  const UNIT := 1_000_000
  const INITIAL_ISSUANCE := 1_000_000 * UNIT
  const TOTAL_ISSUANCE := 1_000_000_000 * UNIT

  // ---- The first state ------------------------------------------------------------------------------

  function FirstIssue(): Books {
    Posted(Books(map[Issuance := 0, Treasury := 0], []), Transfer(Issuance, Treasury, INITIAL_ISSUANCE, InitialIssuance))
  }

  function Issued(): Books {
    Posted(FirstIssue(), Transfer(Issuance, Treasury, TOTAL_ISSUANCE - INITIAL_ISSUANCE, IssuanceExpansion))
  }

  function Genesis(): State {
    State(Db(Issued(), map[], map[], map[]), 0)
  }

  lemma IssuedIsBalanced()
    ensures Balanced(Issued())
    ensures Net(Issued().ledger, Issuance) == -TOTAL_ISSUANCE
  {
    var empty := Books(map[Issuance := 0, Treasury := 0], []);
    SumOfZeros(empty.balances);
    var t1 := Transfer(Issuance, Treasury, INITIAL_ISSUANCE, InitialIssuance);
    var t2 := Transfer(Issuance, Treasury, TOTAL_ISSUANCE - INITIAL_ISSUANCE, IssuanceExpansion);
    PostKeepsBalanced(empty, t1);
    PostKeepsBalanced(FirstIssue(), t2);
    assert [t1, t2][..1] == [t1] && [t1][..0] == [];
    assert Issued().ledger == [t1, t2];
  }

  // ---- What the ledger shows ------------------------------------------------------------------------

  function About(r: Ref): Option<MarketId> {
    match r
    case Subsidy(i) => Some(i)
    case TradeOf(i, _) => Some(i)
    case Claim(i, _) => Some(i)
    case Release(i) => Some(i)
    case FeeToTreasury(i) => Some(i)
    case FeeToCreator(i) => Some(i)
    case _ => None
  }

  /** What the platform gained (or lost) on one market. */
  function TreasuryNet(ledger: seq<Transfer>, id: MarketId): int {
    if ledger == [] then 0
    else
      var last := ledger[|ledger| - 1];
      TreasuryNet(ledger[..|ledger| - 1], id) + (if About(last.ref) == Some(id) then Entry(last, Treasury) else 0)
  }

  ghost predicate LossWithinFunding(e: Engine, db: Db) {
    forall i :: i in db.markets ==>
      var terms := db.markets[i].row.terms;
      var funding := e.funding(terms.liquidity, OutcomeCount(terms.rule));
      funding.Ok? && -funding.value <= TreasuryNet(db.books.ledger, i)
  }

  /** Every idempotency row stands for one trade of the ledger, and every trade for one row. */
  ghost predicate KeysMatchTrades(db: Db) {
    && |db.keys| == TradeCount(db.books.ledger)
    && KeysHaveTrades(db.books.ledger, db.keys)
    && KeysDistinct(db.keys)
    && TradesHaveKeys(db.books.ledger, db.keys)
  }

  ghost predicate KeysHaveTrades(ledger: seq<Transfer>, keys: map<(UserId, string), KeyRow>) {
    forall k :: k in keys ==> keys[k].response.Some? && Used(ledger, KeyRef(keys[k]))
  }

  ghost predicate KeysDistinct(keys: map<(UserId, string), KeyRow>) {
    forall k, l :: k in keys && l in keys && k != l ==> KeyRef(keys[k]) != KeyRef(keys[l])
  }

  ghost predicate TradesHaveKeys(ledger: seq<Transfer>, keys: map<(UserId, string), KeyRow>) {
    forall i :: 0 <= i < |ledger| && ledger[i].ref.TradeOf? ==> HasKey(keys, ledger[i].ref)
  }

  ghost predicate HasKey(keys: map<(UserId, string), KeyRow>, r: Ref) {
    exists k :: k in keys && KeyRef(keys[k]) == r
  }

  /** A ledger that gained no trade gained no trade reference. */
  lemma {:induction false} NoTradesAdded(b: seq<Transfer>, n: seq<Transfer>)
    requires b <= n
    ensures TradeCount(b) <= TradeCount(n)
    ensures TradeCount(b) == TradeCount(n) ==> forall i :: |b| <= i < |n| ==> !n[i].ref.TradeOf?
  {
    if |b| < |n| {
      NoTradesAdded(b, n[..|n| - 1]);
    } else {
      assert b == n;
    }
  }

  lemma TradesKeepKeys(b: seq<Transfer>, n: seq<Transfer>, keys: map<(UserId, string), KeyRow>)
    requires b <= n && TradeCount(b) == TradeCount(n) && TradesHaveKeys(b, keys)
    ensures TradesHaveKeys(n, keys)
  {
    hide TradeCount, HasKey;
    NoTradesAdded(b, n);
  }

  lemma NewTradeHasKey(
      b: seq<Transfer>, t: Transfer, keys: map<(UserId, string), KeyRow>, k: (UserId, string), row: KeyRow
    )
    requires TradesHaveKeys(b, keys) && k !in keys && KeyRef(row) == t.ref
    ensures TradesHaveKeys(b + [t], keys[k := row])
  {
    hide KeyRef;
    var next := keys[k := row];
    forall i | 0 <= i < |b| + 1 && (b + [t])[i].ref.TradeOf? ensures HasKey(next, (b + [t])[i].ref) {
      if i < |b| {
        assert HasKey(keys, b[i].ref);
        var j :| j in keys && KeyRef(keys[j]) == b[i].ref;
        assert j in next && next[j] == keys[j];
      } else {
        assert k in next && KeyRef(next[k]) == t.ref;
      }
    }
  }

  function KeyRef(row: KeyRow): Ref {
    match row.response
    case Some(r) => TradeOf(r.market, r.version)
    case None => InitialIssuance
  }

  ghost predicate Audited(e: Engine, db: Db) {
    && Net(db.books.ledger, Issuance) == -TOTAL_ISSUANCE
    && (forall k :: 0 <= k < |db.books.ledger| ==> Shaped(db.books.ledger[k]))
    && KeysMatchTrades(db)
    && LossWithinFunding(e, db)
  }

  lemma {:induction false} NothingIssued(b: seq<Transfer>, n: seq<Transfer>, known: set<MarketId>)
    requires Continues(b, n, known)
    ensures Net(n, Issuance) == Net(b, Issuance)
  {
    if b == n {
    } else {
      assert Continues(b, n[..|n| - 1], known);
      NothingIssued(b, n[..|n| - 1], known);
      assert Entry(n[|n| - 1], Issuance) == 0;
    }
  }

  lemma {:induction false} TreasuryOnlyGains(b: seq<Transfer>, n: seq<Transfer>, known: set<MarketId>, id: MarketId)
    requires Continues(b, n, known) && id in known
    ensures TreasuryNet(b, id) <= TreasuryNet(n, id)
  {
    if b == n {
    } else {
      assert Continues(b, n[..|n| - 1], known);
      TreasuryOnlyGains(b, n[..|n| - 1], known, id);
      assert About(n[|n| - 1].ref) == Some(id) ==> 0 <= Entry(n[|n| - 1], Treasury);
    }
  }

  lemma {:induction false} NothingAbout(ledger: seq<Transfer>, id: MarketId)
    requires forall k :: 0 <= k < |ledger| ==> About(ledger[k].ref) != Some(id)
    ensures TreasuryNet(ledger, id) == 0
  {
    if ledger != [] {
      NothingAbout(ledger[..|ledger| - 1], id);
    }
  }

  // ---- One transaction keeps the audit --------------------------------------------------------------

  /** What a transaction other than a trade or a creation keeps. */
  ghost predicate BooksAndKeys(db: Db, next: Db) {
    && BooksContinue(db.books, next.books, db.markets.Keys)
    && next.keys == db.keys
    && next.markets.Keys <= db.markets.Keys
    && forall i :: i in next.markets ==> next.markets[i].row.terms == db.markets[i].row.terms
  }

  lemma ContinuationKeepsAudit(e: Engine, db: Db, next: Db)
    requires Audited(e, db) && BooksAndKeys(db, next)
    ensures Audited(e, next)
  {
    var b, n := db.books.ledger, next.books.ledger;
    NothingIssued(b, n, db.markets.Keys);
    forall i | i in next.markets ensures TreasuryNet(b, i) <= TreasuryNet(n, i) {
      TreasuryOnlyGains(b, n, db.markets.Keys, i);
    }
    forall k | k in next.keys ensures Used(n, KeyRef(next.keys[k])) {
      UsedStays(b, n, KeyRef(next.keys[k]));
    }
    TradesKeepKeys(b, n, next.keys);
  }

  lemma UsedStays(b: seq<Transfer>, n: seq<Transfer>, r: Ref)
    requires b <= n && Used(b, r)
    ensures Used(n, r)
  {
    var k :| 0 <= k < |b| && b[k].ref == r;
    assert n[k].ref == r;
  }

  lemma SameBooks(db: Db, next: Db)
    requires next.books == db.books && next.keys == db.keys && next.markets.Keys <= db.markets.Keys
    requires forall i :: i in next.markets ==> next.markets[i].row.terms == db.markets[i].row.terms
    ensures BooksAndKeys(db, next)
  {}

  lemma GrantContinues(db: Db, user: UserId, name: string, amount: int)
    requires GrantTx(db, user, name, amount).Ok?
    ensures BooksAndKeys(db, GrantTx(db, user, name, amount).value)
  {
    hide Allowed, Posted;
    var b := OpenAccount(db.books, User(user)).value;
    var t := Transfer(Treasury, User(user), amount, Grant(user));
    AllowedIsNonnegative(b, t);
    PostContinues(b, t, db.markets.Keys);
  }

  lemma CreateKeepsAudit(e: Engine, db: Db, clock: int, id: MarketId, terms: Terms, demo: bool, now: int)
    requires Inv(e, db, clock) && Audited(e, db) && CreateTx(e, db, id, terms, demo, now).Ok?
    ensures Audited(e, CreateTx(e, db, id, terms, demo, now).value)
  {
    hide Allowed, Posted, Inv, SlotTaken, CreateTx, ValidRule, Audited, LossWithinFunding;
    CreateIsCreated(e, db, id, terms, demo, now);
    var next := CreateTx(e, db, id, terms, demo, now).value;
    var funding := e.funding(terms.liquidity, OutcomeCount(terms.rule)).value;
    var b := OpenAccount(db.books, Reserve(id)).value;
    var t := Transfer(Treasury, Reserve(id), funding, Subsidy(id));
    AllowedIsNonnegative(b, t);
    PostContinues(b, t, db.markets.Keys);
    ContinuationKeepsAudit(e, db, db.(books := next.books));
    PostAppends(b, t);
    NewMarketLoss(e, db, clock, id, t);
    NewMarketAudited(e, db, next, id, funding);
  }

  lemma NewMarketAudited(e: Engine, db: Db, next: Db, id: MarketId, funding: int)
    requires Audited(e, db.(books := next.books)) && next.keys == db.keys
    requires id in next.markets && next.markets == db.markets[id := next.markets[id]]
    requires var terms := next.markets[id].row.terms; e.funding(terms.liquidity, OutcomeCount(terms.rule)) == Ok(funding)
    requires TreasuryNet(next.books.ledger, id) == -funding
    ensures Audited(e, next)
  {
    hide TradeCount, Net, TreasuryNet;
  }

  lemma NewMarketLoss(e: Engine, db: Db, clock: int, id: MarketId, t: Transfer)
    requires Inv(e, db, clock) && Reserve(id) !in db.books.balances
    requires t.from == Treasury && t.to == Reserve(id) && t.ref == Subsidy(id)
    ensures TreasuryNet(db.books.ledger + [t], id) == -t.amount
  {
    hide Balanced, MarketsKept;
    forall k | 0 <= k < |db.books.ledger| ensures About(db.books.ledger[k].ref) != Some(id) {
      assert RefKnown(db, db.books.ledger[k].ref);
    }
    NothingAbout(db.books.ledger, id);
    assert (db.books.ledger + [t])[..|db.books.ledger|] == db.books.ledger;
  }

  lemma PostAppends(b: Books, t: Transfer)
    requires Post(b, t).Ok?
    ensures Post(b, t).value.ledger == b.ledger + [t] && !Used(b.ledger, t.ref)
  {}

  lemma TradeKeepsAudit(e: Engine, db: Db, clock: int, key: string, request: TradeRequest, limit: int, now: int)
    requires SoundEngine(e) && Inv(e, db, clock) && Audited(e, db)
    requires ExecuteOnce(e, db, key, request, limit, now).Ok?
    ensures Audited(e, ExecuteOnce(e, db, key, request, limit, now).value.0)
  {
    hide Inv, Audited, CommitTrade, Recheck, SoundDeal, SoundEngine;
    var c := request.claims;
    if (c.user, key) in db.keys {
      KeyAnswered(e, db, clock, (c.user, key));
    } else {
      var mk := db.markets[c.market];
      RecheckedDeal(e, mk.row, c, limit, now);
      CommitKeepsAudit(e, db, key, request, Recheck(e, mk.row, c, limit, now).value, now);
    }
  }

  lemma KeyAnswered(e: Engine, db: Db, clock: int, k: (UserId, string))
    requires Inv(e, db, clock) && k in db.keys
    ensures db.keys[k].response.Some?
  {}

  /** A new answered key whose reference is new in the ledger. */
  lemma NewKeyMatches(db: Db, next: Db, k: (UserId, string), row: KeyRow, t: Transfer)
    requires KeysMatchTrades(db) && k !in db.keys && row.response.Some? && KeyRef(row) == t.ref
    requires next.books.ledger == db.books.ledger + [t] && !Used(db.books.ledger, t.ref)
    requires next.keys == db.keys[k := row]
    requires TradeCount(next.books.ledger) == TradeCount(db.books.ledger) + 1
    ensures KeysMatchTrades(next)
  {
    hide KeyRef, TradeCount, Used, TradesHaveKeys, KeysHaveTrades, KeysDistinct;
    var b := db.books.ledger;
    NewTradeHasKey(b, t, db.keys, k, row);
    NewKeyHasTrade(b, t, db.keys, k, row);
    NewKeyIsDistinct(b, t, db.keys, k, row);
    assert next.keys.Keys == db.keys.Keys + {k};
  }

  lemma NewKeyHasTrade(
      b: seq<Transfer>, t: Transfer, keys: map<(UserId, string), KeyRow>, k: (UserId, string), row: KeyRow
    )
    requires KeysHaveTrades(b, keys) && row.response.Some? && KeyRef(row) == t.ref
    ensures KeysHaveTrades(b + [t], keys[k := row])
  {
    hide KeyRef, Used;
    LastIsUsed(b, t);
    forall j | j in keys ensures Used(b + [t], KeyRef(keys[j])) {
      UsedStays(b, b + [t], KeyRef(keys[j]));
    }
  }

  lemma NewKeyIsDistinct(
      b: seq<Transfer>, t: Transfer, keys: map<(UserId, string), KeyRow>, k: (UserId, string), row: KeyRow
    )
    requires KeysHaveTrades(b, keys) && KeysDistinct(keys) && k !in keys && KeyRef(row) == t.ref && !Used(b, t.ref)
    ensures KeysDistinct(keys[k := row])
  {
    hide KeyRef, Used;
    var next := keys[k := row];
    forall i, j | i in next && j in next && i != j ensures KeyRef(next[i]) != KeyRef(next[j]) {
      assert i != k ==> Used(b, KeyRef(keys[i]));
      assert j != k ==> Used(b, KeyRef(keys[j]));
    }
  }

  lemma LastIsUsed(b: seq<Transfer>, t: Transfer)
    ensures Used(b + [t], t.ref)
  {
    assert (b + [t])[|b|].ref == t.ref;
  }

  /** What one more transfer keeps of the audit, whatever happens to the keys. */
  lemma TransferKeepsLosses(e: Engine, db: Db, next: Db)
    requires LossWithinFunding(e, db) && Continues(db.books.ledger, next.books.ledger, db.markets.Keys)
    requires next.markets.Keys <= db.markets.Keys
    requires forall i :: i in next.markets ==> next.markets[i].row.terms == db.markets[i].row.terms
    ensures LossWithinFunding(e, next)
  {
    hide Continues;
    forall i | i in next.markets ensures TreasuryNet(db.books.ledger, i) <= TreasuryNet(next.books.ledger, i) {
      TreasuryOnlyGains(db.books.ledger, next.books.ledger, db.markets.Keys, i);
    }
  }

  lemma CommitKeepsAudit(e: Engine, db: Db, key: string, request: TradeRequest, deal: Deal, now: int)
    requires Audited(e, db) && (request.claims.user, key) !in db.keys
    requires request.claims.market in db.markets
    requires request.claims.outcome < Outcomes(db.markets[request.claims.market].row)
    requires CommitTrade(db, key, request, deal, now).Ok?
    ensures Audited(e, CommitTrade(db, key, request, deal, now).value.0)
  {
    hide Fund, Allowed, Posted, Used, KeysMatchTrades, LossWithinFunding, TradeCount, Net;
    var c, mk := request.claims, db.markets[request.claims.market];
    var next := CommitTrade(db, key, request, deal, now).value.0;
    var t := TradeTransfer(c, deal, mk.row.version + 1);
    AllowedIsNonnegative(db.books, t);
    PostContinues(db.books, t, db.markets.Keys);
    PostAppends(db.books, t);
    NothingIssued(db.books.ledger, next.books.ledger, db.markets.Keys);
    TransferKeepsLosses(e, db, next);
    CommitOnlyAddsKey(db, key, request, deal, now);
    NewKeyMatches(db, next, (c.user, key), next.keys[(c.user, key)], t);
  }

  /** Transactions that touch only market rows. */
  predicate RowsOnly(op: Op) {
    op.CloseOp? || op.SuspendOp? || op.ObserveOp? || op.CreatorOp? || op.ResolverOp? || op.PurgeOp?
  }

  lemma RowsOnlyKeepBooks(e: Engine, db: Db, op: Op, now: int)
    requires RowsOnly(op) && Apply(e, db, op, now).Ok?
    ensures BooksAndKeys(db, Apply(e, db, op, now).value)
  {
    hide SuspendTx, CreatorTx, ResolverTx, ObserveTx, GrantTx, CreateTx, SettleTx, ExecuteTx, BooksAndKeys,
         Purgeable, Due;
    var next := Apply(e, db, op, now).value;
    RowChangeKeepsTerms(e, db, op, now);
    SameBooks(db, next);
  }

  lemma RowChangeKeepsTerms(e: Engine, db: Db, op: Op, now: int)
    requires op.SuspendOp? || op.ObserveOp? || op.CreatorOp? || op.ResolverOp? ==> Apply(e, db, op, now).Ok?
    ensures op.SuspendOp? || op.ObserveOp? || op.CreatorOp? || op.ResolverOp? ==>
      var next := Apply(e, db, op, now).value;
      && op.market in db.markets && op.market in next.markets
      && next == WithMarket(db, op.market, next.markets[op.market])
      && next.markets[op.market].row.terms == db.markets[op.market].row.terms
  {
    hide Evaluate, InputBounded, HasRevision, HasSource, FindEvent, Latest, GrantTx, CreateTx, ExecuteTx,
         CloseTx, SettleTx, PurgeTx;
  }

  lemma ApplyKeepsAudit(e: Engine, db: Db, clock: int, op: Op, now: int)
    requires SoundEngine(e) && Inv(e, db, clock) && Audited(e, db) && Apply(e, db, op, now).Ok?
    ensures Audited(e, Apply(e, db, op, now).value)
  {
    hide Inv, SoundEngine, Audited, ExecuteOnce, GrantTx, CreateTx, SettleTx, CloseTx, SuspendTx, ObserveTx,
         CreatorTx, ResolverTx, PurgeTx, BooksAndKeys;
    var next := Apply(e, db, op, now).value;
    if RowsOnly(op) {
      RowsOnlyKeepBooks(e, db, op, now);
      ContinuationKeepsAudit(e, db, next);
    } else {
      match op
      case GrantOp(user, name, amount) =>
        GrantContinues(db, user, name, amount);
        ContinuationKeepsAudit(e, db, next);
      case CreateOp(id, terms, demo) => CreateKeepsAudit(e, db, clock, id, terms, demo, now);
      case TradeOp(user, key, request) =>
        TradeKeepsAudit(e, db, clock, key, request, ParseMicros(request.limit).value, now);
      case SettleOp(id, batch) =>
        SettleBooks(e, db, clock, id, batch, now);
        ContinuationKeepsAudit(e, db, next);
    }
  }

  lemma SettleBooks(e: Engine, db: Db, clock: int, id: MarketId, batch: seq<UserId>, now: int)
    requires Inv(e, db, clock) && SettleTx(db, id, batch, now).Ok?
    ensures BooksAndKeys(db, SettleTx(db, id, batch, now).value)
  {
    hide Inv, Finalize, PayClaims, CloseOut, BooksContinue, MarketOk;
    SettleEvolves(e, db, clock, id, batch, now);
    SettleNeedsMarket(db, id, batch, now);
  }
}
