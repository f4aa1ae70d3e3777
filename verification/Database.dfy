/** The store: its rows, changed in place by transactions. A transaction works on its own copy of
    the rows; committing writes them back, and abandoning it changes nothing. Every method is
    proved against the transaction function of the same purpose and keeps the invariant. */
module Database {
  import opened Wrappers
  import opened Amm
  import opened PricingEngine
  import opened Fee
  import opened Books
  import opened Rules
  import opened Exchange
  import opened Invariant
  import opened Preservation
  import opened Settlement
  import opened Transactions
  import opened Evolution
  import opened Runs
  import opened Audit
  import opened Theorems
  import opened Effects
  import Text

  class Transaction {
    var balances: map<AccountId, int>
    var ledger: seq<Transfer>
    var markets: map<MarketId, Market>
    var keys: map<(UserId, string), KeyRow>
    var templates: map<string, Category>

    function Accounts(): Books
      reads this
    {
      Books(balances, ledger)
    }

    function State(): Db
      reads this
    {
      Db(Accounts(), markets, keys, templates)
    }

    constructor (store: Store)
      ensures State() == store.State()
    {
      balances, ledger, markets := store.balances, store.ledger, store.markets;
      keys, templates := store.keys, store.templates;
    }

    /** One ledger row; the trigger moves both balances, and the constraints may refuse. */
    method Send(from: AccountId, to: AccountId, amount: int, ref: Ref) returns (ok: bool)
      modifies this
      ensures Post(old(Accounts()), Transfer(from, to, amount, ref))
           == if ok then Ok(Accounts()) else Err(Internal)
      ensures markets == old(markets) && keys == old(keys) && templates == old(templates)
    {
      var row := Transfer(from, to, amount, ref);
      if from !in balances || to !in balances || from == to || amount < 0 || Used(ledger, ref) {
        return false;
      }
      if from != Issuance && balances[from] < amount {
        return false;
      }
      balances := balances[from := balances[from] - amount];
      balances := balances[to := balances[to] + amount];
      ledger := ledger + [row];
      ok := true;
    }

    method Open(account: AccountId) returns (ok: bool)
      modifies this
      ensures OpenAccount(old(Accounts()), account) == if ok then Ok(Accounts()) else Err(Internal)
      ensures markets == old(markets) && keys == old(keys) && templates == old(templates)
    {
      ok := account !in balances;
      if ok {
        balances := balances[account := 0];
      }
    }

    /** A new account, the check of the treasury's budget, and the first transfer. */
    method OpenFunded(account: AccountId, amount: int, ref: Ref) returns (r: Result<()>)
      modifies this
      ensures r.Ok? ==> Exchange.OpenFunded(old(Accounts()), account, amount, ref) == Ok(Accounts())
      ensures r.Err? ==> Exchange.OpenFunded(old(Accounts()), account, amount, ref) == Err(r.error)
      ensures markets == old(markets) && keys == old(keys) && templates == old(templates)
    {
      hide Used;
      var opening := Open(account);
      if !opening {
        return Err(Internal);
      }
      if BalanceOf(Accounts(), Treasury) < amount {
        return Err(Conflict(BudgetExhausted));
      }
      var sent := Send(Treasury, account, amount, ref);
      r := if sent then Ok(()) else Err(Internal);
    }

    /** A template row, inserted unless there is one; `fits` says that it has the category. */
    method Template(template: string, category: Category) returns (fits: bool)
      modifies this
      ensures fits <==> (template in old(templates) ==> old(templates)[template] == category)
      ensures fits ==> templates == old(templates)[template := category]
      ensures Accounts() == old(Accounts()) && markets == old(markets) && keys == old(keys)
    {
      if template !in templates {
        templates := templates[template := category];
      }
      fits := templates[template] == category;
      assert fits ==> templates == old(templates)[template := category];
    }

    /** An update of an instance row and its event; the trigger demands the next version. */
    method Update(id: MarketId, row: Instance, kind: EventKind)
      requires id in markets
      modifies this
      ensures Accounts() == old(Accounts()) && keys == old(keys) && templates == old(templates)
      ensures markets == old(markets)[id := Announce(old(markets)[id], row, kind)]
    {
      var mk := markets[id];
      var version := mk.row.version + 1;
      markets := markets[id := mk.(row := row.(version := version), outbox := mk.outbox + [OutboxRow(version, kind)])];
    }

    /** The finalization step: the selected result, or the void at the deadline. */
    method FinalizeIfDue(id: MarketId, now: int)
      requires id in markets
      modifies this
      ensures Accounts() == old(Accounts()) && keys == old(keys) && templates == old(templates)
      ensures markets == old(markets)[id := Finalize(old(markets)[id], now)]
    {
      hide Latest, Announce;
      var row := markets[id].row;
      if row.phase == Closed && row.terms.finalizeAfter <= now {
        var latest := Latest(markets[id].evidence);
        var result: Resolution;
        if latest.Some? && latest.value.result.Some? {
          result := latest.value.result.value;
        } else if row.terms.deadline <= now {
          result := Void;
        } else {
          return;
        }
        Update(id, row.(phase := Resolving, result := Some(result)), ResolvingEvent);
      }
    }

    /** Closes up to a hundred due instances that are not locked. */
    method CloseSome(locked: set<MarketId>, now: int) returns (closed: set<MarketId>)
      modifies this
      ensures State() == CloseTx(old(State()), closed, now)
      ensures forall i :: i in closed ==> i in old(markets) && Due(old(markets)[i], now) && i !in locked
      ensures |closed| <= BATCH
      ensures |closed| < BATCH ==> forall i :: i in old(markets) && Due(old(markets)[i], now) && i !in locked ==> i in closed
    {
      hide CloseTx, Due;
      ghost var before := State();
      var due := set i | i in markets && Due(markets[i], now) && i !in locked;
      ghost var all := due;
      closed := {};
      ClosingNone(before, now);
      while due != {} && |closed| < BATCH
        invariant all == closed + due && closed * due == {} && |closed| <= BATCH
        invariant State() == CloseTx(before, closed, now)
        decreases due
      {
        var id :| id in due;
        ClosingOne(before, closed, id, now);
        Update(id, markets[id].row.(phase := Closed), ClosedEvent);
        due, closed := due - {id}, closed + {id};
      }
    }

    /** Deletes up to twenty purgeable instances. */
    method DeleteExpired(now: int) returns (purged: set<MarketId>)
      modifies this
      ensures Accounts() == old(Accounts()) && keys == old(keys) && templates == old(templates)
      ensures markets == PurgeTx(old(State()), purged, now).markets
      ensures forall i :: i in purged ==> i in old(markets) && Purgeable(old(State()), i, now)
      ensures |purged| <= 20
      ensures |purged| < 20 ==> forall i :: i in old(markets) && Purgeable(old(State()), i, now) ==> i in purged
    {
      hide PurgeTx, Purgeable;
      ghost var before := State();
      var expired := set i | i in markets && Purgeable(State(), i, now);
      ghost var all := expired;
      purged := {};
      PurgedRows(before, purged, now);
      while expired != {} && |purged| < 20
        invariant all == purged + expired && purged * expired == {} && |purged| <= 20
        invariant Accounts() == before.books && keys == before.keys && templates == before.templates
        invariant markets == PurgeTx(before, purged, now).markets
        decreases expired
      {
        var id :| id in expired;
        PurgingOne(before, purged, id, now);
        markets := markets - {id};
        expired, purged := expired - {id}, purged + {id};
      }
    }

    /** A new evidence row, selected as the instance's evidence. */
    method Record(id: MarketId, x: Evidence, selected: Option<EventKey>)
      requires id in markets
      modifies this
      ensures Accounts() == old(Accounts()) && keys == old(keys) && templates == old(templates)
      ensures markets == old(markets)[id := WithEvidence(old(markets)[id], x, selected)]
    {
      markets := markets[id := markets[id].(evidence := markets[id].evidence + [x])];
      Update(id, markets[id].row.(evidenceId := selected), EvidenceEvent);
    }

    /** The single statement that writes a trade: inventory and version, position, trade row,
        idempotent reply, and event. */
    method FinalizeTrade(key: string, request: TradeRequest, deal: Deal, owned: int, response: Response, now: int)
      requires request.claims.market in markets
      requires request.claims.outcome < Outcomes(markets[request.claims.market].row)
      requires owned == Holding(markets[request.claims.market], request.claims.user)[request.claims.outcome]
                        + Delta(request.claims.side, request.claims.quantity)
      modifies this
      ensures Accounts() == old(Accounts()) && templates == old(templates)
      ensures markets == old(markets)[request.claims.market :=
        TradedMarket(old(markets)[request.claims.market], request.claims, deal, now)]
      ensures keys == old(keys)[(request.claims.user, key) := KeyRow(request, Some(response))]
    {
      var c, mk := request.claims, markets[request.claims.market];
      var version := mk.row.version + 1;
      mk := mk.(row := mk.row.(inventory := deal.inventory, version := version));
      mk := mk.(positions := mk.positions[c.user := Holding(markets[c.market], c.user)[c.outcome := owned]]);
      mk := mk.(trades := mk.trades + [Trade(c.user, c.outcome, c.side, c.quantity, deal.total, deal.fee, version, now)]);
      mk := mk.(outbox := mk.outbox + [OutboxRow(version, TradeEvent)]);
      keys := keys[(c.user, key) := KeyRow(request, Some(response))];
      markets := markets[c.market := mk];
    }

    /** The checks on balances, holdings and reserve under the account locks, then every write. */
    method Book(key: string, request: TradeRequest, deal: Deal, now: int) returns (r: Result<Response>)
      requires request.claims.market in markets
      requires request.claims.outcome < Outcomes(markets[request.claims.market].row)
      modifies this
      ensures r.Ok? ==> CommitTrade(old(State()), key, request, deal, now) == Ok((State(), r.value))
      ensures r.Err? ==> CommitTrade(old(State()), key, request, deal, now) == Err(r.error)
    {
      hide HasShares, Used;
      var c, mk := request.claims, markets[request.claims.market];
      var buy := c.side == Buy;
      if User(c.user) !in balances || Reserve(c.market) !in balances {
        return Err(Internal);
      }
      var held := Holding(mk, c.user)[c.outcome];
      if buy && balances[User(c.user)] < deal.total {
        return Err(Conflict(InsufficientUnits));
      }
      if !buy && held < c.quantity {
        return Err(Conflict(NotEnoughShares));
      }
      var owned := held + (if buy then c.quantity else -c.quantity);
      var remaining := balances[Reserve(c.market)] + (if buy then deal.total else -deal.total);
      var liability := if deal.inventory == [] then 0 else Max(deal.inventory) * 1000;
      if remaining < liability {
        return Err(Conflict(ReserveCoverage));
      }
      var after := balances[User(c.user)] + (if buy then -deal.total else deal.total);
      var version := mk.row.version + 1;
      var from, to := User(c.user), Reserve(c.market);
      if !buy {
        from, to := to, from;
      }
      var sent := Send(from, to, deal.total, TradeOf(c.market, version));
      if !sent {
        return Err(Internal);
      }
      var response := Response(c.market, c.outcome, c.side, c.quantity, deal.total, deal.fee, after, owned, version, now);
      FinalizeTrade(key, request, deal, owned, response, now);
      r := Ok(response);
    }

    /** Pays one claim: one transfer and one claim row. */
    method Pay(id: MarketId, account: UserId) returns (r: Result<()>)
      requires id in markets
      modifies this
      ensures keys == old(keys) && templates == old(templates)
      ensures r.Ok? ==> id in markets && markets == old(markets)[id := markets[id]]
      ensures r.Ok? ==> PayClaim(old(AsSettling(State(), id)), id, account) == Ok(AsSettling(State(), id))
      ensures r.Err? ==> PayClaim(old(AsSettling(State(), id)), id, account) == Err(r.error)
      ensures r.Ok? ==>
        var mk := old(markets)[id];
        && mk.row.result.Some? && account in markets[id].claims
        && IsCredit(mk.row.result.value, Holding(mk, account), markets[id].claims[account])
    {
      hide Used, HasShares, IsCredit;
      var mk := markets[id];
      if mk.row.result.None? {
        return Err(Internal);
      }
      var quantities := Holding(mk, account);
      var credit := CreditOf(mk.row.result.value, quantities);
      if Reserved(Accounts(), id) < credit {
        return Err(Internal);
      }
      var paid := Send(Reserve(id), User(account), credit, Claim(id, account));
      if !paid || account in mk.claims {
        return Err(Internal);
      }
      markets := markets[id := mk.(claims := mk.claims[account := credit])];
      r := Ok(());
    }

    /** Pays the claims of the selected accounts, in their order. */
    method PayAll(id: MarketId, batch: seq<UserId>) returns (r: Result<()>)
      requires id in markets
      modifies this
      ensures keys == old(keys) && templates == old(templates)
      ensures r.Ok? ==> id in markets && markets == old(markets)[id := markets[id]]
      ensures r.Ok? ==> PayClaims(old(AsSettling(State(), id)), id, batch) == Ok(AsSettling(State(), id))
      ensures r.Err? ==> PayClaims(old(AsSettling(State(), id)), id, batch).Err?
    {
      hide PayClaim;
      var k := 0;
      while k < |batch|
        invariant 0 <= k <= |batch|
        invariant id in markets && markets == old(markets)[id := markets[id]]
        invariant keys == old(keys) && templates == old(templates)
        invariant PayClaims(old(AsSettling(State(), id)), id, batch[..k]) == Ok(AsSettling(State(), id))
      {
        assert batch[..k + 1][..k] == batch[..k];
        var paid := Pay(id, batch[k]);
        if paid.Err? {
          PaymentsFail(old(AsSettling(State(), id)), id, batch, k + 1);
          return Err(Internal);
        }
        k := k + 1;
      }
      assert batch[..k] == batch;
      r := Ok(());
    }

    /** The closing transfers and the terminal state. */
    method Close(id: MarketId) returns (r: Result<()>)
      requires id in markets
      modifies this
      ensures r.Ok? ==> markets == old(markets)[id := TerminalMarket(old(markets)[id])]
      ensures keys == old(keys) && templates == old(templates)
      ensures r.Ok? ==> Drain(old(Accounts()), old(markets)[id], id) == Ok(Accounts())
      ensures r.Err? ==> Drain(old(Accounts()), old(markets)[id], id).Err?
    {
      hide Post, CreatorShare, Fees;
      var mk := markets[id];
      var unused := Reserved(Accounts(), id);
      var fees := FeePot(mk.trades);
      var cut := CreatorShare(fees, mk.row.terms.creator.Some?);
      var ok := Send(Reserve(id), Treasury, unused - fees, Release(id));
      if !ok {
        return Err(Internal);
      }
      if fees - cut > 0 {
        ok := Send(Reserve(id), Treasury, fees - cut, FeeToTreasury(id));
        if !ok {
          return Err(Internal);
        }
      }
      if mk.row.terms.creator.Some? && cut > 0 {
        ok := Send(Reserve(id), User(mk.row.terms.creator.value), cut, FeeToCreator(id));
        if !ok {
          return Err(Internal);
        }
      }
      var phase := if mk.row.result == Some(Void) then Voided else Resolved;
      Update(id, mk.row.(phase := phase), TerminalEvent);
      r := Ok(());
    }
  }

  lemma {:induction false} PaymentsFail(s: Settling, id: MarketId, batch: seq<UserId>, k: nat)
    requires k <= |batch| && PayClaims(s, id, batch[..k]).Err?
    ensures PayClaims(s, id, batch).Err?
    decreases |batch| - k
  {
    if k < |batch| {
      assert batch[..k + 1][..k] == batch[..k];
      PaymentsFail(s, id, batch, k + 1);
    } else {
      assert batch[..k] == batch;
    }
  }

  /** The credit of one holder, summed over its position rows. */
  method CreditOf(result: Resolution, quantities: seq<int>) returns (credit: int)
    ensures credit == Credit(result, |quantities|, quantities)
    ensures IsCredit(result, quantities, credit)
  {
    CreditIsExact(result, quantities);
    var quantity, o := 0, 0;
    while o < |quantities|
      invariant 0 <= o <= |quantities|
      invariant quantity == match result
                            case Winner(w) => (if w < o then quantities[w] else 0)
                            case Void => Total(quantities[..o])
    {
      assert quantities[..o + 1][..o] == quantities[..o];
      if result.Void? || result.outcome == o {
        quantity := quantity + quantities[o];
      }
      o := o + 1;
    }
    assert quantities[..o] == quantities;
    match result
    case Winner(_) => credit := quantity * 1000;
    case Void => credit := if |quantities| == 0 then 0 else Quotient(quantity * 1000, |quantities|);
  }

  /** Every claim is of what its holder's position and the result give. */
  ghost predicate ClaimsAreCredits(mk: Market) {
    mk.row.result.Some? && forall u :: u in mk.claims ==>
      u in mk.positions && IsCredit(mk.row.result.value, mk.positions[u], mk.claims[u])
  }

  lemma KeptClaimsAreCredits(mk: Market)
    requires PositionsOk(mk) && ClaimsOk(mk) && mk.row.result.Some?
    ensures ClaimsAreCredits(mk)
  {
    hide Credit, IsCredit, HasShares;
    forall u | u in mk.claims ensures IsCredit(mk.row.result.value, mk.positions[u], mk.claims[u]) {
      CreditIsExact(mk.row.result.value, mk.positions[u]);
    }
  }

  lemma BatchIsClaimed(e: Engine, db: Db, clock: int, id: MarketId, batch: seq<UserId>, now: int)
    requires SoundEngine(e) && Inv(e, db, clock) && clock <= now && id in db.markets
    requires var mk := Finalize(db.markets[id], now); mk.row.phase == Resolving && ValidBatch(mk, batch)
    ensures SettleTx(db, id, batch, now).Ok?
    ensures var next := SettleTx(db, id, batch, now).value;
            && id in next.markets && next.markets[id].claims.Keys == db.markets[id].claims.Keys + Members(batch)
            && ClaimsAreCredits(next.markets[id])
  {
    hide Inv, SoundEngine, SettleTx, Members, ClaimsAreCredits, PositionsOk, ClaimsOk, FinalResult;
    SettleSucceeds(e, db, clock, id, batch, now);
    var next := SettleTx(db, id, batch, now).value;
    MarketIsKept(e, next, now, id);
    KeptClaimsAreCredits(next.markets[id]);
  }

  method FeePot(trades: seq<Trade>) returns (fees: int)
    ensures fees == Fees(trades)
  {
    fees := 0;
    for k := 0 to |trades|
      invariant fees == Fees(trades[..k])
    {
      assert trades[..k + 1][..k] == trades[..k];
      fees := fees + trades[k].fee;
    }
    assert trades[..|trades|] == trades;
  }

  // ---- One row at a time ------------------------------------------------------------------------------

  lemma ClosingNone(db: Db, now: int)
    ensures CloseTx(db, {}, now) == db
  {
    assert CloseTx(db, {}, now).markets == db.markets;
  }

  lemma ClosingOne(db: Db, closed: set<MarketId>, id: MarketId, now: int)
    requires id in db.markets && Due(db.markets[id], now) && id !in closed
    ensures id in CloseTx(db, closed, now).markets && CloseTx(db, closed, now).markets[id] == db.markets[id]
    ensures CloseTx(db, closed + {id}, now) == WithMarket(CloseTx(db, closed, now), id, ClosedMarket(db.markets[id]))
  {
    assert CloseTx(db, closed + {id}, now).markets == CloseTx(db, closed, now).markets[id := ClosedMarket(db.markets[id])];
  }

  lemma ClosedAreNotDue(db: Db, closed: set<MarketId>, now: int)
    ensures forall i :: i in CloseTx(db, closed, now).markets && Due(CloseTx(db, closed, now).markets[i], now) ==>
      i in db.markets && Due(db.markets[i], now) && i !in closed
  {}

  /** A purge deletes rows and nothing else. */
  lemma PurgedRows(db: Db, purged: set<MarketId>, now: int)
    ensures PurgeTx(db, purged, now) == db.(markets := PurgeTx(db, purged, now).markets)
    ensures PurgeTx(db, {}, now).markets == db.markets
  {}

  lemma PurgingOne(db: Db, purged: set<MarketId>, id: MarketId, now: int)
    requires id in db.markets && Purgeable(db, id, now)
    ensures PurgeTx(db, purged + {id}, now).markets == PurgeTx(db, purged, now).markets - {id}
  {
    assert PurgeTx(db, purged + {id}, now).markets == PurgeTx(db, purged, now).markets - {id};
  }

  lemma PurgedAreGone(db: Db, purged: set<MarketId>, now: int)
    ensures var next := PurgeTx(db, purged, now);
            && next.books == db.books && next.keys == db.keys
            && forall i :: i in next.markets && Purgeable(next, i, now) ==> i in db.markets && Purgeable(db, i, now) && i !in purged
  {}

  lemma SettleSteps(db: Db, id: MarketId, batch: seq<UserId>, now: int, s: Settling)
    requires id in db.markets && Finalize(db.markets[id], now).row.phase == Resolving
    requires Finalize(db.markets[id], now).row.result.Some?
    requires PayClaims(Settling(db.books, Finalize(db.markets[id], now)), id, batch) == Ok(s)
    ensures SettleTx(db, id, batch, now) == match CloseOut(s, id)
                                            case Ok(done) => Ok(WithSettling(db, id, done))
                                            case Err(error) => Err(error)
  {
    hide PayClaims, CloseOut, Finalize;
  }

  /** What is checked of a trade request before its first attempt. */
  predicate WellFormed(user: UserId, key: string, request: TradeRequest) {
    && KeyWellFormed(key) && request.claims.user == user && request.claims.engine == ENGINE_VERSION
    && ParseMicros(request.limit).Ok?
  }

  /** The state in which attempt `k` is made, the earlier ones having changed nothing. */
  function Before(e: Engine, rivals: (nat, State) -> seq<Step>, s: State, k: nat): State {
    var previous := if k == 0 then s else Before(e, rivals, s, k - 1);
    Run(e, previous, rivals(k, previous))
  }

  class Store {
    const engine: Engine
    var balances: map<AccountId, int>
    var ledger: seq<Transfer>
    var markets: map<MarketId, Market>
    var keys: map<(UserId, string), KeyRow>
    var templates: map<string, Category>
    var clock: int

    function State(): Db
      reads this
    {
      Db(Books(balances, ledger), markets, keys, templates)
    }

    ghost predicate Valid()
      reads this
    {
      SoundEngine(engine) && Inv(engine, State(), clock)
    }

    /** A new database: the two system accounts and the two issuance transfers. */
    constructor (engine: Engine)
      requires SoundEngine(engine)
      ensures this.engine == engine && State() == Genesis().db && clock == 0 && Valid()
    {
      this.engine := engine;
      balances := map[Issuance := 0, Treasury := 0];
      ledger, markets, keys, templates, clock := [], map[], map[], map[], 0;
      new;
      var tx := new Transaction(this);
      var issued := tx.Send(Issuance, Treasury, INITIAL_ISSUANCE, InitialIssuance);
      issued := tx.Send(Issuance, Treasury, TOTAL_ISSUANCE - INITIAL_ISSUANCE, IssuanceExpansion);
      Commit(tx, 0);
      GenesisIsSound(engine);
    }

    method Commit(tx: Transaction, now: int)
      modifies this
      ensures State() == tx.State() && clock == now
    {
      balances, ledger, markets := tx.balances, tx.ledger, tx.markets;
      keys, templates, clock := tx.keys, tx.templates, now;
    }

    /** What other transactions do meanwhile. */
    method Absorb(steps: seq<Step>, at: int)
      requires Valid() && clock <= at && LegalRun(engine, Runs.State(State(), at), steps)
      modifies this
      ensures Valid() && Runs.State(State(), clock) == Run(engine, Runs.State(old(State()), at), steps)
      ensures at <= clock && Evolves(old(State()), State())
    {
      hide Inv, SoundEngine, LegalRun, Run, Evolves;
      InvLater(engine, State(), clock, at);
      RunKeepsInv(engine, Runs.State(State(), at), steps);
      RunEvolves(engine, Runs.State(State(), at), steps);
      var s := Run(engine, Runs.State(State(), at), steps);
      balances, ledger, markets := s.db.books.balances, s.db.books.ledger, s.db.markets;
      keys, templates, clock := s.db.keys, s.db.templates, s.clock;
    }

    // ---- Trades -------------------------------------------------------------------------------------

    /** One attempt at a trade. */
    method ExecuteOnce(key: string, request: TradeRequest, limit: int, now: int) returns (r: Result<Response>)
      requires Valid() && clock <= now
      modifies this
      ensures Valid() && clock <= now
      ensures r.Ok? ==> Exchange.ExecuteOnce(engine, old(State()), key, request, limit, now) == Ok((State(), r.value))
      ensures r.Err? ==>
        State() == old(State()) && Exchange.ExecuteOnce(engine, old(State()), key, request, limit, now) == Err(r.error)
      ensures (request.claims.user, key) !in old(keys) ==>
        var c := request.claims;
        (r.Ok? <==>
           && c.market in old(markets)
           && QuoteStands(engine, old(markets)[c.market].row, c, now) && WithinLimit(c, limit)
           && CanSettle(old(State()).books, old(markets)[c.market].positions, c))
    {
      hide SoundEngine, MarketsKept, RefsKnown, Balanced, Recheck, CommitTrade, SoundDeal, QuoteStands,
           WithinLimit, CanSettle;
      var tx := new Transaction(this);
      var c, slot := request.claims, (request.claims.user, key);
      CommitsIff(key, request, limit, now);
      if slot in tx.keys {
        if tx.keys[slot].request != request {
          return Err(Conflict(KeyReused));
        }
        if tx.keys[slot].response.Some? {
          return Ok(tx.keys[slot].response.value);
        }
      } else {
        tx.keys := tx.keys[slot := KeyRow(request, None)];
      }
      if c.market !in tx.markets {
        return Err(NotFound);
      }
      var deal := Requote(tx.markets[c.market].row, c, limit, now);
      if deal.Err? {
        return Err(deal.error);
      }
      RecheckedDeal(engine, tx.markets[c.market].row, c, limit, now);
      ReservedKey(State(), key, request, deal.value, now);
      r := tx.Book(key, request, deal.value, now);
      if r.Ok? {
        ExecuteKeepsInv(engine, State(), clock, key, request, limit, now);
        Commit(tx, now);
      }
    }

    lemma CommitsIff(key: string, request: TradeRequest, limit: int, now: int)
      requires Valid()
      ensures (request.claims.user, key) !in keys ==>
        var c := request.claims;
        (Exchange.ExecuteOnce(engine, State(), key, request, limit, now).Ok? <==>
           && c.market in markets
           && QuoteStands(engine, markets[c.market].row, c, now) && WithinLimit(c, limit)
           && CanSettle(State().books, markets[c.market].positions, c))
    {
      hide SoundEngine, Inv, QuoteStands, WithinLimit, CanSettle, Exchange.ExecuteOnce;
      if (request.claims.user, key) !in keys {
        TradeCommits(engine, State(), clock, key, request, limit, now);
      }
    }

    /** The reserved key of this attempt does not disturb the commit. */
    lemma ReservedKey(db: Db, key: string, request: TradeRequest, deal: Deal, now: int)
      requires request.claims.market in db.markets
      requires request.claims.outcome < Outcomes(db.markets[request.claims.market].row)
      ensures CommitTrade(db.(keys := db.keys[(request.claims.user, key) := KeyRow(request, None)]), key, request, deal, now)
           == CommitTrade(db, key, request, deal, now)
    {
      hide Allowed, Posted, Holding, TradedMarket;
      var slot := (request.claims.user, key);
      assert forall row {:trigger db.keys[slot := row]} :: db.keys[slot := KeyRow(request, None)][slot := row] == db.keys[slot := row];
    }

    /** The checks under the instance lock; the engine is asked again and must agree with the quote. */
    method Requote(row: Instance, c: QuoteClaims, limit: int, now: int) returns (r: Result<Deal>)
      requires SoundEngine(engine)
      ensures r == Recheck(engine, row, c, limit, now)
      ensures r.Ok? <==> QuoteStands(engine, row, c, now) && WithinLimit(c, limit)
      ensures r.Ok? ==> r.value.total == if c.side == Buy then c.amount + c.fee else c.amount - c.fee
    {
      hide SoundEngine, QuoteStands, WithinLimit;
      RecheckMeans(engine, row, c, limit, now);
      if !Tradable(row, now) {
        return Err(Conflict(MarketClosed));
      }
      if row.terms.creator == Some(c.user) {
        return Err(Conflict(CreatorTrades));
      }
      if c.expires <= now {
        return Err(Conflict(QuoteExpired));
      }
      if c.version != row.version {
        return Err(Conflict(PriceChanged));
      }
      if Outcomes(row) <= c.outcome {
        return Err(Invalid);
      }
      var calculation := engine.calculate(row.inventory, row.terms.liquidity, c.outcome, c.side, c.quantity, row.version);
      if calculation.Err? {
        return Err(calculation.error);
      }
      var amount := calculation.value.amount;
      ChargingSucceeds(row, c, amount);
      if amount != c.amount {
        return Err(Conflict(QuoteChanged));
      }
      var fee := if row.terms.feeCharged then TradeFee(amount) else 0;
      if fee != c.fee {
        return Err(Conflict(QuoteChanged));
      }
      var total := Charged(amount, c.side, row.terms.feeCharged);
      match total
      case Err(error) => r := Err(error);
      case Ok(total) =>
        if (c.side == Buy && limit < total) || (c.side == Sell && total < limit) {
          return Err(Conflict(LimitExceeded));
        }
        r := Ok(Deal(calculation.value.inventory, amount, fee, total));
    }

    lemma ChargingSucceeds(row: Instance, c: QuoteClaims, amount: int)
      requires SoundEngine(engine) && c.outcome < Outcomes(row)
      requires var r := engine.calculate(row.inventory, row.terms.liquidity, c.outcome, c.side, c.quantity, row.version);
               r.Ok? && r.value.amount == amount
      ensures Charged(amount, c.side, row.terms.feeCharged).Ok?
    {
      assert PricesTrade(engine, row.inventory, row.terms.liquidity, c.outcome, c.side, c.quantity, row.version);
      ChargedSplits(amount, c.side, row.terms.feeCharged);
    }

    /** Attempt `k` is the first that meets no transient failure. */
    ghost predicate FirstFree(blocked: seq<bool>, k: nat) {
      k < |blocked| && !blocked[k] && forall j :: 0 <= j < k ==> blocked[j]
    }

    /** A trade request: up to three attempts, as long as each meets a transient failure and is
        rolled back. `blocked` says which attempts do, `rivals` what other transactions do before
        each, `times` what the clock shows at each. */
    method Execute(
        user: UserId, key: string, request: TradeRequest, blocked: seq<bool>, times: seq<int>,
        rivals: (nat, Runs.State) -> seq<Step>
      ) returns (r: Result<Response>)
      requires Valid() && |blocked| == |times| == 3
      requires forall k, s :: LegalRun(engine, s, rivals(k, s))
      requires forall k: nat :: k < 3 ==> Before(engine, rivals, Runs.State(State(), clock), k).clock <= times[k]
      modifies this
      ensures Valid()
      ensures !WellFormed(user, key, request) ==>
        State() == old(State()) && r.Err? && ExecuteTx(engine, State(), user, key, request, clock) == Err(r.error)
      ensures forall k: nat :: WellFormed(user, key, request) && FirstFree(blocked, k) ==>
        var mid := Before(engine, rivals, old(Runs.State(State(), clock)), k).db;
        if r.Ok? then ExecuteTx(engine, mid, user, key, request, times[k]) == Ok((State(), r.value))
        else State() == mid && ExecuteTx(engine, mid, user, key, request, times[k]) == Err(r.error)
      ensures WellFormed(user, key, request) && blocked == [true, true, true] ==>
        r == Err(Conflict(Busy)) && State() == Before(engine, rivals, old(Runs.State(State(), clock)), 2).db
    {
      hide Inv, SoundEngine, Exchange.ExecuteOnce, ParseMicros, Run, LegalRun, Evolves;
      if !KeyWellFormed(key) {
        return Err(Invalid);
      }
      if request.claims.user != user || request.claims.engine != ENGINE_VERSION {
        return Err(Unauthorized);
      }
      var limit := ParseMicros(request.limit);
      if limit.Err? {
        return Err(limit.error);
      }
      ghost var start := Runs.State(State(), clock);
      for attempt := 0 to 3
        invariant Valid()
        invariant Runs.State(State(), clock) == if attempt == 0 then start else Before(engine, rivals, start, attempt - 1)
        invariant forall j :: 0 <= j < attempt ==> blocked[j]
      {
        Absorb(rivals(attempt, Runs.State(State(), clock)), clock);
        if !blocked[attempt] {
          r := ExecuteOnce(key, request, limit.value, times[attempt]);
          return;
        }
      }
      r := Err(Conflict(Busy));
    }

    // ---- Lifecycle and evidence ---------------------------------------------------------------------

    method Suspend(id: MarketId, suspended: bool, reason: string, now: int) returns (r: Result<()>)
      requires Valid() && clock <= now
      modifies this
      ensures Valid() && clock <= now
      ensures r.Ok? ==> SuspendTx(old(State()), id, suspended, reason) == Ok(State())
      ensures r.Err? ==> State() == old(State()) && SuspendTx(old(State()), id, suspended, reason) == Err(r.error)
    {
      hide Inv, SoundEngine;
      if !Text.Within(reason, 5, 1000) {
        return Err(Invalid);
      }
      var tx := new Transaction(this);
      if id !in tx.markets {
        return Err(NotFound);
      }
      if tx.markets[id].row.phase != Open {
        return Err(Conflict(NotOpen));
      }
      tx.Update(id, tx.markets[id].row.(suspended := suspended), SuspensionEvent);
      SuspendKeepsInv(engine, State(), clock, id, suspended, reason, now);
      Commit(tx, now);
      r := Ok(());
    }

    method RecordEvidence(id: MarketId, input: EvidenceInput, demo: bool, now: int) returns (r: Result<()>)
      requires Valid() && clock <= now
      modifies this
      ensures Valid() && clock <= now
      ensures r.Ok? ==> ObserveTx(old(State()), id, input, demo, now) == Ok(State())
      ensures r.Err? ==> State() == old(State()) && ObserveTx(old(State()), id, input, demo, now) == Err(r.error)
      ensures r.Ok? && State() != old(State()) ==>
        && id in old(markets) && id in markets && |markets[id].evidence| == |old(markets)[id].evidence| + 1
        && var t, x := old(markets)[id].row.terms, markets[id].evidence[|old(markets)[id].evidence|];
           && GainsEvidence(old(State()), State(), id, x) && x.content == Observed(input)
           && Means(t.rule, input.observation, t.observationStart, t.observationEnd, x.result)
    {
      hide Inv, SoundEngine, Latest, FindEvent, InputBounded, HasRevision, Evaluate, Means, GainsEvidence;
      NewEventIsRecorded(State(), id, input, demo, now);
      if !InputBounded(input) {
        return Err(Invalid);
      }
      var tx := new Transaction(this);
      if id !in tx.markets {
        return Err(NotFound);
      }
      var mk := tx.markets[id];
      var row, key := mk.row, EventKey(input.source, input.event);
      var found := FindEvent(mk.evidence, key);
      if found.Some? {
        if found.value.content != Observed(input) {
          return Err(Conflict(EventReused));
        }
        assert State().(markets := State().markets[id := mk]) == State();
        return Ok(());
      }
      if row.phase != Open && row.phase != Closed {
        return Err(Conflict(AlreadyFinal));
      }
      if row.terms.authority != Simulator {
        return Err(Invalid);
      }
      var replay := demo && row.terms.simulated && input.source == SIMULATOR_SOURCE;
      if now < row.terms.observationEnd {
        return Err(Conflict(WindowOpen));
      }
      if !replay && row.terms.deadline <= now {
        return Err(Conflict(DeadlinePassed));
      }
      if input.source != row.terms.source || input.windowStart != row.terms.observationStart || input.windowEnd != row.terms.observationEnd {
        return Err(Invalid);
      }
      var seen := Evaluate(row.terms.rule, input.observation, row.terms.observationStart, row.terms.observationEnd);
      if seen.Err? {
        return Err(seen.error);
      }
      if HasRevision(mk.evidence, input.revision) {
        return Err(Conflict(RevisionExists));
      }
      var x := Evidence(key, input.revision, row.terms.observationEnd, Observed(input), seen.value);
      var top := Latest(mk.evidence + [x]);
      tx.Record(id, x, if top.Some? then Some(top.value.key) else None);
      ObserveKeepsInv(engine, State(), clock, id, input, demo, now);
      Commit(tx, now);
      r := Ok(());
    }

    lemma NewEventIsRecorded(db: Db, id: MarketId, input: EvidenceInput, demo: bool, now: int)
      ensures (id in db.markets && FindEvent(db.markets[id].evidence, EventKey(input.source, input.event)).None?
               && ObserveTx(db, id, input, demo, now).Ok?) ==>
          var t, next := db.markets[id].row.terms, ObserveTx(db, id, input, demo, now).value;
          && id in next.markets && |next.markets[id].evidence| == |db.markets[id].evidence| + 1
          && var x := next.markets[id].evidence[|db.markets[id].evidence|];
             && GainsEvidence(db, next, id, x) && x.content == Observed(input)
             && Means(t.rule, input.observation, t.observationStart, t.observationEnd, x.result)
    {
      hide ObserveTx, Means, GainsEvidence, Fits;
      if id in db.markets && FindEvent(db.markets[id].evidence, EventKey(input.source, input.event)).None? {
        ObservationEffects(db, id, input, demo, now);
      }
    }

    method RecordCreatorResolution(
        id: MarketId, submitter: UserId, outcome: nat, event: string, nonce: string, signed: bool, now: int
      ) returns (r: Result<()>)
      requires Valid() && clock <= now
      modifies this
      ensures Valid() && clock <= now
      ensures r.Ok? ==> CreatorTx(old(State()), id, submitter, outcome, event, nonce, signed, now) == Ok(State())
      ensures r.Err? ==> State() == old(State()) && CreatorTx(old(State()), id, submitter, outcome, event, nonce, signed, now) == Err(r.error)
      ensures r.Ok? ==>
        var key := EventKey("creator-signature", event);
        && id in old(markets)
        && GainsEvidence(old(State()), State(), id, Evidence(key, 0, now, Stated(outcome), Some(Winner(outcome))))
        && markets[id].row.evidenceId == Some(key)
    {
      hide Inv, SoundEngine, HasSource, GainsEvidence;
      CreatorResolutionEffects(State(), id, submitter, outcome, event, nonce, signed, now);
      var trimmed := Text.Bytes(Text.Trim(nonce));
      if trimmed == 0 || 120 < trimmed {
        return Err(Invalid);
      }
      var tx := new Transaction(this);
      if id !in tx.markets {
        return Err(NotFound);
      }
      var row := tx.markets[id].row;
      if row.terms.authority != Creator {
        return Err(Invalid);
      }
      if row.terms.creator != Some(submitter) {
        return Err(Forbidden);
      }
      if row.phase != Closed {
        return Err(Conflict(NotClosed));
      }
      if now < row.terms.observationEnd {
        return Err(Conflict(WindowOpen));
      }
      if row.terms.deadline <= now {
        return Err(Conflict(DeadlinePassed));
      }
      if HasSource(tx.markets[id].evidence, CREATOR_SOURCE) {
        return Err(Conflict(AlreadyResolved));
      }
      if !signed {
        return Err(Invalid);
      }
      if Outcomes(row) <= outcome {
        return Err(Invalid);
      }
      var key := EventKey(CREATOR_SOURCE, event);
      tx.Record(id, Evidence(key, 0, now, Stated(outcome), Some(Winner(outcome))), Some(key));
      CreatorKeepsInv(engine, State(), clock, id, submitter, outcome, event, nonce, signed, now);
      Commit(tx, now);
      r := Ok(());
    }

    method RecordResolverEvidence(
        id: MarketId, outcome: nat, event: string, replay: bool, now: int
      ) returns (r: Result<()>)
      requires Valid() && clock <= now
      modifies this
      ensures clock <= now
      ensures Valid() <==> State() == old(State()) || (id in old(markets) && old(markets)[id].row.terms.observationEnd <= now)
      ensures r.Ok? ==> ResolverTx(old(State()), id, outcome, event, replay, now) == Ok(State())
      ensures r.Err? ==> State() == old(State()) && ResolverTx(old(State()), id, outcome, event, replay, now) == Err(r.error)
      ensures r.Ok? && State() != old(State()) ==>
        var key := EventKey("external-resolver", event);
        && id in old(markets)
        && GainsEvidence(old(State()), State(), id, Evidence(key, 0, now, Stated(outcome), Some(Winner(outcome))))
        && markets[id].row.evidenceId == Some(key)
    {
      hide Inv, SoundEngine, HasSource, GainsEvidence;
      ResolverAnswerEffects(State(), id, outcome, event, replay, now);
      var tx := new Transaction(this);
      if id !in tx.markets {
        return Err(NotFound);
      }
      var row := tx.markets[id].row;
      if row.phase != Open && row.phase != Closed {
        return Err(Conflict(AlreadyFinal));
      }
      if !replay && row.terms.deadline <= now {
        return Err(Conflict(DeadlinePassed));
      }
      if HasSource(tx.markets[id].evidence, RESOLVER_SOURCE) {
        assert State().(markets := State().markets[id := State().markets[id]]) == State();
        return Ok(());
      }
      if Outcomes(row) <= outcome {
        return Err(Invalid);
      }
      var key := EventKey(RESOLVER_SOURCE, event);
      tx.Record(id, Evidence(key, 0, now, Stated(outcome), Some(Winner(outcome))), Some(key));
      ResolverKeepsInv(engine, State(), clock, id, outcome, event, replay, now);
      Commit(tx, now);
      r := Ok(());
    }

    // ---- Accounts and creation ----------------------------------------------------------------------

    method Welcome(user: UserId, name: string, amount: int, now: int) returns (r: Result<()>)
      requires Valid() && clock <= now
      modifies this
      ensures Valid() && clock <= now
      ensures r.Ok? ==> GrantTx(old(State()), user, name, amount) == Ok(State())
      ensures r.Err? ==> State() == old(State()) && GrantTx(old(State()), user, name, amount) == Err(r.error)
    {
      hide Inv, SoundEngine, ValidName, Exchange.OpenFunded;
      if !ValidName(Text.Trim(name)) {
        return Err(Invalid);
      }
      var tx := new Transaction(this);
      var opening := tx.OpenFunded(User(user), amount, Grant(user));
      if opening.Err? {
        return opening;
      }
      GrantKeepsInv(engine, State(), clock, user, name, amount, now);
      Commit(tx, now);
      r := Ok(());
    }

    method CreateInstance(id: MarketId, terms: Terms, demo: bool, now: int) returns (r: Result<()>)
      requires Valid() && clock <= now
      modifies this
      ensures Valid() && clock <= now
      ensures r.Ok? ==> CreateTx(engine, old(State()), id, terms, demo, now) == Ok(State())
      ensures r.Err? ==> State() == old(State()) && CreateTx(engine, old(State()), id, terms, demo, now) == Err(r.error)
    {
      hide OutcomeCount, CategoryOf, Inv, SoundEngine, SpecValid, ValidRule, SlotTaken, Exchange.OpenFunded, NewMarket;
      var tx := new Transaction(this);
      if !ValidRule(terms.rule) {
        return Err(Invalid);
      }
      var funding := engine.funding(terms.liquidity, OutcomeCount(terms.rule));
      if funding.Err? {
        return Err(funding.error);
      }
      if !SpecValid(terms, demo, now) {
        return Err(Invalid);
      }
      var fits := tx.Template(terms.template, CategoryOf(terms.rule));
      if !fits {
        return Err(Invalid);
      }
      if SlotTaken(State(), terms) {
        return Err(Conflict(InstanceExists));
      }
      if terms.creator.Some? && User(terms.creator.value) !in tx.balances {
        return Err(Invalid);
      }
      var opening := tx.OpenFunded(Reserve(id), funding.value, Subsidy(id));
      if opening.Err? {
        return opening;
      }
      if id in tx.markets {
        return Err(Internal);
      }
      tx.markets := tx.markets[id := NewMarket(terms)];
      CreateKeepsInv(engine, State(), clock, id, terms, demo, now);
      Commit(tx, now);
      r := Ok(());
    }

    // ---- Passes over many rows ------------------------------------------------------------------------

    /** Closes up to a hundred due instances, skipping those another transaction has locked. */
    method CloseDue(locked: set<MarketId>, now: int) returns (closed: set<MarketId>)
      requires Valid() && clock <= now
      modifies this
      ensures Valid() && clock <= now && State() == CloseTx(old(State()), closed, now)
      ensures forall i :: i in closed ==> i in old(markets) && Due(old(markets)[i], now) && i !in locked
      ensures |closed| <= BATCH
      ensures |closed| < BATCH ==> forall i :: i in markets && Due(markets[i], now) ==> i in locked
    {
      hide Inv, SoundEngine, CloseTx, Due;
      var tx := new Transaction(this);
      closed := tx.CloseSome(locked, now);
      ClosedAreNotDue(State(), closed, now);
      CloseKeepsInv(engine, State(), clock, closed, now);
      Commit(tx, now);
    }

    /** Deletes up to twenty settled recurring brackets whose retention has passed. */
    method PurgeExpiredBrackets(now: int) returns (purged: set<MarketId>)
      requires Valid() && clock <= now
      modifies this
      ensures Valid() && clock <= now && State() == PurgeTx(old(State()), purged, now)
      ensures forall i :: i in purged ==> i in old(markets) && Purgeable(old(State()), i, now)
      ensures |purged| <= 20 && (|purged| < 20 ==> forall i :: i in markets ==> !Purgeable(State(), i, now))
      ensures balances == old(balances) && ledger == old(ledger) && keys == old(keys) && templates == old(templates)
    {
      hide Inv, SoundEngine, PurgeTx, Purgeable;
      var tx := new Transaction(this);
      purged := tx.DeleteExpired(now);
      PurgedRows(State(), purged, now);
      PurgedAreGone(State(), purged, now);
      PurgeKeepsInv(engine, State(), clock, purged, now);
      Commit(tx, now);
    }

    // ---- Settlement -------------------------------------------------------------------------------------

    /** Finalizes the result once, then pays up to a hundred claims; with the last of them it closes
        the market out. It never aborts. */
    method SettleBatch(id: MarketId, now: int) returns (r: Result<nat>, batch: seq<UserId>)
      requires Valid() && clock <= now
      modifies this
      ensures Valid() && clock <= now
      ensures id in old(markets) ==>
        && r == Ok(|batch|) && SettleTx(old(State()), id, batch, now) == Ok(State())
        && (Finalize(old(markets)[id], now).row.phase == Resolving ==> ValidBatch(Finalize(old(markets)[id], now), batch))
        && (Finalize(old(markets)[id], now).row.phase != Resolving ==> batch == [])
        && (batch != [] ==>
              && id in markets && markets[id].claims.Keys == old(markets)[id].claims.Keys + Members(batch)
              && ClaimsAreCredits(markets[id]))
      ensures id !in old(markets) ==> r == Err(NotFound) && State() == old(State())
    {
      hide Inv, SoundEngine, PayClaims, Drain, Unclaimed, Finalize, Settles, ValidBatch;
      var tx := new Transaction(this);
      batch := [];
      if id !in tx.markets {
        return Err(NotFound), batch;
      }
      tx.FinalizeIfDue(id, now);
      if tx.markets[id].row.phase != Resolving {
        return Ok(0), batch;
      }
      batch := Claimants(tx.markets[id]);
      SettleSucceeds(engine, State(), clock, id, batch, now);
      assert AsSettling(tx.State(), id) == Settling(State().books, Finalize(markets[id], now));
      var paid := tx.PayAll(id, batch);
      assert paid.Ok?;
      SettleSteps(State(), id, batch, now, AsSettling(tx.State(), id));
      if Unclaimed(tx.markets[id]) == {} {
        var done := tx.Close(id);
        assert done.Ok?;
      }
      assert tx.markets == markets[id := tx.markets[id]];
      assert tx.State() == WithSettling(State(), id, AsSettling(tx.State(), id));
      BatchIsClaimed(engine, State(), clock, id, batch, now);
      Commit(tx, now);
      r := Ok(|batch|);
    }
  }

  /** The accounts one settlement transaction selects. */
  method Claimants(mk: Market) returns (batch: seq<UserId>)
    ensures ValidBatch(mk, batch)
  {
    hide HasShares;
    batch := [];
    var left := Unclaimed(mk);
    while left != {} && |batch| < BATCH
      invariant forall i :: 0 <= i < |batch| ==> batch[i] in Unclaimed(mk) && batch[i] !in left
      invariant forall i, j :: 0 <= i < j < |batch| ==> batch[i] != batch[j]
      invariant |batch| <= BATCH
      invariant forall u :: u in Unclaimed(mk) ==> u in left || u in batch
      decreases left
    {
      var u :| u in left;
      left, batch := left - {u}, batch + [u];
    }
  }
}
