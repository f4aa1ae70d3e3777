/** What single transactions do, told from outside: exactly when they commit, and everything they
    change. */
module Effects {
  import opened Wrappers
  import opened Amm
  import opened Lmsr
  import opened PricingEngine
  import opened Fee
  import opened Books
  import opened Rules
  import opened Exchange
  import opened Invariant
  import opened Preservation
  import opened Settlement
  import opened Transactions
  import opened Runs
  import Text

  // ---- Trades ---------------------------------------------------------------------------------------

  /** The trader is protected by its limit, the quote and the market's times. */
  ghost predicate FairTrade(row: Instance, c: QuoteClaims, limit: int, now: int, r: Response) {
    && row.phase == Open && !row.suspended && now < row.terms.closeMs && now < c.expires
    && c.version == row.version && row.terms.creator != Some(c.user)
    && r.fee == c.fee == FeeOf(c.amount, row.terms.feeCharged)
    && Signed(c.side, r.total) == Signed(c.side, c.amount) + r.fee && 0 <= r.total
    && (if c.side == Buy then r.total <= limit else limit <= r.total)
  }

  /** One all-in amount moves between the trader and the reserve, and nothing else moves. */
  ghost predicate PaidOnce(before: Books, after: Books, c: QuoteClaims, r: Response) {
    && User(c.user) in before.balances && Reserve(c.market) in before.balances
    && after.balances == before.balances
         [User(c.user) := before.balances[User(c.user)] - Signed(c.side, r.total)]
         [Reserve(c.market) := before.balances[Reserve(c.market)] + Signed(c.side, r.total)]
    && r.balance == after.balances[User(c.user)] && 0 <= r.balance
  }

  /** The trader's shares and the inventory of the traded outcome move by the quantity, the version by
      one; one trade and one event are recorded. */
  ghost predicate SharesMoved(mk: Market, after: Market, c: QuoteClaims, now: int, r: Response) {
    && c.outcome < Outcomes(mk.row)
    && after.row == mk.row.(inventory := Moved(mk.row.inventory, c.outcome, c.side, c.quantity), version := mk.row.version + 1)
    && Holding(after, c.user) == Moved(Holding(mk, c.user), c.outcome, c.side, c.quantity)
    && r.owned == Holding(after, c.user)[c.outcome] && 0 <= r.owned
    && (forall u :: u != c.user ==> Holding(after, u) == Holding(mk, u))
    && after.trades == mk.trades + [Trade(c.user, c.outcome, c.side, c.quantity, r.total, r.fee, r.version, now)]
    && r.version == mk.row.version + 1 && r.at == now
    && after.outbox == mk.outbox + [OutboxRow(r.version, TradeEvent)]
    && after.claims == mk.claims && after.evidence == mk.evidence
  }

  /** A newly committed trade. */
  lemma TradeEffects(e: Engine, db: Db, clock: int, key: string, request: TradeRequest, limit: int, now: int)
    requires SoundEngine(e) && Inv(e, db, clock)
    requires (request.claims.user, key) !in db.keys && ExecuteOnce(e, db, key, request, limit, now).Ok?
    ensures var c := request.claims;
            var next, r := ExecuteOnce(e, db, key, request, limit, now).value.0, ExecuteOnce(e, db, key, request, limit, now).value.1;
            && c.market in db.markets && c.market in next.markets
            && FairTrade(db.markets[c.market].row, c, limit, now, r)
            && PaidOnce(db.books, next.books, c, r)
            && SharesMoved(db.markets[c.market], next.markets[c.market], c, now, r)
            && next.markets == db.markets[c.market := next.markets[c.market]]
            && next.keys == db.keys[(c.user, key) := KeyRow(request, Some(r))]
            && r.market == c.market && r.outcome == c.outcome && r.side == c.side && r.quantity == c.quantity
  {
    hide Inv, SoundEngine, CommitTrade, Recheck, SoundDeal, FairTrade, PaidOnce, SharesMoved;
    var c, mk := request.claims, db.markets[request.claims.market];
    RecheckedDeal(e, mk.row, c, limit, now);
    var deal := Recheck(e, mk.row, c, limit, now).value;
    CommitTells(db, key, request, deal, now);
    BooksAndPositions(e, db, clock, c.market);
    DealIsFair(e, mk.row, c, limit, now);
    CommitPays(e, db, key, request, deal, now);
    CommitMoves(e, db, key, request, deal, now);
  }

  lemma BooksAndPositions(e: Engine, db: Db, clock: int, id: MarketId)
    requires Inv(e, db, clock) && id in db.markets
    ensures Balanced(db.books) && PositionsOk(db.markets[id])
  {
    MarketIsKept(e, db, clock, id);
  }

  lemma CommitTells(db: Db, key: string, request: TradeRequest, deal: Deal, now: int)
    requires request.claims.market in db.markets
    requires request.claims.outcome < Outcomes(db.markets[request.claims.market].row)
    requires CommitTrade(db, key, request, deal, now).Ok?
    ensures var c := request.claims;
            var next, r := CommitTrade(db, key, request, deal, now).value.0, CommitTrade(db, key, request, deal, now).value.1;
            && next.keys == db.keys[(c.user, key) := KeyRow(request, Some(r))]
            && next.markets == db.markets[c.market := TradedMarket(db.markets[c.market], c, deal, now)]
            && r == TradeResponse(db, db.markets[c.market], c, deal, now)
  {
    hide Fund, Allowed, Posted, TradedMarket, TradeResponse;
  }

  lemma DealIsFair(e: Engine, row: Instance, c: QuoteClaims, limit: int, now: int)
    requires SoundEngine(e) && Recheck(e, row, c, limit, now).Ok?
    ensures var deal := Recheck(e, row, c, limit, now).value;
            forall r: Response :: r.fee == deal.fee && r.total == deal.total ==> FairTrade(row, c, limit, now, r)
  {
    hide SoundEngine, Quote, Accepts;
    RecheckedDeal(e, row, c, limit, now);
  }

  lemma CommitPays(e: Engine, db: Db, key: string, request: TradeRequest, deal: Deal, now: int)
    requires request.claims.market in db.markets
    requires request.claims.outcome < Outcomes(db.markets[request.claims.market].row)
    requires CommitTrade(db, key, request, deal, now).Ok? && Balanced(db.books)
    ensures var committed := CommitTrade(db, key, request, deal, now).value;
            PaidOnce(db.books, committed.0.books, request.claims, committed.1)
  {
    hide Balanced, TradedMarket, Holding;
    CommitIsCommitted(db, key, request, deal, now);
    CommittedBalanced(db, CommitTrade(db, key, request, deal, now).value.0, request.claims, deal, now);
    UsersAreNonnegative(CommitTrade(db, key, request, deal, now).value.0.books, request.claims.user);
  }

  lemma UsersAreNonnegative(b: Books, user: UserId)
    requires Balanced(b) && User(user) in b.balances
    ensures 0 <= b.balances[User(user)]
  {}

  lemma CommitMoves(e: Engine, db: Db, key: string, request: TradeRequest, deal: Deal, now: int)
    requires request.claims.market in db.markets
    requires var c, row := request.claims, db.markets[request.claims.market].row;
             SoundDeal(e, row, c.outcome, c.side, c.quantity, deal) && c.outcome < Outcomes(row)
    requires PositionsOk(db.markets[request.claims.market])
    requires CommitTrade(db, key, request, deal, now).Ok?
    ensures var c, mk := request.claims, db.markets[request.claims.market];
            SharesMoved(mk, TradedMarket(mk, c, deal, now), c, now, TradeResponse(db, mk, c, deal, now))
  {
    hide Allowed, Posted, Holding, Supported, PositionsOk;
    var c, mk := request.claims, db.markets[request.claims.market];
    CommitIsCommitted(db, key, request, deal, now);
    HeldIsNonnegative(mk, c.user, c.outcome);
    MovedHoldings(mk, c, deal, now);
  }

  lemma HeldIsNonnegative(mk: Market, user: UserId, outcome: nat)
    requires PositionsOk(mk) && outcome < Outcomes(mk.row)
    ensures 0 <= Holding(mk, user)[outcome]
  {}

  lemma MovedHoldings(mk: Market, c: QuoteClaims, deal: Deal, now: int)
    requires c.outcome < Outcomes(mk.row) && |deal.inventory| == Outcomes(mk.row)
    ensures var after := TradedMarket(mk, c, deal, now);
            && Holding(after, c.user) == Moved(Holding(mk, c.user), c.outcome, c.side, c.quantity)
            && forall u :: u != c.user ==> Holding(after, u) == Holding(mk, u)
  {}

  /** A quote is issued exactly on a market open to the trader, for a trade the engine prices, of shares
      the trader holds when it sells. It states the engine's amount, the fee on it and the row's version,
      and stands for fifteen seconds, but not past the close. */
  lemma QuoteEffects(
      e: Engine, row: Instance, id: MarketId, user: UserId, held: int, outcome: nat, side: Side, quantity: int, now: int
    )
    requires SoundEngine(e)
    ensures var r := e.calculate(row.inventory, row.terms.liquidity, outcome, side, quantity, row.version);
            var quote := QuoteTx(e, row, id, user, held, outcome, side, quantity, now);
            && (quote.Ok? <==>
                  && row.phase == Open && !row.suspended && now < row.terms.closeMs && row.terms.creator != Some(user)
                  && outcome < |row.inventory| && r.Ok? && (side == Sell ==> quantity <= held))
            && (quote.Ok? ==>
                  var c := quote.value;
                  && c == QuoteClaims(user, id, outcome, side, quantity, r.value.amount, c.fee, row.version, c.expires,
                                      "lmsr-decimal-v1")
                  && IsFee(c.amount, c.fee, row.terms.feeCharged)
                  && c.expires <= now + 15_000 && c.expires <= row.terms.closeMs
                  && (c.expires == now + 15_000 || c.expires == row.terms.closeMs))
  {
    hide SoundEngine, IsFee, FeeOf, Charged, Accepts;
    EnginePrices(e, row.inventory, row.terms.liquidity, outcome, side, quantity, row.version);
    var r := e.calculate(row.inventory, row.terms.liquidity, outcome, side, quantity, row.version);
    if r.Ok? {
      AmountIsSmall(e, row, outcome, side, quantity);
      ChargedSplits(r.value.amount, side, row.terms.feeCharged);
      FeeIsUnique(r.value.amount, FeeOf(r.value.amount, row.terms.feeCharged), row.terms.feeCharged);
    }
  }

  // ---- Evidence ---------------------------------------------------------------------------------------

  /** The market gains one evidence row, a version and its event; nothing else changes. */
  ghost predicate GainsEvidence(db: Db, next: Db, id: MarketId, x: Evidence)
    requires id in db.markets
  {
    var mk := db.markets[id];
    && id in next.markets && next == db.(markets := db.markets[id := next.markets[id]])
    && var after := next.markets[id];
       after == mk.(row := mk.row.(version := mk.row.version + 1, evidenceId := after.row.evidenceId),
                    evidence := mk.evidence + [x],
                    outbox := mk.outbox + [OutboxRow(mk.row.version + 1, EvidenceEvent)])
  }

  /** A creator's resolution commits exactly when the nonce is of 1 to 120 bytes, the market is the
      submitter's own to resolve, closed, past its window and before its deadline, has no statement of
      its creator yet, and the signature and the outcome are good. The row it adds says that the signed
      outcome won. */
  lemma CreatorResolutionEffects(
      db: Db, id: MarketId, submitter: UserId, outcome: nat, event: string, nonce: string, signed: bool, now: int
    )
    ensures CreatorTx(db, id, submitter, outcome, event, nonce, signed, now).Ok? <==>
      && 1 <= Text.Bytes(Text.Trim(nonce)) <= 120 && id in db.markets
      && var mk := db.markets[id];
         && mk.row.terms.authority == Creator && mk.row.terms.creator == Some(submitter)
         && mk.row.phase == Closed && mk.row.terms.observationEnd <= now < mk.row.terms.deadline
         && (forall k :: 0 <= k < |mk.evidence| ==> mk.evidence[k].key.source != "creator-signature")
         && signed && outcome < |mk.row.inventory|
    ensures CreatorTx(db, id, submitter, outcome, event, nonce, signed, now).Ok? ==>
      var next := CreatorTx(db, id, submitter, outcome, event, nonce, signed, now).value;
      var key := EventKey("creator-signature", event);
      && GainsEvidence(db, next, id, Evidence(key, 0, now, Stated(outcome), Some(Winner(outcome))))
      && next.markets[id].row.evidenceId == Some(key)
  {
    hide Text.Bytes, Text.Trim;
  }

  /** A resolver's answer commits exactly while the market is not yet final, before its deadline unless
      it replays a demo, and for a known outcome unless it repeats an earlier answer. The first answer
      adds the row that says its outcome won; a repeated one changes nothing. */
  lemma ResolverAnswerEffects(db: Db, id: MarketId, outcome: nat, event: string, replay: bool, now: int)
    ensures ResolverTx(db, id, outcome, event, replay, now).Ok? <==>
      && id in db.markets
      && var mk := db.markets[id];
         && (mk.row.phase == Open || mk.row.phase == Closed) && (replay || now < mk.row.terms.deadline)
         && (outcome < |mk.row.inventory|
             || exists k :: 0 <= k < |mk.evidence| && mk.evidence[k].key.source == "external-resolver")
    ensures ResolverTx(db, id, outcome, event, replay, now).Ok? ==>
      var mk, next := db.markets[id], ResolverTx(db, id, outcome, event, replay, now).value;
      var key := EventKey("external-resolver", event);
      if exists k :: 0 <= k < |mk.evidence| && mk.evidence[k].key.source == "external-resolver" then next == db
      else
        && GainsEvidence(db, next, id, Evidence(key, 0, now, Stated(outcome), Some(Winner(outcome))))
        && next.markets[id].row.evidenceId == Some(key)
  {
    if ResolverTx(db, id, outcome, event, replay, now).Ok? && HasSource(db.markets[id].evidence, RESOLVER_SOURCE) {
      assert db.markets[id := db.markets[id]] == db.markets;
    }
  }

  /** A new observation commits exactly when it is within its bounds, comes after the window and, unless
      the simulator replays a demo, before the deadline, of the published source and window, to a market
      not yet final that has no other authority, with a new revision, and fits the rule. The row it adds
      holds the result that the observation means. */
  lemma ObservationEffects(db: Db, id: MarketId, input: EvidenceInput, demo: bool, now: int)
    requires id in db.markets ==>
      forall k :: 0 <= k < |db.markets[id].evidence| ==> db.markets[id].evidence[k].key != EventKey(input.source, input.event)
    ensures ObserveTx(db, id, input, demo, now).Ok? <==>
      && 1 <= Text.Bytes(input.event) <= 120 && 0 <= input.revision <= 1_000_000
      && 1 <= Text.Bytes(Text.Trim(input.reference)) && Text.Bytes(input.reference) <= 2000 && input.size <= 65536
      && id in db.markets
      && var mk := db.markets[id];
         var t := mk.row.terms;
         && (mk.row.phase == Open || mk.row.phase == Closed) && t.authority == Simulator
         && t.observationEnd <= now
         && ((demo && t.simulated && input.source == "polyntu-simulator-v1") || now < t.deadline)
         && input.source == t.source
         && input.windowStart == t.observationStart && input.windowEnd == t.observationEnd
         && Fits(t.rule, input.observation)
         && forall k :: 0 <= k < |mk.evidence| ==> mk.evidence[k].revision != input.revision
    ensures ObserveTx(db, id, input, demo, now).Ok? ==>
      var t, next := db.markets[id].row.terms, ObserveTx(db, id, input, demo, now).value;
      && id in next.markets && |next.markets[id].evidence| == |db.markets[id].evidence| + 1
      && var x := next.markets[id].evidence[|db.markets[id].evidence|];
         && GainsEvidence(db, next, id, x)
         && x == Evidence(EventKey(input.source, input.event), input.revision, t.observationEnd, Observed(input), x.result)
         && Means(t.rule, input.observation, t.observationStart, t.observationEnd, x.result)
  {
    hide Text.Bytes, Text.Trim, Evaluate, Means, Fits, Latest;
    if id in db.markets {
      var t := db.markets[id].row.terms;
      EvaluateMeans(t.rule, input.observation, t.observationStart, t.observationEnd);
    }
  }

  /** An event seen before, with the same content, changes nothing; with another content it is refused. */
  lemma RepeatedObservation(db: Db, id: MarketId, input: EvidenceInput, demo: bool, now: int, k: nat)
    requires InputBounded(input) && id in db.markets && k < |db.markets[id].evidence|
    requires db.markets[id].evidence[k].key == EventKey(input.source, input.event)
    requires var evidence := db.markets[id].evidence;
             forall i, j :: 0 <= i < j < |evidence| ==> evidence[i].key != evidence[j].key
    ensures ObserveTx(db, id, input, demo, now)
         == if db.markets[id].evidence[k].content == Observed(input) then Ok(db) else Err(Conflict(EventReused))
  {
    hide InputBounded, Evaluate, Latest;
    var evidence := db.markets[id].evidence;
    var found := FindEvent(evidence, EventKey(input.source, input.event)).value;
    var i :| 0 <= i < |evidence| && evidence[i] == found;
    assert evidence[i].key == evidence[k].key && !(i < k) && !(k < i);
    assert db.markets[id := db.markets[id]] == db.markets;
  }

  // ---- Creation and grants --------------------------------------------------------------------------------

  /** The named checks behind a creation. */
  lemma CreationCommits(e: Engine, db: Db, clock: int, id: MarketId, terms: Terms, demo: bool, now: int)
    requires SoundEngine(e) && Inv(e, db, clock)
    ensures var funding := e.funding(terms.liquidity, OutcomeCount(terms.rule));
            CreateTx(e, db, id, terms, demo, now).Ok? <==>
              && ValidRule(terms.rule) && funding.Ok?
              && TextValid(terms) && ModeValid(terms, demo) && TimesValid(terms, now)
              && CategoryFits(db, terms) && !SlotTaken(db, terms)
              && (terms.creator.Some? ==> User(terms.creator.value) in db.books.balances)
              && Reserve(id) !in db.books.balances && funding.value <= BalanceOf(db.books, Treasury)
    ensures CreateTx(e, db, id, terms, demo, now).Ok? ==>
      var next := CreateTx(e, db, id, terms, demo, now).value;
      var funding := e.funding(terms.liquidity, OutcomeCount(terms.rule)).value;
      && next.books.balances == db.books.balances[Reserve(id) := funding][Treasury := BalanceOf(db.books, Treasury) - funding]
      && next.markets == db.markets[id := NewMarket(terms)] && next.keys == db.keys
      && next.templates == db.templates[terms.template := CategoryOf(terms.rule)]
  {
    hide SlotTaken, TimesValid, TextValid, ModeValid, ValidRule, CategoryFits, MarketsKept, RefsKnown, Balanced;
    TreasuryKnown(db.books);
    assert FundsOpening(e, terms.liquidity, OutcomeCount(terms.rule));
    if Reserve(id) !in db.books.balances {
      UnknownIsUnused(db, Subsidy(id));
      AllReserved(e, db, clock);
    }
  }

  /** A creation commits exactly when its rule is valid, its liquidity can be funded within the budget,
      its texts have the published lengths, a simulated market is a demo's with the simulator as source,
      its times are ahead and in order and within a year, its template has the rule's category, no market
      of the template closes at the same time, its creator is known and its id is new; the ledger itself
      never refuses it. It then moves the funding from the treasury to a new reserve and opens an untraded
      market. */
  lemma CreationEffects(e: Engine, db: Db, clock: int, id: MarketId, terms: Terms, demo: bool, now: int)
    requires SoundEngine(e) && Inv(e, db, clock)
    ensures var t, funding := terms, e.funding(terms.liquidity, OutcomeCount(terms.rule));
            CreateTx(e, db, id, terms, demo, now).Ok? <==>
              && ValidRule(t.rule) && funding.Ok?
              && 5 <= Text.Bytes(Text.Trim(t.title)) && Text.Bytes(t.title) <= 240
              && 5 <= Text.Bytes(Text.Trim(t.criterion)) && Text.Bytes(t.criterion) <= 4000
              && 1 <= Text.Bytes(Text.Trim(t.source)) && Text.Bytes(t.source) <= 120
              && 1 <= Text.Bytes(t.template) <= 80
              && (t.simulated ==> demo && t.source == "polyntu-simulator-v1")
              && now < t.closeMs <= t.observationStart < t.observationEnd <= t.finalizeAfter < t.deadline
              && t.deadline <= now + 366 * 86_400_000
              && (t.template in db.templates ==> db.templates[t.template] == CategoryOf(t.rule))
              && (forall i :: i in db.markets ==>
                    !(db.markets[i].row.terms.template == t.template && db.markets[i].row.terms.closeMs == t.closeMs))
              && (t.creator.Some? ==> User(t.creator.value) in db.books.balances)
              && Reserve(id) !in db.books.balances && funding.value <= BalanceOf(db.books, Treasury)
    ensures CreateTx(e, db, id, terms, demo, now).Ok? ==>
      var next := CreateTx(e, db, id, terms, demo, now).value;
      var funding := e.funding(terms.liquidity, OutcomeCount(terms.rule)).value;
      && next.books.balances == db.books.balances[Reserve(id) := funding][Treasury := BalanceOf(db.books, Treasury) - funding]
      && id in next.markets && next.markets == db.markets[id := next.markets[id]] && next.keys == db.keys
      && next.templates == db.templates[terms.template := CategoryOf(terms.rule)]
      && NewlyOpen(next.markets[id], terms)
  {
    hide ValidRule, Inv, SoundEngine, CreateTx, Text.Bytes, Text.Trim;
    CreationCommits(e, db, clock, id, terms, demo, now);
  }

  /** Open, not suspended, nothing traded, observed, decided or claimed; its opening is its first event. */
  ghost predicate NewlyOpen(mk: Market, terms: Terms) {
    && mk.row.terms == terms && mk.row.phase == Open && !mk.row.suspended && mk.row.version == 0
    && |mk.row.inventory| == OutcomeCount(terms.rule)
    && (forall o :: 0 <= o < |mk.row.inventory| ==> mk.row.inventory[o] == 0)
    && mk.row.result == None && mk.row.evidenceId == None
    && mk.positions == map[] && mk.trades == [] && mk.claims == map[] && mk.evidence == []
    && mk.outbox == [OutboxRow(0, OpenedEvent)]
  }

  /** The named check behind a grant. */
  lemma GrantCommits(e: Engine, db: Db, clock: int, user: UserId, name: string, amount: nat)
    requires Inv(e, db, clock)
    ensures GrantTx(db, user, name, amount).Ok? <==>
      ValidName(Text.Trim(name)) && User(user) !in db.books.balances && amount <= BalanceOf(db.books, Treasury)
    ensures GrantTx(db, user, name, amount).Ok? ==>
      var next := GrantTx(db, user, name, amount).value;
      && next.books.balances == db.books.balances[User(user) := amount][Treasury := BalanceOf(db.books, Treasury) - amount]
      && next.markets == db.markets && next.keys == db.keys && next.templates == db.templates
  {
    hide MarketsKept, RefsKnown, Balanced, ValidName;
    TreasuryKnown(db.books);
    if User(user) !in db.books.balances {
      UnknownIsUnused(db, Grant(user));
    }
  }

  /** A grant commits exactly for a new account whose name, once trimmed, has 2 to 60 bytes and no
      control characters, within the budget, and moves just its amount. */
  lemma GrantEffects(e: Engine, db: Db, clock: int, user: UserId, name: string, amount: nat)
    requires Inv(e, db, clock)
    ensures var trimmed := Text.Trim(name);
            GrantTx(db, user, name, amount).Ok? <==>
              && 2 <= Text.Bytes(trimmed) <= 60
              && (forall i :: 0 <= i < |trimmed| ==> ' ' <= trimmed[i] && !('\U{7F}' <= trimmed[i] <= '\U{9F}'))
              && User(user) !in db.books.balances && amount <= BalanceOf(db.books, Treasury)
    ensures GrantTx(db, user, name, amount).Ok? ==>
      var next := GrantTx(db, user, name, amount).value;
      && next.books.balances == db.books.balances[User(user) := amount][Treasury := BalanceOf(db.books, Treasury) - amount]
      && next.markets == db.markets && next.keys == db.keys && next.templates == db.templates
  {
    hide Inv, GrantTx, Text.Bytes, Text.Trim;
    GrantCommits(e, db, clock, user, name, amount);
  }

  // ---- Suspension, closing and purging ----------------------------------------------------------------

  /** A suspension, or its end, commits exactly for an open market and a reason of 5 to 1000 bytes. It
      sets the flag and announces a new version, so that quotes given before are out of date. */
  lemma SuspensionEffects(db: Db, id: MarketId, suspended: bool, reason: string)
    ensures SuspendTx(db, id, suspended, reason).Ok? <==>
      && 5 <= Text.Bytes(Text.Trim(reason)) && Text.Bytes(reason) <= 1000
      && id in db.markets && db.markets[id].row.phase == Open
    ensures SuspendTx(db, id, suspended, reason).Ok? ==>
      var next, mk := SuspendTx(db, id, suspended, reason).value, db.markets[id];
      next == db.(markets := db.markets[id := mk.(
        row := mk.row.(suspended := suspended, version := mk.row.version + 1),
        outbox := mk.outbox + [OutboxRow(mk.row.version + 1, SuspensionEvent)])])
  {
    hide Text.Bytes, Text.Trim;
  }

  /** The closing pass closes exactly the listed markets that are open past their close, announcing each,
      and leaves everything else as it is. */
  lemma ClosingEffects(db: Db, ids: set<MarketId>, now: int, i: MarketId)
    requires i in db.markets
    ensures var mk, next := db.markets[i], CloseTx(db, ids, now);
            && next == db.(markets := next.markets) && next.markets.Keys == db.markets.Keys
            && next.markets[i]
               == if i in ids && mk.row.phase == Open && mk.row.terms.closeMs <= now
                  then mk.(row := mk.row.(phase := Closed, version := mk.row.version + 1),
                           outbox := mk.outbox + [OutboxRow(mk.row.version + 1, ClosedEvent)])
                  else mk
  {}

  /** The purge deletes exactly the listed brackets of a series that are settled and a day past their
      deadline. It moves no money and keeps every other row. */
  lemma PurgeEffects(e: Engine, db: Db, clock: int, ids: set<MarketId>, now: int)
    requires Inv(e, db, clock)
    ensures var next := PurgeTx(db, ids, now);
            && next == db.(markets := next.markets)
            && (forall i :: i in next.markets ==> i in db.markets && next.markets[i] == db.markets[i])
            && forall i :: i in db.markets ==>
                 var row := db.markets[i].row;
                 i !in next.markets <==>
                   && i in ids && row.terms.recurring && (row.phase == Resolved || row.phase == Voided)
                   && row.terms.deadline + 86_400_000 <= now
  {
    hide Inv, Purgeable;
    forall i | i in db.markets
      ensures Purgeable(db, i, now) <==>
        && db.markets[i].row.terms.recurring && Terminal(db.markets[i].row)
        && db.markets[i].row.terms.deadline <= now - BRACKET_RETENTION_MS
    {
      PurgeGuardNeverBlocks(e, db, clock, i, now);
    }
  }

  // ---- Amounts ----------------------------------------------------------------------------------------------

  /** The decimal digits of an amount, without leading zeros. */
  function Render(n: nat): (s: string)
    ensures s != [] && forall i :: 0 <= i < |s| ==> Digit(s[i])
  {
    var digit := ('0' as int + n % 10) as char;
    if n < 10 then [digit] else Render(n / 10) + [digit]
  }

  function Power10(k: nat): nat {
    if k == 0 then 1 else 10 * Power10(k - 1)
  }

  lemma {:induction false} RenderLength(n: nat, k: nat)
    requires k > 0 && n < Power10(k)
    ensures |Render(n)| <= k
    decreases k
  {
    if n >= 10 {
      RenderLength(n / 10, k - 1);
    }
  }

  lemma {:induction false} DecimalOfRender(n: nat)
    ensures Decimal(Render(n)) == n
  {
    var digit := ('0' as int + n % 10) as char;
    if n < 10 {
      assert [digit][..0] == [];
    } else {
      DecimalOfRender(n / 10);
      assert (Render(n / 10) + [digit])[..|Render(n / 10)|] == Render(n / 10);
    }
  }

  lemma {:induction false} DecimalBelow(s: string)
    requires forall i :: 0 <= i < |s| ==> Digit(s[i])
    ensures 0 <= Decimal(s) < Power10(|s|)
  {
    if s != [] {
      DecimalBelow(s[..|s| - 1]);
    }
  }

  /** Every amount of at most sixteen digits survives being written and parsed; and parsing refuses
      nothing but malformed text, for sixteen digits never overflow. */
  lemma AmountsRoundTrip(n: nat, value: string)
    ensures n < Power10(16) ==> ParseMicros(Render(n)) == Ok(n)
    ensures ParseMicros(value).Ok? <==> 0 < |value| <= 16 && forall i :: 0 <= i < |value| ==> Digit(value[i])
    ensures ParseMicros(value).Ok? ==> 0 <= ParseMicros(value).value < Power10(16)
  {
    hide Decimal, Power10, Render;
    SixteenDigits();
    if n < Power10(16) {
      RenderLength(n, 16);
      DecimalOfRender(n);
    }
    if 0 < |value| <= 16 && forall i :: 0 <= i < |value| ==> Digit(value[i]) {
      DecimalBelow(value);
      PowersGrow(|value|, 16);
    }
  }

  lemma {:induction false} PowersGrow(a: nat, b: nat)
    requires a <= b
    ensures Power10(a) <= Power10(b)
    decreases b
  {
    if a < b {
      PowersGrow(a, b - 1);
    }
  }

  lemma SixteenDigits()
    ensures Power10(16) == 10_000_000_000_000_000 < MAX_I64
  {
    assert Power10(4) == 10_000;
    assert Power10(8) == 100_000_000;
    assert Power10(12) == 1_000_000_000_000;
  }
}
