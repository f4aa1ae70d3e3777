/** The exchange's committed state and its database transactions, as functions. A transaction
    either commits, giving the next state, or aborts with an error and changes nothing. */
module Exchange {
  import opened Wrappers
  import opened Amm
  import opened PricingEngine
  import opened Fee
  import opened Books
  import opened Rules
  import Text

  const ENGINE_VERSION := "lmsr-decimal-v1"
  const CREATOR_SOURCE := "creator-signature"
  const RESOLVER_SOURCE := "external-resolver"
  const SIMULATOR_SOURCE := "polyntu-simulator-v1"
  const BRACKET_RETENTION_MS := 86_400_000
  const YEAR_MS := 366 * 86_400_000
  const BATCH := 100

  // ---- Rows ---------------------------------------------------------------------------------

  /** Who may resolve a market, fixed at creation. Markets without a series have `Simulator`. */
  datatype Authority = Simulator | Creator | Resolver

  /** The published, immutable columns of an instance. */
  datatype Terms = Terms(
    template: string,
    title: string,
    criterion: string,
    rule: Rule,
    source: string,
    simulated: bool,
    authority: Authority,
    recurring: bool,
    creator: Option<UserId>,
    feeCharged: bool,
    liquidity: int,
    closeMs: int,
    observationStart: int,
    observationEnd: int,
    finalizeAfter: int,
    deadline: int)

  datatype Phase = Open | Closed | Resolving | Resolved | Voided

  datatype EventKey = EventKey(source: string, event: string)

  /** One row of `instances`. */
  datatype Instance = Instance(
    terms: Terms,
    phase: Phase,
    suspended: bool,
    inventory: seq<int>,
    version: nat,
    result: Option<Resolution>,
    evidenceId: Option<EventKey>)

  datatype Trade = Trade(user: UserId, outcome: nat, side: Side, quantity: int, total: int, fee: int, version: nat, at: int)

  datatype Content =
    | Observed(input: EvidenceInput)
    | Stated(outcome: nat)

  /** A submitted observation; `size` is the length of its JSON text in bytes. */
  datatype EvidenceInput = EvidenceInput(
    source: string, event: string, revision: int, windowStart: int, windowEnd: int,
    observation: Observation, reference: string, size: nat)

  datatype Evidence = Evidence(key: EventKey, revision: int, received: int, content: Content, result: Option<Resolution>)

  datatype EventKind = OpenedEvent | TradeEvent | SuspensionEvent | ClosedEvent | EvidenceEvent | ResolvingEvent | TerminalEvent

  datatype OutboxRow = OutboxRow(version: nat, kind: EventKind)

  /** An instance with the rows that hang off it. */
  datatype Market = Market(
    row: Instance,
    positions: map<UserId, seq<int>>,
    trades: seq<Trade>,
    claims: map<UserId, int>,
    evidence: seq<Evidence>,
    outbox: seq<OutboxRow>)

  datatype QuoteClaims = QuoteClaims(
    user: UserId, market: MarketId, outcome: nat, side: Side, quantity: int,
    amount: int, fee: int, version: nat, expires: int, engine: string)

  /** The request body: the verified quote and the limit as the client wrote it. */
  datatype TradeRequest = TradeRequest(claims: QuoteClaims, limit: string)

  datatype Response = Response(
    market: MarketId, outcome: nat, side: Side, quantity: int, total: int, fee: int,
    balance: int, owned: int, version: nat, at: int)

  datatype KeyRow = KeyRow(request: TradeRequest, response: Option<Response>)

  datatype Db = Db(
    books: Books,
    markets: map<MarketId, Market>,
    keys: map<(UserId, string), KeyRow>,
    templates: map<string, Category>)

  // ---- Columns and derived values -----------------------------------------------------------

  function Outcomes(row: Instance): nat {
    |row.inventory|
  }

  predicate Tradable(row: Instance, now: int) {
    row.phase == Open && !row.suspended && now < row.terms.closeMs
  }

  predicate Terminal(row: Instance) {
    row.phase == Resolved || row.phase == Voided
  }

  /** A user's shares in each outcome; no position row is the same as a fully sold position. */
  function Holding(mk: Market, user: UserId): (quantities: seq<int>)
    ensures |quantities| == Outcomes(mk.row)
  {
    if user in mk.positions && |mk.positions[user]| == Outcomes(mk.row) then mk.positions[user]
    else Zeros(Outcomes(mk.row))
  }

  function Fees(trades: seq<Trade>): int {
    if trades == [] then 0 else Fees(trades[..|trades| - 1]) + trades[|trades| - 1].fee
  }

  function Total(quantities: seq<int>): int {
    if quantities == [] then 0
    else Total(quantities[..|quantities| - 1]) + quantities[|quantities| - 1]
  }

  predicate HasShares(quantities: seq<int>) {
    exists o :: 0 <= o < |quantities| && quantities[o] > 0
  }

  /** What a holder is credited for its quantities. */
  function Credit(result: Resolution, outcomes: nat, quantities: seq<int>): int {
    match result
    case Winner(o) => (if o < |quantities| then quantities[o] else 0) * 1000
    case Void => if outcomes == 0 then 0 else Quotient(Total(quantities) * 1000, outcomes)
  }

  /** Holders without a claim. */
  function Unclaimed(mk: Market): set<UserId> {
    set u | u in mk.positions && HasShares(mk.positions[u]) && u !in mk.claims
  }

  /** An instance update: the version advances once and one event announces it. */
  function Announce(mk: Market, row: Instance, kind: EventKind): Market {
    var version := mk.row.version + 1;
    mk.(row := row.(version := version), outbox := mk.outbox + [OutboxRow(version, kind)])
  }

  // ---- Accounts and market creation ---------------------------------------------------------

  function Reserved(b: Books, id: MarketId): int {
    BalanceOf(b, Reserve(id))
  }

  /** A new account with its first transfer, from the treasury. */
  function OpenFunded(b: Books, a: AccountId, amount: int, ref: Ref): Result<Books> {
    var b :- OpenAccount(b, a);
    var _ :- Need(BalanceOf(b, Treasury) >= amount, Conflict(BudgetExhausted));
    Post(b, Transfer(Treasury, a, amount, ref))
  }

  /** A display name, once trimmed. */
  predicate ValidName(name: string) {
    2 <= Text.Bytes(name) <= 60 && forall i :: 0 <= i < |name| ==> !Text.IsControl(name[i])
  }

  function GrantTx(db: Db, user: UserId, name: string, amount: int): Result<Db> {
    var _ :- Need(ValidName(Text.Trim(name)), Invalid);
    var b :- OpenFunded(db.books, User(user), amount, Grant(user));
    Ok(db.(books := b))
  }

  predicate TimesOrdered(t: Terms) {
    t.closeMs <= t.observationStart < t.observationEnd <= t.finalizeAfter < t.deadline
  }

  predicate TimesValid(t: Terms, now: int) {
    now < t.closeMs && TimesOrdered(t) && t.deadline <= now + YEAR_MS
  }

  predicate TextValid(t: Terms) {
    && Text.Within(t.title, 5, 240) && Text.Within(t.criterion, 5, 4000)
    && 0 < Text.Bytes(t.template) <= 80 && Text.Within(t.source, 1, 120)
  }

  /** Simulated markets exist in demo mode only, and use the simulator as their source. */
  predicate ModeValid(t: Terms, demo: bool) {
    t.simulated ==> demo && t.source == SIMULATOR_SOURCE
  }

  predicate SpecValid(t: Terms, demo: bool, now: int) {
    TextValid(t) && ModeValid(t, demo) && TimesValid(t, now)
  }

  /** The template is new or has the rule's category. */
  predicate CategoryFits(db: Db, t: Terms) {
    t.template in db.templates ==> db.templates[t.template] == CategoryOf(t.rule)
  }

  function NewMarket(terms: Terms): Market {
    Market(
      Instance(terms, Open, false, Zeros(OutcomeCount(terms.rule)), 0, None, None),
      map[], [], map[], [], [OutboxRow(0, OpenedEvent)])
  }

  predicate SlotTaken(db: Db, terms: Terms) {
    exists i :: i in db.markets
      && db.markets[i].row.terms.template == terms.template
      && db.markets[i].row.terms.closeMs == terms.closeMs
  }

  function CreateTx(e: Engine, db: Db, id: MarketId, terms: Terms, demo: bool, now: int): Result<Db>
  {
    var _ :- Need(ValidRule(terms.rule), Invalid);
    var funding :- e.funding(terms.liquidity, OutcomeCount(terms.rule));
    var _ :- Need(SpecValid(terms, demo, now), Invalid);
    var _ :- Need(CategoryFits(db, terms), Invalid);
    var _ :- Need(!SlotTaken(db, terms), Conflict(InstanceExists));
    var _ :- Need(terms.creator.Some? ==> User(terms.creator.value) in db.books.balances, Invalid);
    var b :- OpenFunded(db.books, Reserve(id), funding, Subsidy(id));
    var _ :- Need(id !in db.markets, Internal);
    Ok(db.(books := b, markets := db.markets[id := NewMarket(terms)],
           templates := db.templates[terms.template := CategoryOf(terms.rule)]))
  }

  // ---- Trading ------------------------------------------------------------------------------

  predicate Digit(c: char) {
    '0' <= c <= '9'
  }

  function Decimal(digits: string): int {
    if digits == [] then 0
    else 10 * Decimal(digits[..|digits| - 1]) + (digits[|digits| - 1] as int - '0' as int)
  }

  function ParseMicros(value: string): Result<int> {
    if value == [] || |value| > 16 || exists i :: 0 <= i < |value| && !Digit(value[i])
    then Err(Invalid)
    else ToI64(Decimal(value))
  }

  /** What the engine and the fee policy say about a quoted trade on a locked instance. */
  datatype Deal = Deal(inventory: seq<int>, amount: int, fee: int, total: int)

  function Quote(e: Engine, row: Instance, outcome: nat, side: Side, quantity: int): Result<Deal>
  {
    var _ :- Need(outcome < Outcomes(row), Invalid);
    var c :- e.calculate(row.inventory, row.terms.liquidity, outcome, side, quantity, row.version);
    var total :- Charged(c.amount, side, row.terms.feeCharged);
    Ok(Deal(c.inventory, c.amount, FeeOf(c.amount, row.terms.feeCharged), total))
  }

  /** The signed quote a client gets from a row, which may be stale. */
  function QuoteTx(e: Engine, row: Instance, id: MarketId, user: UserId, held: int,
                   outcome: nat, side: Side, quantity: int, now: int): Result<QuoteClaims>
  {
    var _ :- Need(Tradable(row, now), Conflict(MarketClosed));
    var _ :- Need(row.terms.creator != Some(user), Conflict(CreatorTrades));
    var _ :- Need(outcome < Outcomes(row), Invalid);
    var _ :- Need(side == Sell ==> quantity <= held, Conflict(NotEnoughShares));
    var deal :- Quote(e, row, outcome, side, quantity);
    Ok(QuoteClaims(user, id, outcome, side, quantity, deal.amount, deal.fee, row.version,
                   if now + 15_000 <= row.terms.closeMs then now + 15_000 else row.terms.closeMs,
                   ENGINE_VERSION))
  }

  /** The checks made under the instance lock, in order. */
  function Recheck(e: Engine, row: Instance, c: QuoteClaims, limit: int, now: int): Result<Deal>
  {
    var _ :- Need(Tradable(row, now), Conflict(MarketClosed));
    var _ :- Need(row.terms.creator != Some(c.user), Conflict(CreatorTrades));
    var _ :- Need(now < c.expires, Conflict(QuoteExpired));
    var _ :- Need(c.version == row.version, Conflict(PriceChanged));
    var deal :- Quote(e, row, c.outcome, c.side, c.quantity);
    var _ :- Need(deal.amount == c.amount, Conflict(QuoteChanged));
    var _ :- Need(deal.fee == c.fee, Conflict(QuoteChanged));
    var _ :- Need(if c.side == Buy then deal.total <= limit else limit <= deal.total, Conflict(LimitExceeded));
    Ok(deal)
  }

  /** The checks on balances, holdings and reserve, under the account locks. */
  function Fund(db: Db, mk: Market, c: QuoteClaims, deal: Deal): Result<()>
    requires c.outcome < Outcomes(mk.row)
  {
    var buy := c.side == Buy;
    var _ :- Need(User(c.user) in db.books.balances, Internal);
    var _ :- Need(Reserve(c.market) in db.books.balances, Internal);
    var _ :- Need(buy ==> deal.total <= db.books.balances[User(c.user)], Conflict(InsufficientUnits));
    var _ :- Need(!buy ==> c.quantity <= Holding(mk, c.user)[c.outcome], Conflict(NotEnoughShares));
    var after := db.books.balances[Reserve(c.market)] + (if buy then deal.total else -deal.total);
    Need(if |deal.inventory| > 0 then 1000 * Max(deal.inventory) <= after else 0 <= after,
         Conflict(ReserveCoverage))
  }

  function TradeTransfer(c: QuoteClaims, deal: Deal, version: nat): Transfer {
    if c.side == Buy
    then Transfer(User(c.user), Reserve(c.market), deal.total, TradeOf(c.market, version))
    else Transfer(Reserve(c.market), User(c.user), deal.total, TradeOf(c.market, version))
  }

  /** Every write of a trade on its market: position, inventory and version, trade, event. */
  function TradedMarket(mk: Market, c: QuoteClaims, deal: Deal, now: int): Market
    requires c.outcome < Outcomes(mk.row)
  {
    var held := Holding(mk, c.user);
    var owned := held[c.outcome] + Delta(c.side, c.quantity);
    var n := Announce(mk, mk.row.(inventory := deal.inventory), TradeEvent);
    n.(positions := mk.positions[c.user := held[c.outcome := owned]],
       trades := mk.trades + [Trade(c.user, c.outcome, c.side, c.quantity, deal.total, deal.fee, n.row.version, now)])
  }

  function TradeResponse(db: Db, mk: Market, c: QuoteClaims, deal: Deal, now: int): Response
    requires c.outcome < Outcomes(mk.row)
  {
    Response(c.market, c.outcome, c.side, c.quantity, deal.total, deal.fee,
             BalanceOf(db.books, User(c.user)) + (if c.side == Buy then -deal.total else deal.total),
             Holding(mk, c.user)[c.outcome] + Delta(c.side, c.quantity),
             mk.row.version + 1, now)
  }

  /** The funding checks and every write of a trade. */
  function CommitTrade(db: Db, key: string, request: TradeRequest, deal: Deal, now: int): Result<(Db, Response)>
    requires request.claims.market in db.markets
    requires request.claims.outcome < Outcomes(db.markets[request.claims.market].row)
  {
    var c := request.claims;
    var mk := db.markets[c.market];
    var _ :- Fund(db, mk, c, deal);
    var b :- Post(db.books, TradeTransfer(c, deal, mk.row.version + 1));
    var response := TradeResponse(db, mk, c, deal, now);
    Ok((Db(b,
           db.markets[c.market := TradedMarket(mk, c, deal, now)],
           db.keys[(c.user, key) := KeyRow(request, Some(response))],
           db.templates),
        response))
  }

  /** One attempt at a trade, after the token was verified and the limit parsed. */
  function ExecuteOnce(
      e: Engine, db: Db, key: string, request: TradeRequest, limit: int, now: int
    ): Result<(Db, Response)>
  {
    var c, slot := request.claims, (request.claims.user, key);
    if slot in db.keys && db.keys[slot].request != request then Err(Conflict(KeyReused))
    else if slot in db.keys && db.keys[slot].response.Some? then Ok((db, db.keys[slot].response.value))
    else
      var _ :- Need(c.market in db.markets, NotFound);
      var deal :- Recheck(e, db.markets[c.market].row, c, limit, now);
      CommitTrade(db, key, request, deal, now)
  }

  predicate KeyWellFormed(key: string) {
    && 0 < |key| <= 120
    && forall i :: 0 <= i < |key| ==>
         Digit(key[i]) || 'a' <= key[i] <= 'z' || 'A' <= key[i] <= 'Z' || key[i] == '-' || key[i] == '_'
  }

  /** A trade request that meets no transient database failure. */
  function ExecuteTx(
      e: Engine, db: Db, user: UserId, key: string, request: TradeRequest, now: int
    ): Result<(Db, Response)>
  {
    var _ :- Need(KeyWellFormed(key), Invalid);
    var _ :- Need(request.claims.user == user && request.claims.engine == ENGINE_VERSION, Unauthorized);
    var limit :- ParseMicros(request.limit);
    ExecuteOnce(e, db, key, request, limit, now)
  }

  // ---- Lifecycle ----------------------------------------------------------------------------

  predicate Due(mk: Market, now: int) {
    mk.row.phase == Open && mk.row.terms.closeMs <= now
  }

  function ClosedMarket(mk: Market): Market {
    Announce(mk, mk.row.(phase := Closed), ClosedEvent)
  }

  /** Closes the due instances among `ids`: those not locked by another transaction. */
  function CloseTx(db: Db, ids: set<MarketId>, now: int): Db {
    db.(markets := map i | i in db.markets ::
      if i in ids && Due(db.markets[i], now) then ClosedMarket(db.markets[i]) else db.markets[i])
  }

  function SuspendTx(db: Db, id: MarketId, suspended: bool, reason: string): Result<Db> {
    var _ :- Need(Text.Within(reason, 5, 1000), Invalid);
    var _ :- Need(id in db.markets, NotFound);
    var mk := db.markets[id];
    var _ :- Need(mk.row.phase == Open, Conflict(NotOpen));
    Ok(db.(markets := db.markets[id := Announce(mk, mk.row.(suspended := suspended), SuspensionEvent)]))
  }

  // ---- Evidence -----------------------------------------------------------------------------

  /** The row with the highest source revision. */
  function Latest(evidence: seq<Evidence>): Option<Evidence> {
    if evidence == [] then None
    else
      var last, rest := evidence[|evidence| - 1], Latest(evidence[..|evidence| - 1]);
      if rest.Some? && rest.value.revision >= last.revision then rest else Some(last)
  }

  function FindEvent(evidence: seq<Evidence>, key: EventKey): (r: Option<Evidence>)
    ensures r.Some? ==> r.value in evidence && r.value.key == key
    ensures r.None? ==> forall i :: 0 <= i < |evidence| ==> evidence[i].key != key
  {
    if evidence == [] then None
    else if evidence[|evidence| - 1].key == key then Some(evidence[|evidence| - 1])
    else FindEvent(evidence[..|evidence| - 1], key)
  }

  predicate HasSource(evidence: seq<Evidence>, source: string) {
    exists i :: 0 <= i < |evidence| && evidence[i].key.source == source
  }

  predicate HasRevision(evidence: seq<Evidence>, revision: int) {
    exists i :: 0 <= i < |evidence| && evidence[i].revision == revision
  }

  predicate InputBounded(input: EvidenceInput) {
    && 0 < Text.Bytes(input.event) <= 120
    && 0 <= input.revision <= 1_000_000
    && Text.Within(input.reference, 1, 2000)
    && input.size <= 65536
  }

  function WithEvidence(mk: Market, e: Evidence, evidenceId: Option<EventKey>): Market {
    Announce(mk, mk.row.(evidenceId := evidenceId), EvidenceEvent).(evidence := mk.evidence + [e])
  }

  /** Records one simulated observation; the same event again changes nothing. */
  function ObserveMarket(mk: Market, input: EvidenceInput, demo: bool, now: int): Result<Market> {
    var row, key := mk.row, EventKey(input.source, input.event);
    var found := FindEvent(mk.evidence, key);
    if found.Some? then
      (if found.value.content == Observed(input) then Ok(mk) else Err(Conflict(EventReused)))
    else
      var _ :- Need(row.phase == Open || row.phase == Closed, Conflict(AlreadyFinal));
      var _ :- Need(row.terms.authority == Simulator, Invalid);
      var replay := demo && row.terms.simulated && input.source == SIMULATOR_SOURCE;
      var _ :- Need(row.terms.observationEnd <= now, Conflict(WindowOpen));
      var _ :- Need(replay || now < row.terms.deadline, Conflict(DeadlinePassed));
      var _ :- Need(input.source == row.terms.source
                    && input.windowStart == row.terms.observationStart
                    && input.windowEnd == row.terms.observationEnd, Invalid);
      var result :- Evaluate(row.terms.rule, input.observation, row.terms.observationStart, row.terms.observationEnd);
      var _ :- Need(!HasRevision(mk.evidence, input.revision), Conflict(RevisionExists));
      var e := Evidence(key, input.revision, row.terms.observationEnd, Observed(input), result);
      var top := Latest(mk.evidence + [e]);
      Ok(WithEvidence(mk, e, if top.Some? then Some(top.value.key) else None))
  }

  /** Records a creator's resolution; `signed` says that its signature verifies. */
  function CreatorResolves(
      mk: Market, submitter: UserId, outcome: nat, event: string, signed: bool, now: int
    ): Result<Market> {
    var row := mk.row;
    var _ :- Need(row.terms.authority == Creator, Invalid);
    var _ :- Need(row.terms.creator == Some(submitter), Forbidden);
    var _ :- Need(row.phase == Closed, Conflict(NotClosed));
    var _ :- Need(row.terms.observationEnd <= now, Conflict(WindowOpen));
    var _ :- Need(now < row.terms.deadline, Conflict(DeadlinePassed));
    var _ :- Need(!HasSource(mk.evidence, CREATOR_SOURCE), Conflict(AlreadyResolved));
    var _ :- Need(signed, Invalid);
    var _ :- Need(outcome < Outcomes(row), Invalid);
    var key := EventKey(CREATOR_SOURCE, event);
    Ok(WithEvidence(mk, Evidence(key, 0, now, Stated(outcome), Some(Winner(outcome))), Some(key)))
  }

  /** Records an external resolver's answer; a second answer changes nothing. */
  function ResolverAnswers(mk: Market, outcome: nat, event: string, replay: bool, now: int): Result<Market> {
    var row := mk.row;
    var _ :- Need(row.phase == Open || row.phase == Closed, Conflict(AlreadyFinal));
    var _ :- Need(replay || now < row.terms.deadline, Conflict(DeadlinePassed));
    if HasSource(mk.evidence, RESOLVER_SOURCE) then Ok(mk)
    else
      var _ :- Need(outcome < Outcomes(row), Invalid);
      var key := EventKey(RESOLVER_SOURCE, event);
      Ok(WithEvidence(mk, Evidence(key, 0, now, Stated(outcome), Some(Winner(outcome))), Some(key)))
  }

  function ObserveTx(db: Db, id: MarketId, input: EvidenceInput, demo: bool, now: int): Result<Db> {
    var _ :- Need(InputBounded(input), Invalid);
    var _ :- Need(id in db.markets, NotFound);
    var mk :- ObserveMarket(db.markets[id], input, demo, now);
    Ok(db.(markets := db.markets[id := mk]))
  }

  function CreatorTx(
      db: Db, id: MarketId, submitter: UserId, outcome: nat, event: string, nonce: string, signed: bool,
      now: int
    ): Result<Db> {
    var _ :- Need(0 < Text.Bytes(Text.Trim(nonce)) <= 120, Invalid);
    var _ :- Need(id in db.markets, NotFound);
    var mk :- CreatorResolves(db.markets[id], submitter, outcome, event, signed, now);
    Ok(db.(markets := db.markets[id := mk]))
  }

  function ResolverTx(db: Db, id: MarketId, outcome: nat, event: string, replay: bool, now: int): Result<Db> {
    var _ :- Need(id in db.markets, NotFound);
    var mk :- ResolverAnswers(db.markets[id], outcome, event, replay, now);
    Ok(db.(markets := db.markets[id := mk]))
  }

  // ---- Settlement ---------------------------------------------------------------------------

  /** The result a closed market is finalized with at `now`, if it can be finalized. */
  function FinalResult(mk: Market, now: int): Option<Resolution> {
    var latest := Latest(mk.evidence);
    if now < mk.row.terms.finalizeAfter then None
    else if latest.Some? && latest.value.result.Some? then latest.value.result
    else if mk.row.terms.deadline <= now then Some(Void)
    else None
  }

  function FinalizedMarket(mk: Market, result: Resolution): Market {
    Announce(mk, mk.row.(phase := Resolving, result := Some(result)), ResolvingEvent)
  }

  /** The market as `settle_batch` sees it after its finalization step. */
  function Finalize(mk: Market, now: int): Market {
    if mk.row.phase == Closed && FinalResult(mk, now).Some?
    then FinalizedMarket(mk, FinalResult(mk, now).value)
    else mk
  }

  /** The accounts one batch may select: distinct unclaimed holders, at most a hundred, and all of
      them when fewer remain. */
  predicate ValidBatch(mk: Market, batch: seq<UserId>) {
    && (forall i :: 0 <= i < |batch| ==> batch[i] in Unclaimed(mk))
    && (forall i, j :: 0 <= i < j < |batch| ==> batch[i] != batch[j])
    && |batch| <= BATCH
    && (|batch| < BATCH ==> forall u :: u in Unclaimed(mk) ==> u in batch)
  }

  datatype Settling = Settling(books: Books, market: Market)

  /** Pays one claim. */
  function PayClaim(s: Settling, id: MarketId, user: UserId): Result<Settling> {
    var mk := s.market;
    var _ :- Need(mk.row.result.Some?, Internal);
    var credit := Credit(mk.row.result.value, Outcomes(mk.row), Holding(mk, user));
    var _ :- Need(credit <= Reserved(s.books, id), Internal);
    var b :- Post(s.books, Transfer(Reserve(id), User(user), credit, Claim(id, user)));
    var _ :- Need(user !in mk.claims, Internal);
    Ok(Settling(b, mk.(claims := mk.claims[user := credit])))
  }

  function PayClaims(s: Settling, id: MarketId, batch: seq<UserId>): Result<Settling> {
    if batch == [] then Ok(s)
    else
      var before :- PayClaims(s, id, batch[..|batch| - 1]);
      PayClaim(before, id, batch[|batch| - 1])
  }

  function PostIf(b: Books, condition: bool, t: Transfer): Result<Books> {
    if condition then Post(b, t) else Ok(b)
  }

  /** The closing transfers: the release, then the split of the fee pot. */
  function Drain(b: Books, mk: Market, id: MarketId): Result<Books> {
    var creator := mk.row.terms.creator;
    var unused, fees := Reserved(b, id), Fees(mk.trades);
    var cut := CreatorShare(fees, creator.Some?);
    var b :- Post(b, Transfer(Reserve(id), Treasury, unused - fees, Release(id)));
    var b :- PostIf(b, fees - cut > 0, Transfer(Reserve(id), Treasury, fees - cut, FeeToTreasury(id)));
    PostIf(b, creator.Some? && cut > 0,
           Transfer(Reserve(id), User(if creator.Some? then creator.value else 0), cut, FeeToCreator(id)))
  }

  function TerminalMarket(mk: Market): Market {
    Announce(mk, mk.row.(phase := if mk.row.result == Some(Void) then Voided else Resolved), TerminalEvent)
  }

  function CloseOut(s: Settling, id: MarketId): Result<Settling> {
    if Unclaimed(s.market) != {} then Ok(s)
    else
      var b :- Drain(s.books, s.market, id);
      Ok(Settling(b, TerminalMarket(s.market)))
  }

  /** One settlement transaction, for the batch of accounts it selected. */
  function SettleTx(db: Db, id: MarketId, batch: seq<UserId>, now: int): Result<Db> {
    var _ :- Need(id in db.markets, NotFound);
    var mk := Finalize(db.markets[id], now);
    if mk.row.phase != Resolving then Ok(db)
    else
      var _ :- Need(mk.row.result.Some?, Internal);
      var paid :- PayClaims(Settling(db.books, mk), id, batch);
      var s :- CloseOut(paid, id);
      Ok(db.(books := s.books, markets := db.markets[id := s.market]))
  }

  // ---- Purge --------------------------------------------------------------------------------

  predicate Purgeable(db: Db, id: MarketId, now: int)
    requires id in db.markets
  {
    var row := db.markets[id].row;
    && row.terms.recurring && Terminal(row)
    && row.terms.deadline <= now - BRACKET_RETENTION_MS
    && Reserve(id) in db.books.balances && db.books.balances[Reserve(id)] == 0
  }

  /** Deletes the purgeable markets among `ids` with all their rows; the books keep everything. */
  function PurgeTx(db: Db, ids: set<MarketId>, now: int): Db {
    db.(markets := map i | i in db.markets && !(i in ids && Purgeable(db, i, now)) :: db.markets[i])
  }
}
