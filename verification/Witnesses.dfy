/** Concrete runs of the exchange on which a stated property fails: a market whose resolver answers
    before its observation window has ended, and one whose history is longer than the query reads. */
module Witnesses {
  import opened Wrappers
  import opened RealMath
  import opened Amm
  import opened Lmsr
  import opened PricingEngine
  import opened Books
  import opened Rules
  import opened Exchange
  import opened Invariant
  import opened Preservation
  import opened Transactions
  import opened Runs
  import opened Audit
  import opened Theorems
  import opened Effects
  import opened PriceHistory
  import opened FaithfulHistory
  import Scheduler
  import Schedule
  import Text

  // ---- A market just opened -------------------------------------------------------------------------

  function SampleTerms(): Terms {
    Terms("sample", "Sample", "Condition", OtherRule("condition"), "source", false, Resolver, false, None, false,
          10, 1_000_000, 1_000_000, 2_000_000, 2_000_000, 3_000_000)
  }

  const GRANT := 10_000_000

  /** A user is granted units, and a market is created. */
  function Opening(): seq<Step> {
    [Step(GrantOp(0, "Trader", GRANT), 0), Step(CreateOp(0, SampleTerms(), false), 0)]
  }

  function OpenState(m: Math): State
    requires Laws(m)
  {
    Run(LmsrEngine(m), Genesis(), Opening())
  }

  /** Printable text without white space is as long as it is, and nothing is trimmed. */
  lemma PlainText(s: string)
    requires s != "" && forall i :: 0 <= i < |s| ==> '!' <= s[i] <= '~'
    ensures Text.Trim(s) == s && Text.Bytes(s) == |s|
  {
    hide Text.Bytes;
    Schedule.AsciiBytes(s);
    assert !Text.IsSpace(s[0]) && !Text.IsSpace(s[|s| - 1]);
  }

  lemma SampleIsValid()
    ensures ValidRule(SampleTerms().rule) && SpecValid(SampleTerms(), false, 0) && ValidName(Text.Trim("Trader"))
  {
    hide Text.Bytes, Text.Trim;
    PlainText("sample");
    PlainText("Sample");
    PlainText("Condition");
    PlainText("condition");
    PlainText("source");
    PlainText("Trader");
  }

  lemma SampleIsFunded(m: Math)
    requires Laws(m)
    ensures Funding(m, 10, 2).Ok? && Funding(m, 10, 2).value <= 10_000_002
  {
    hide Laws;
    FundingCoversOpening(m, 10, 2);
    OpeningCost(m, 10, 2);
    LnBelowLine(m, 2.0);
    MulLe(m.ln(2.0), 1.0, Scale(10));
  }

  lemma GenesisBooks()
    ensures var db := Genesis().db;
            && db.books.balances.Keys == {Issuance, Treasury} && BalanceOf(db.books, Treasury) == TOTAL_ISSUANCE
            && db.markets == map[] && db.keys == map[] && db.templates == map[]
  {}

  /** The state the opening leads to. */
  ghost predicate JustOpened(s: State) {
    && s.clock == 0 && s.db.markets == map[0 := NewMarket(SampleTerms())] && s.db.keys == map[]
    && User(0) in s.db.books.balances && s.db.books.balances[User(0)] == GRANT
  }

  ghost predicate Granted(s: State) {
    && s.clock == 0 && s.db.markets == map[] && s.db.keys == map[] && s.db.templates == map[]
    && User(0) in s.db.books.balances && s.db.books.balances[User(0)] == GRANT
    && Reserve(0) !in s.db.books.balances && BalanceOf(s.db.books, Treasury) == TOTAL_ISSUANCE - GRANT
  }

  lemma AppliedGrant(e: Engine, s: State, user: UserId, name: string, amount: int, now: int)
    requires GrantTx(s.db, user, name, amount).Ok?
    ensures Next(e, s, Step(GrantOp(user, name, amount), now)) == State(GrantTx(s.db, user, name, amount).value, now)
  {
    hide GrantTx;
  }

  lemma AppliedCreation(e: Engine, s: State, id: MarketId, terms: Terms, demo: bool, now: int)
    requires CreateTx(e, s.db, id, terms, demo, now).Ok?
    ensures Next(e, s, Step(CreateOp(id, terms, demo), now)) == State(CreateTx(e, s.db, id, terms, demo, now).value, now)
  {
    hide CreateTx;
  }

  lemma GrantIsMade(e: Engine, g: State)
    requires Inv(e, g.db, 0) && g.db.books.balances.Keys == {Issuance, Treasury}
    requires g.db.markets == map[] && g.db.keys == map[] && g.db.templates == map[]
    requires BalanceOf(g.db.books, Treasury) == TOTAL_ISSUANCE
    ensures Granted(Next(e, g, Opening()[0]))
  {
    hide Inv, GrantTx, ValidName, Next, ValidRule, SpecValid, SampleTerms;
    SampleIsValid();
    GrantCommits(e, g.db, 0, 0, "Trader", GRANT);
    assert Opening()[0] == Step(GrantOp(0, "Trader", GRANT), 0);
    hide Opening, Text.Trim;
    AppliedGrant(e, g, 0, "Trader", GRANT, 0);
  }

  lemma MarketIsOpened(m: Math, s: State)
    requires Laws(m) && Inv(LmsrEngine(m), s.db, 0) && SoundEngine(LmsrEngine(m)) && Granted(s)
    ensures JustOpened(Next(LmsrEngine(m), s, Opening()[1]))
  {
    hide Laws, Inv, SoundEngine, SpecValid, ValidRule, CreateTx, NewMarket, Funding, Next;
    var e, terms := LmsrEngine(m), SampleTerms();
    SampleIsValid();
    SampleIsFunded(m);
    assert e.funding(terms.liquidity, OutcomeCount(terms.rule)) == Funding(m, 10, 2);
    SpecParts(terms);
    hide TextValid, ModeValid, TimesValid;
    CreationCommits(e, s.db, 0, 0, terms, false, 0);
    AppliedCreation(e, s, 0, terms, false, 0);
    assert s.db.markets[0 := NewMarket(terms)] == map[0 := NewMarket(terms)];
  }

  lemma SpecParts(t: Terms)
    requires SpecValid(t, false, 0)
    ensures TextValid(t) && ModeValid(t, false) && TimesValid(t, 0)
  {
    hide TextValid, ModeValid, TimesValid;
  }

  lemma GenesisClock()
    ensures Genesis().clock == 0
  {}

  lemma OpeningOpens(m: Math)
    requires Laws(m)
    ensures SoundEngine(LmsrEngine(m)) && LegalRun(LmsrEngine(m), Genesis(), Opening())
    ensures Reachable(LmsrEngine(m), OpenState(m)) && JustOpened(OpenState(m))
  {
    hide Laws, Inv, SoundEngine, Next, Genesis, Reachable, LmsrEngine, Granted, JustOpened, Audited;
    var e := LmsrEngine(m);
    EngineIsSound(m);
    GenesisBooks();
    GenesisIsSound(e);
    GenesisClock();
    OpeningRuns(e);
    GrantIsMade(e, Genesis());
    NextKeepsInv(e, Genesis(), Opening()[0]);
    NextClock(e, Genesis(), Opening()[0]);
    MarketIsOpened(m, Next(e, Genesis(), Opening()[0]));
  }

  lemma EngineIsSound(m: Math)
    requires Laws(m)
    ensures SoundEngine(LmsrEngine(m))
  {
    var quiet := Noise((_, _) => 0.0, 0.0, (_, _, _, _, _, _) => 0.0, _ => 0.0);
    forall version ensures ErrorUpTo(quiet, version) <= 1.0 {
      QuietErrors(quiet, version);
    }
    LmsrIsSound(m, quiet);
  }

  lemma {:induction false} QuietErrors(noise: Noise, version: nat)
    requires noise.slack == 0.0 && forall v :: noise.bound(v) == 0.0
    ensures ErrorUpTo(noise, version) == 0.0
  {
    if version > 0 {
      QuietErrors(noise, version - 1);
    }
  }

  lemma OpeningRuns(e: Engine)
    ensures LegalRun(e, Genesis(), Opening())
    ensures Run(e, Genesis(), Opening()) == Next(e, Next(e, Genesis(), Opening()[0]), Opening()[1])
    ensures Reachable(e, Run(e, Genesis(), Opening()))
  {
    hide Next;
    var steps := Opening();
    assert steps[..0] == [] && steps[..1] == [steps[0]] && steps[..1][..0] == [];
    assert Run(e, Genesis(), steps[..1]) == Next(e, Genesis(), steps[0]);
    GenesisClock();
    NextClock(e, Genesis(), steps[0]);
  }

  lemma NextClock(e: Engine, s: State, step: Step)
    ensures Next(e, s, step).clock == step.now
  {}

  // ---- An answer before the window's end -------------------------------------------------------------

  /** The recorder takes a resolver's answer for an open market a second after its creation, and the
      evidence is then out of order: received before the observation window has ended. */
  lemma EarlyAnswerIsAccepted(m: Math)
    requires Laws(m)
    ensures var e, s := LmsrEngine(m), OpenState(m);
            var answered := ResolverTx(s.db, 0, 0, "answer", false, 1000);
            && Reachable(e, s) && 0 in s.db.markets && s.db.markets[0].row.phase == Open
            && answered.Ok? && !Inv(e, answered.value, 1000)
  {
    hide Laws, SoundEngine, Inv, Reachable, Audited, OpenState;
    var e, s := LmsrEngine(m), OpenState(m);
    OpeningOpens(m);
    ReachableIsSound(e, s);
    ResolverKeepsInv(e, s.db, s.clock, 0, 0, "answer", false, 1000);
  }

  // ---- A history longer than the query reads ------------------------------------------------------------

  /** The price of the next thousandth of a share, `k` having been bought. */
  function NextAmount(m: Math, k: nat): int
    requires Laws(m)
  {
    match Calculate(m, [k, 0], 10, 0, Buy, 1)
    case Ok(c) => c.amount
    case Err(_) => 0
  }

  /** The first 5000 purchases are made at time 0, all others at `late`. */
  function BuyTime(k: nat, late: nat): nat {
    if k < LIMIT then 0 else late
  }

  function BuyStep(m: Math, k: nat, late: nat): Step
    requires Laws(m)
  {
    var claims := QuoteClaims(0, 0, 0, Buy, 1, NextAmount(m, k), 0, k, 1_000_000, ENGINE_VERSION);
    Step(TradeOp(0, Render(k), TradeRequest(claims, Render(1000))), BuyTime(k, late))
  }

  function Buys(m: Math, k: nat, late: nat): seq<Step>
    requires Laws(m)
  {
    if k == 0 then Opening() else Buys(m, k - 1, late) + [BuyStep(m, k - 1, late)]
  }

  function AfterBuys(m: Math, k: nat, late: nat): State
    requires Laws(m)
  {
    Run(LmsrEngine(m), Genesis(), Buys(m, k, late))
  }

  ghost predicate Bought(mk: Market, k: nat, late: nat) {
    && mk.row.terms == SampleTerms() && mk.row.phase == Open && !mk.row.suspended
    && mk.row.version == k && mk.row.inventory == [k, 0]
    && |mk.trades| == k && forall i :: 0 <= i < k ==> mk.trades[i].at == BuyTime(i, late) && 1 <= mk.trades[i].total
  }

  ghost predicate BuysMade(s: State, k: nat, late: nat) {
    && s.clock == (if k == 0 then 0 else BuyTime(k - 1, late))
    && 0 in s.db.markets && Bought(s.db.markets[0], k, late)
    && (forall j: nat :: (0, Render(j)) in s.db.keys ==> j < k)
    && User(0) in s.db.books.balances && GRANT - 1000 * k <= s.db.books.balances[User(0)]
  }

  lemma RenderInjective(j: nat, k: nat)
    requires Render(j) == Render(k)
    ensures j == k
  {
    hide Render;
    DecimalOfRender(j);
    DecimalOfRender(k);
  }

  lemma SmallRender(k: nat)
    requires k < 10_000
    ensures KeyWellFormed(Render(k)) && ParseMicros(Render(k)) == Ok(k)
  {
    hide Render, Power10, ParseMicros;
    assert Power10(4) == 10_000 by { FourDigits(); }
    RenderLength(k, 4);
    SixteenDigits();
    AmountsRoundTrip(k, "");
  }

  lemma FourDigits()
    ensures Power10(4) == 10_000
  {
    assert Power10(3) == 1000;
  }

  lemma PurchaseIsQuoted(m: Math, row: Instance, k: nat)
    requires Laws(m) && k <= LIMIT && row.inventory == [k, 0] && row.terms == SampleTerms() && row.version == k
    ensures Quote(LmsrEngine(m), row, 0, Buy, 1) == Ok(Deal([k + 1, 0], NextAmount(m, k), 0, NextAmount(m, k)))
    ensures 1 <= NextAmount(m, k) <= 1000
  {
    hide Laws, Calculate, Cost;
    SmallIsSupported(k);
    SmallIsSupported(k + 1);
    assert Moved([k, 0], 0, Buy, 1) == [k + 1, 0];
    CalculateIsReference(m, [k, 0], 10, 0, Buy, 1);
    AmountInRange(m, [k, 0], 10, 0, Buy, 1);
  }

  lemma SmallIsSupported(k: nat)
    requires k <= LIMIT + 1
    ensures Supported([k, 0], 10)
  {
    assert Max([k, 0]) in [k, 0] && Min([k, 0]) in [k, 0];
  }

  lemma NextBuy(m: Math, s: State, k: nat, late: nat)
    requires Laws(m) && k <= LIMIT && late < 1_000_000
    requires Inv(LmsrEngine(m), s.db, s.clock) && SoundEngine(LmsrEngine(m)) && BuysMade(s, k, late)
    ensures BuysMade(Next(LmsrEngine(m), s, BuyStep(m, k, late)), k + 1, late)
  {
    hide Laws, Inv, SoundEngine, ExecuteOnce, Render, FairTrade, NextAmount, LmsrEngine, Bought, KeyWellFormed,
         ParseMicros;
    var e, step := LmsrEngine(m), BuyStep(m, k, late);
    var request, now := step.op.request, step.now;
    SmallRender(k);
    SmallRender(1000);
    BuyCommits(m, s, k, late);
    var traded := ExecuteOnce(e, s.db, Render(k), request, 1000, now).value;
    TradeEffects(e, s.db, s.clock, Render(k), request, 1000, now);
    BuyIsRecorded(m, s.db.markets[0], traded.0.markets[0], k, late, traded.1);
    BuyIsPaid(m, s.db, k, late, traded.1);
    forall j: nat | (0, Render(j)) in traded.0.keys ensures j < k + 1 {
      if Render(j) == Render(k) {
        RenderInjective(j, k);
      }
    }
    assert Next(e, s, step) == State(traded.0, now);
  }

  lemma BuyCommits(m: Math, s: State, k: nat, late: nat)
    requires Laws(m) && k <= LIMIT && late < 1_000_000
    requires Inv(LmsrEngine(m), s.db, s.clock) && SoundEngine(LmsrEngine(m)) && BuysMade(s, k, late)
    ensures (0, Render(k)) !in s.db.keys
    ensures ExecuteOnce(LmsrEngine(m), s.db, Render(k), BuyStep(m, k, late).op.request, 1000, BuyTime(k, late)).Ok?
  {
    hide Laws, Inv, SoundEngine, ExecuteOnce, Render, NextAmount, LmsrEngine;
    var e, mk, request := LmsrEngine(m), s.db.markets[0], BuyStep(m, k, late).op.request;
    PurchaseIsQuoted(m, mk.row, k);
    TradeCommits(e, s.db, s.clock, Render(k), request, 1000, BuyTime(k, late));
    assert (0, Render(k)) !in s.db.keys;
  }

  lemma BuyIsRecorded(m: Math, mk: Market, next: Market, k: nat, late: nat, r: Response)
    requires Laws(m) && k <= LIMIT && late < 1_000_000 && Bought(mk, k, late)
    requires SharesMoved(mk, next, BuyStep(m, k, late).op.request.claims, BuyTime(k, late), r)
    requires FairTrade(mk.row, BuyStep(m, k, late).op.request.claims, 1000, BuyTime(k, late), r)
    ensures Bought(next, k + 1, late)
  {
    hide Laws, Holding, NextAmount, Render;
    PurchaseIsQuoted(m, mk.row, k);
    assert r.total == NextAmount(m, k);
    assert Moved([k, 0], 0, Buy, 1) == [k + 1, 0];
  }

  lemma BuyIsPaid(m: Math, db: Db, k: nat, late: nat, r: Response)
    requires Laws(m) && k <= LIMIT && late < 1_000_000 && 0 in db.markets && Bought(db.markets[0], k, late)
    requires FairTrade(db.markets[0].row, BuyStep(m, k, late).op.request.claims, 1000, BuyTime(k, late), r)
    ensures 0 <= r.total <= 1000
  {}

  lemma {:induction false} BuysAreMade(m: Math, k: nat, late: nat)
    requires Laws(m) && k <= LIMIT + 1 && late < 1_000_000
    ensures SoundEngine(LmsrEngine(m)) && LegalRun(LmsrEngine(m), Genesis(), Buys(m, k, late))
    ensures BuysMade(AfterBuys(m, k, late), k, late)
    decreases k
  {
    hide Laws, SoundEngine, Inv, LegalRun, Run, Genesis, BuysMade, LmsrEngine, Render, NextAmount, Audited, Reachable;
    var e := LmsrEngine(m);
    if k == 0 {
      OpeningOpens(m);
      NothingBought(m, late);
    } else {
      BuysAreMade(m, k - 1, late);
      var s, step := AfterBuys(m, k - 1, late), BuyStep(m, k - 1, late);
      RunIsSound(e, Buys(m, k - 1, late));
      NextBuy(m, s, k - 1, late);
      BuyIsLegal(m, s, k - 1, late);
      Scheduler.OneStep(e, s, step);
      Scheduler.RunsJoin(e, Genesis(), Buys(m, k - 1, late), [step]);
    }
  }

  lemma RunIsSound(e: Engine, steps: seq<Step>)
    requires SoundEngine(e) && LegalRun(e, Genesis(), steps)
    ensures Reachable(e, Run(e, Genesis(), steps))
    ensures Inv(e, Run(e, Genesis(), steps).db, Run(e, Genesis(), steps).clock)
  {
    hide SoundEngine, Inv, LegalRun, Audited;
    ReachableIsSound(e, Run(e, Genesis(), steps));
  }

  lemma NothingBought(m: Math, late: nat)
    requires Laws(m) && JustOpened(OpenState(m))
    ensures BuysMade(OpenState(m), 0, late)
  {
    hide Laws, OpenState;
    assert NewMarket(SampleTerms()).row.inventory == [0, 0];
  }

  lemma BuyIsLegal(m: Math, s: State, k: nat, late: nat)
    requires Laws(m) && BuysMade(s, k, late)
    ensures LegalStep(s, BuyStep(m, k, late))
  {}

  /** Of the 5001 purchases of this run the last is not read, whenever it was made; and since it cost
      something, the chart that is drawn is not the chart of the history, whatever its buckets. */
  lemma LongHistoryIsCut(m: Math, late: nat, bucket: int, points: seq<Point>)
    requires Laws(m) && late < 1_000_000 && bucket > 0
    ensures var s := AfterBuys(m, LIMIT + 1, late);
            && Reachable(LmsrEngine(m), s) && 0 in s.db.markets && |s.db.markets[0].trades| == LIMIT + 1
            && var rows := s.db.markets[0].trades;
            Charts(m, 10, 2, Read(rows), bucket, points) ==> !Charts(m, 10, 2, rows, bucket, points)
  {
    hide Laws, SoundEngine, Inv, LegalRun, Run, Genesis, LmsrEngine, Charts, Reachable, Buys, Floor;
    BuysAreMade(m, LIMIT + 1, late);
    RunIsSound(LmsrEngine(m), Buys(m, LIMIT + 1, late));
    var rows := AfterBuys(m, LIMIT + 1, late).db.markets[0].trades;
    assert rows[LIMIT].total != 0;
    if Charts(m, 10, 2, Read(rows), bucket, points) {
      TruncatedHistory(m, 10, 2, rows, LIMIT, bucket, points);
    }
  }
}
