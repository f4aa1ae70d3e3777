/** The main results about runs of the exchange. */
module Theorems {
  import opened Wrappers
  import opened RealMath
  import opened Amm
  import opened PricingEngine
  import opened MapSum
  import opened Books
  import opened Rules
  import opened Exchange
  import opened Invariant
  import opened Preservation
  import opened Settlement
  import opened Transactions
  import opened Evolution
  import opened Runs
  import opened Audit

  /** A state some legal run from the first state leads to. */
  ghost predicate Reachable(e: Engine, s: State) {
    exists steps {:trigger Run(e, Genesis(), steps)} :: LegalRun(e, Genesis(), steps) && Run(e, Genesis(), steps) == s
  }

  lemma GenesisIsSound(e: Engine)
    ensures Inv(e, Genesis().db, Genesis().clock) && Audited(e, Genesis().db)
  {
    IssuedIsBalanced();
    var db := Genesis().db;
    var b := Issued();
    assert b.ledger == FirstIssue().ledger + [b.ledger[1]] && |b.ledger| == 2;
    forall i | 0 <= i < |b.ledger| ensures RefKnown(db, b.ledger[i].ref) && Shaped(b.ledger[i]) {
    }
    assert b.ledger[..1] == FirstIssue().ledger && FirstIssue().ledger[..0] == [];
    assert TradeCount(b.ledger) == 0;
  }

  lemma PrefixIsLegal(e: Engine, s: State, steps: seq<Step>, n: nat)
    requires LegalRun(e, s, steps) && n <= |steps|
    ensures LegalRun(e, s, steps[..n])
    ensures n < |steps| ==> LegalStep(Run(e, s, steps[..n]), steps[n])
  {
    hide LegalStep, Run;
    forall k | 0 <= k < n ensures LegalStep(Run(e, s, steps[..n][..k]), steps[..n][k]) {
      assert steps[..n][..k] == steps[..k];
    }
  }

  lemma {:induction false} RunKeepsAudit(e: Engine, s: State, steps: seq<Step>)
    requires SoundEngine(e) && Inv(e, s.db, s.clock) && Audited(e, s.db) && LegalRun(e, s, steps)
    ensures Audited(e, Run(e, s, steps).db)
  {
    hide Inv, SoundEngine, Audited, LegalStep, LegalRun, Apply;
    if steps != [] {
      var n := |steps| - 1;
      PrefixIsLegal(e, s, steps, n);
      RunKeepsAudit(e, s, steps[..n]);
      RunKeepsInv(e, s, steps[..n]);
      var before := Run(e, s, steps[..n]);
      if Apply(e, before.db, steps[n].op, steps[n].now).Ok? {
        ApplyKeepsAudit(e, before.db, before.clock, steps[n].op, steps[n].now);
      }
    }
  }

  lemma ReachableIsSound(e: Engine, s: State)
    requires SoundEngine(e) && Reachable(e, s)
    ensures Inv(e, s.db, s.clock) && Audited(e, s.db)
  {
    hide Inv, SoundEngine, Audited, LegalRun, Run;
    var steps :| LegalRun(e, Genesis(), steps) && Run(e, Genesis(), steps) == s;
    GenesisIsSound(e);
    RunKeepsInv(e, Genesis(), steps);
    RunKeepsAudit(e, Genesis(), steps);
  }

  // ---- Reconciliation -------------------------------------------------------------------------------

  function UnclaimedCredits(mk: Market): map<UserId, int>
    requires mk.row.result.Some?
  {
    map u | u in mk.positions && u !in mk.claims :: Credit(mk.row.result.value, Outcomes(mk.row), Holding(mk, u))
  }

  /** What the reserve of a market may still have to pay. */
  ghost function Owed(mk: Market): int {
    if mk.row.result.Some? then SumOf(UnclaimedCredits(mk))
    else if Outcomes(mk.row) > 0 then 1000 * Max(mk.row.inventory)
    else 0
  }

  /** The operator's reconciliation finds nothing wrong. */
  ghost predicate Reconciles(db: Db) {
    && SumOf(db.books.balances) == 0
    && (forall a :: BalanceOf(db.books, a) == Net(db.books.ledger, a))
    && BalanceOf(db.books, Issuance) == -TOTAL_ISSUANCE
    && (forall a :: a in db.books.balances && a != Issuance ==> 0 <= db.books.balances[a] <= TOTAL_ISSUANCE)
    && (forall a :: a in db.books.balances ==> ToI64(db.books.balances[a]).Ok?)
    && (forall i :: i in db.markets ==> PositionsOk(db.markets[i]))
    && (forall i :: i in db.markets ==> Owed(db.markets[i]) <= Reserved(db.books, i))
  }

  lemma MarketOwesWithinReserve(e: Engine, mk: Market, reserve: int, clock: int)
    requires SoundEngine(e) && MarketOk(e, mk, reserve, clock)
    ensures Owed(mk) <= reserve
  {
    hide TradesOk, EvidenceOk, OutboxOk, Credit, SoundEngine;
    if mk.row.result.Some? {
      SumSplit(mk.claims, UnclaimedCredits(mk), Credits(mk));
      if Terminal(mk.row) {
        TerminalOwesNothing(mk);
      } else {
        ReleaseNonnegative(e, mk, reserve, clock);
        CreditsWithinPayout(mk);
        CoverPaysMax(e, mk.row.inventory, mk.row.terms.liquidity, mk.row.version, Cash(mk, reserve));
      }
    } else {
      assert mk.claims == map[];
      CoverPaysMax(e, mk.row.inventory, mk.row.terms.liquidity, mk.row.version, Cash(mk, reserve));
      TradesAreCharged(mk, clock);
    }
  }

  lemma TradesAreCharged(mk: Market, clock: int)
    requires TradesOk(mk, clock)
    ensures 0 <= Fees(mk.trades)
  {
    FeesNonnegative(mk.trades);
  }

  lemma TerminalOwesNothing(mk: Market)
    requires PositionsOk(mk) && mk.row.result.Some? && Unclaimed(mk) == {}
    ensures SumOf(UnclaimedCredits(mk)) == 0
  {
    forall u | u in UnclaimedCredits(mk) ensures UnclaimedCredits(mk)[u] == 0 {
      assert u !in Unclaimed(mk);
      NoSharesNoCredit(mk, u);
    }
    SumOfZeros(UnclaimedCredits(mk));
  }

  /** Every reachable state reconciles: balances sum to zero and equal their ledger sums, only
      issuance is negative, so that every balance fits 64 bits; each outcome's inventory is the sum
      of its positions; and each reserve covers what is still owed from it. */
  lemma EveryReachableStateReconciles(e: Engine, s: State)
    requires SoundEngine(e) && Reachable(e, s)
    ensures Reconciles(s.db)
  {
    hide Reachable, MarketOk, SoundEngine, PositionsOk, Owed;
    ReachableIsSound(e, s);
    forall a | a in s.db.books.balances && a != Issuance ensures 0 <= s.db.books.balances[a] <= TOTAL_ISSUANCE {
      assert BalanceOf(s.db.books, Issuance) == Net(s.db.books.ledger, Issuance);
      BoundedByIssuance(s.db.books, a);
    }
    assert BalanceOf(s.db.books, Issuance) == Net(s.db.books.ledger, Issuance);
    forall i | i in s.db.markets
      ensures PositionsOk(s.db.markets[i]) && Owed(s.db.markets[i]) <= Reserved(s.db.books, i)
    {
      MarketIsKept(e, s.db, s.clock, i);
      PositionsAreOk(e, s.db.markets[i], s.db.books.balances[Reserve(i)], s.clock);
      MarketOwesWithinReserve(e, s.db.markets[i], s.db.books.balances[Reserve(i)], s.clock);
    }
  }

  lemma PositionsAreOk(e: Engine, mk: Market, reserve: int, clock: int)
    requires MarketOk(e, mk, reserve, clock)
    ensures PositionsOk(mk)
  {}

  /** What settlement owes each holder of shares. */
  function HolderCredits(mk: Market): map<UserId, int>
    requires mk.row.result.Some?
  {
    map u | u in mk.positions && HasShares(mk.positions[u]) ::
      Credit(mk.row.result.value, Outcomes(mk.row), Holding(mk, u))
  }

  /** Who has a claim and of what, in terms of the positions: each holder of a share and nobody else;
      with a winner, a thousand micros for each share of it, and in all as much as there are such
      shares; in a void market the equal part of all the holder's shares, rounded down. */
  ghost predicate PaysHolders(mk: Market) {
    var n := |mk.row.inventory|;
    && (forall u :: u in mk.claims
          <==> u in mk.positions && exists o :: 0 <= o < |mk.positions[u]| && mk.positions[u][o] > 0)
    && (forall u :: u in mk.claims ==> |mk.positions[u]| == n)
    && match mk.row.result
       case None => false
       case Some(Winner(w)) =>
         && w < n && SumOf(mk.claims) == 1000 * mk.row.inventory[w]
         && forall u :: u in mk.claims ==> mk.claims[u] == 1000 * mk.positions[u][w]
       case Some(Void) =>
         forall u :: u in mk.claims ==> n * mk.claims[u] <= 1000 * Shares(mk.positions[u]) < n * (mk.claims[u] + 1)
  }

  /** However a terminal market was settled, and whatever happened to other markets meanwhile, its
      claims are one for each holder of shares, of the credit its frozen position and the result
      give, and for nobody else. */
  lemma TerminalClaimsAreCredits(e: Engine, s: State, id: MarketId)
    requires SoundEngine(e) && Reachable(e, s) && id in s.db.markets && Terminal(s.db.markets[id].row)
    ensures s.db.markets[id].row.result.Some?
    ensures s.db.markets[id].claims == HolderCredits(s.db.markets[id])
    ensures PaysHolders(s.db.markets[id])
  {
    hide Reachable, Inv, Audited, PositionsOk, ClaimsOk, TradesOk, EvidenceOk, OutboxOk, Unclaimed,
         HolderCredits, PaysHolders;
    ReachableIsSound(e, s);
    MarketIsKept(e, s.db, s.clock, id);
    AllHoldersClaimed(s.db.markets[id]);
    CreditsPayHolders(s.db.markets[id]);
  }

  lemma CreditsPayHolders(mk: Market)
    requires PositionsOk(mk) && Outcomes(mk.row) > 0
    requires mk.row.result.Some? && InOutcomes(mk.row.result.value, Outcomes(mk.row))
    requires mk.claims == HolderCredits(mk)
    ensures PaysHolders(mk)
  {
    hide Credit, Column, SumOf;
    forall u | u in mk.claims ensures IsCredit(mk.row.result.value, mk.positions[u], mk.claims[u]) && 0 <= Shares(mk.positions[u]) {
      CreditIsExact(mk.row.result.value, mk.positions[u]);
      SharesAreTotal(mk.positions[u]);
      TotalNonnegative(mk.positions[u]);
    }
    if mk.row.result.value.Winner? {
      ClaimsAreAllCredits(mk);
      WinningCredits(mk, mk.row.result.value.outcome);
    }
  }

  /** Whoever has no claim holds nothing and would be credited nothing. */
  lemma ClaimsAreAllCredits(mk: Market)
    requires PositionsOk(mk) && mk.row.result.Some? && mk.claims == HolderCredits(mk)
    ensures SumOf(mk.claims) == SumOf(Credits(mk))
  {
    hide Credit, Column, SumOf, HasShares;
    forall u | u in mk.positions ensures 0 <= Credits(mk)[u] && (u !in mk.claims ==> Credits(mk)[u] == 0) {
      CreditNonnegative(mk, u);
      if u !in mk.claims {
        NoSharesNoCredit(mk, u);
      }
    }
    SumPart(mk.claims, Credits(mk));
  }

  lemma AllHoldersClaimed(mk: Market)
    requires ClaimsOk(mk) && Unclaimed(mk) == {} && mk.row.result.Some?
    ensures mk.claims == HolderCredits(mk)
  {
    hide Credit, HasShares, Holding;
    forall u | u in mk.positions && HasShares(mk.positions[u]) ensures u in mk.claims {
      assert u !in Unclaimed(mk);
    }
    assert mk.claims.Keys == HolderCredits(mk).Keys;
  }

  // ---- Solvency -------------------------------------------------------------------------------------

  /** A settlement transaction of a reachable state never aborts, whatever the history of trades,
      the result and the batching; when it closes the market, the reserve is left at zero. */
  lemma SettlementNeverAborts(e: Engine, s: State, id: MarketId, batch: seq<UserId>, now: int)
    requires SoundEngine(e) && Reachable(e, s) && s.clock <= now && id in s.db.markets
    requires ValidBatch(Finalize(s.db.markets[id], now), batch)
    ensures SettleTx(s.db, id, batch, now).Ok?
    ensures Settles(s.db, SettleTx(s.db, id, batch, now).value, id, batch, now)
  {
    hide Reachable, Settles, SettleTx, Inv, Audited;
    ReachableIsSound(e, s);
    SettleSucceeds(e, s.db, s.clock, id, batch, now);
  }

  /** The coverage refusal is unreachable. */
  lemma CoverageNeverRefuses(e: Engine, s: State, user: UserId, key: string, request: TradeRequest, now: int)
    requires SoundEngine(e) && Reachable(e, s)
    ensures ExecuteTx(e, s.db, user, key, request, now) != Err(Conflict(ReserveCoverage))
  {
    hide Reachable, Inv, Audited, ExecuteOnce, ParseMicros;
    ReachableIsSound(e, s);
    var limit := ParseMicros(request.limit);
    ParseNeverCoverage(request.limit);
    if limit.Ok? {
      OnceNeverCoverage(e, s.db, s.clock, key, request, limit.value, now);
    }
  }

  lemma ParseNeverCoverage(value: string)
    ensures ParseMicros(value).Err? ==> ParseMicros(value).error.Invalid? || ParseMicros(value).error.Internal?
  {}

  lemma OnceNeverCoverage(e: Engine, db: Db, clock: int, key: string, request: TradeRequest, limit: int, now: int)
    requires SoundEngine(e) && Inv(e, db, clock)
    ensures ExecuteOnce(e, db, key, request, limit, now) != Err(Conflict(ReserveCoverage))
  {
    hide Recheck, CommitTrade, Inv, Affordable;
    if (request.claims.user, key) in db.keys {
      KeyAnswered(e, db, clock, (request.claims.user, key));
    } else if request.claims.market in db.markets {
      TradeCommits(e, db, clock, key, request, limit, now);
    }
  }

  /** In every reachable state a trade request commits exactly when its form is right and either it
      repeats what was committed under its key, or its key is new, its market known, its quote in force
      and within its limit, and its trader able to pay or deliver. */
  lemma RequestCommitsIff(e: Engine, s: State, user: UserId, key: string, request: TradeRequest, now: int)
    requires SoundEngine(e) && Reachable(e, s)
    ensures var c, limit := request.claims, ParseMicros(request.limit);
            ExecuteTx(e, s.db, user, key, request, now).Ok? <==>
              && 1 <= |key| <= 120
              && (forall i :: 0 <= i < |key| ==>
                    || '0' <= key[i] <= '9' || 'a' <= key[i] <= 'z' || 'A' <= key[i] <= 'Z'
                    || key[i] == '-' || key[i] == '_')
              && c.user == user && c.engine == "lmsr-decimal-v1" && limit.Ok?
              && if (user, key) in s.db.keys then s.db.keys[(user, key)].request == request
                 else
                   && c.market in s.db.markets
                   && QuoteStands(e, s.db.markets[c.market].row, c, now) && WithinLimit(c, limit.value)
                   && CanSettle(s.db.books, s.db.markets[c.market].positions, c)
  {
    hide Reachable, Inv, Audited, QuoteStands, WithinLimit, CanSettle, Recheck, CommitTrade, ParseMicros;
    ReachableIsSound(e, s);
    if (request.claims.user, key) in s.db.keys {
      KeyAnswered(e, s.db, s.clock, (request.claims.user, key));
    } else if ParseMicros(request.limit).Ok? {
      TradeCommits(e, s.db, s.clock, key, request, ParseMicros(request.limit).value, now);
    }
  }

  /** The reserve of a terminal market is empty, so the balance guard of the purge never blocks. */
  lemma TerminalReserveIsEmpty(e: Engine, s: State, id: MarketId, now: int)
    requires SoundEngine(e) && Reachable(e, s) && id in s.db.markets
    ensures Terminal(s.db.markets[id].row) ==> Reserved(s.db.books, id) == 0
    ensures Purgeable(s.db, id, now) <==>
      && s.db.markets[id].row.terms.recurring && Terminal(s.db.markets[id].row)
      && s.db.markets[id].row.terms.deadline <= now - BRACKET_RETENTION_MS
  {
    hide Reachable, Inv, Audited;
    ReachableIsSound(e, s);
    MarketIsKept(e, s.db, s.clock, id);
    PurgeGuardNeverBlocks(e, s.db, s.clock, id, now);
  }

  /** On no market does the platform lose more than it put in at the start. */
  lemma PlatformLossWithinFunding(e: Engine, s: State, id: MarketId)
    requires SoundEngine(e) && Reachable(e, s) && id in s.db.markets
    ensures var terms := s.db.markets[id].row.terms;
            var funding := e.funding(terms.liquidity, OutcomeCount(terms.rule));
            funding.Ok? && -funding.value <= TreasuryNet(s.db.books.ledger, id)
  {
    hide Reachable, Inv;
    ReachableIsSound(e, s);
  }

  // ---- Lifecycle ------------------------------------------------------------------------------------

  lemma {:induction false} RunEvolves(e: Engine, s: State, steps: seq<Step>)
    requires SoundEngine(e) && Inv(e, s.db, s.clock) && LegalRun(e, s, steps)
    ensures Evolves(s.db, Run(e, s, steps).db) && s.clock <= Run(e, s, steps).clock
  {
    hide Inv, SoundEngine, Evolves, Apply, Legal;
    if steps == [] {
      NothingChanges(e, s);
    } else {
      var n := |steps| - 1;
      PrefixIsLegal(e, s, steps, n);
      RunEvolves(e, s, steps[..n]);
      RunKeepsInv(e, s, steps[..n]);
      var before := Run(e, s, steps[..n]);
      if Apply(e, before.db, steps[n].op, steps[n].now).Ok? {
        ApplyEvolves(e, before.db, before.clock, steps[n].op, steps[n].now);
        EvolvesTransitively(s.db, before.db, Run(e, s, steps).db);
      }
    }
  }

  lemma NothingChanges(e: Engine, s: State)
    requires Inv(e, s.db, s.clock)
    ensures Evolves(s.db, s.db)
  {
    hide MarketOk, MarketEvolves;
    AllReserved(e, s.db, s.clock);
    forall i | i in s.db.markets ensures MarketEvolves(s.db.markets[i], s.db.markets[i]) {
      MarketStays(s.db.markets[i]);
    }
  }

  /** From any reachable state on, in every run: states only move forward, versions only grow, and
      a version names one committed row; what trading, evidence, the result and the claims fixed
      stays fixed; and a market that is gone never returns. */
  lemma LifecycleOverRuns(e: Engine, s: State, steps: seq<Step>, id: MarketId)
    requires SoundEngine(e) && Reachable(e, s) && LegalRun(e, s, steps) && id in s.db.markets
    ensures var later := Run(e, s, steps).db;
            && (id in later.markets ==> MarketEvolves(s.db.markets[id], later.markets[id]))
            && (id !in later.markets ==> forall more :: LegalRun(e, Run(e, s, steps), more) ==>
                  id !in Run(e, Run(e, s, steps), more).db.markets)
  {
    hide Reachable, Inv, Audited, MarketEvolves, SoundEngine, LegalRun;
    ReachableIsSound(e, s);
    RunEvolves(e, s, steps);
    RunKeepsInv(e, s, steps);
    var mid := Run(e, s, steps);
    forall more | LegalRun(e, mid, more) && id !in mid.db.markets
      ensures id !in Run(e, mid, more).db.markets
    {
      RunEvolves(e, mid, more);
    }
  }

  /** Every trade of a market precedes its close, which precedes the end of the observation, which
      precedes every piece of evidence; and nothing is claimed before the finalization time. */
  lemma TimesInOrder(e: Engine, s: State, id: MarketId)
    requires SoundEngine(e) && Reachable(e, s) && id in s.db.markets
    ensures var mk := s.db.markets[id];
            var t := mk.row.terms;
            && (forall k :: 0 <= k < |mk.trades| ==> mk.trades[k].at < t.closeMs)
            && t.closeMs <= t.observationStart < t.observationEnd <= t.finalizeAfter
            && (forall k :: 0 <= k < |mk.evidence| ==> t.observationEnd <= mk.evidence[k].received <= s.clock)
            && (mk.row.phase != Open ==> t.closeMs <= s.clock)
            && (mk.claims != map[] || mk.row.result.Some? ==> t.finalizeAfter <= s.clock)
  {
    hide Reachable, Inv, Audited, PositionsOk, OutboxOk, MoneyOk;
    ReachableIsSound(e, s);
    MarketIsKept(e, s.db, s.clock, id);
    var mk := s.db.markets[id];
    if mk.claims != map[] {
      var u :| u in mk.claims;
    }
  }

  // ---- Exactly-once trades ----------------------------------------------------------------------------

  /** Once a trade has committed under a key, every later retry returns its first response and
      changes nothing, and every other body under that key is refused, in whatever state the
      exchange is by then. */
  lemma TradesExactlyOnce(
      e: Engine, s: State, key: string, request: TradeRequest, now: int, steps: seq<Step>, other: TradeRequest,
      later: int
    )
    requires SoundEngine(e) && Reachable(e, s)
    requires var user := request.claims.user;
             && LegalRun(e, s, [Step(TradeOp(user, key, request), now)] + steps)
             && ExecuteTx(e, s.db, user, key, request, now).Ok?
    ensures var user := request.claims.user;
            var first := ExecuteTx(e, s.db, user, key, request, now).value.1;
            var end := Run(e, s, [Step(TradeOp(user, key, request), now)] + steps).db;
            && ExecuteTx(e, end, user, key, request, later) == Ok((end, first))
            && (other != request ==> ExecuteTx(e, end, user, key, other, later).Err?)
  {
    hide Reachable, Inv, Audited, CommitTrade, Recheck, LegalStep;
    var user := request.claims.user;
    var run := [Step(TradeOp(user, key, request), now)] + steps;
    ReachableIsSound(e, s);
    PrefixIsLegal(e, s, run, 1);
    var done := ExecuteTx(e, s.db, user, key, request, now).value;
    ExecutedKey(e, s.db, s.clock, key, request, ParseMicros(request.limit).value, now);
    assert run[..1] == [Step(TradeOp(user, key, request), now)] && run[..1][..0] == [];
    assert Run(e, s, run[..1]) == State(done.0, now);
    RunKeepsInv(e, s, run[..1]);
    SuffixIsLegal(e, s, run, 1);
    RunSplits(e, s, run, 1);
    assert run[1..] == steps;
    RunEvolves(e, Run(e, s, run[..1]), steps);
  }

  lemma ExecutedKey(e: Engine, db: Db, clock: int, key: string, request: TradeRequest, limit: int, now: int)
    requires SoundEngine(e) && Inv(e, db, clock)
    requires ExecuteOnce(e, db, key, request, limit, now).Ok?
    ensures var r := ExecuteOnce(e, db, key, request, limit, now).value;
            (request.claims.user, key) in r.0.keys && r.0.keys[(request.claims.user, key)] == KeyRow(request, Some(r.1))
  {
    hide CommitTrade, Recheck, Inv, SoundDeal;
    var c := request.claims;
    if (c.user, key) in db.keys {
      KeyAnswered(e, db, clock, (c.user, key));
    } else {
      RecheckedDeal(e, db.markets[c.market].row, c, limit, now);
      CommitOnlyAddsKey(db, key, request, Recheck(e, db.markets[c.market].row, c, limit, now).value, now);
    }
  }

  /** A run can be cut anywhere. */
  lemma {:induction false} RunSplits(e: Engine, s: State, steps: seq<Step>, n: nat)
    requires n <= |steps|
    ensures Run(e, s, steps) == Run(e, Run(e, s, steps[..n]), steps[n..])
    decreases |steps|
  {
    hide Next;
    if n == |steps| {
      assert steps[..n] == steps;
    } else {
      var rest := steps[..|steps| - 1];
      RunSplits(e, s, rest, n);
      assert rest[..n] == steps[..n] && rest[n..] == steps[n..][..|steps| - 1 - n];
    }
  }

  lemma SuffixIsLegal(e: Engine, s: State, steps: seq<Step>, n: nat)
    requires LegalRun(e, s, steps) && n <= |steps|
    ensures LegalRun(e, Run(e, s, steps[..n]), steps[n..])
  {
    hide LegalStep, Run;
    forall k | 0 <= k < |steps[n..]|
      ensures LegalStep(Run(e, Run(e, s, steps[..n]), steps[n..][..k]), steps[n..][k])
    {
      RunSplits(e, s, steps[..n + k], n);
      assert steps[..n + k][..n] == steps[..n] && steps[..n + k][n..] == steps[n..][..k];
    }
  }

  // ---- With the LMSR engine ---------------------------------------------------------------------------

  /** All of the above for the exchange as it is built, on any functions `exp` and `ln` that obey
      their laws, with exact arithmetic or with errors that total at most one micro for each market. */
  lemma LmsrExchangeIsSafe(m: Math, noise: Noise, e: Engine, s: State)
    requires Laws(m) && WithinOneMicro(noise) && (e == LmsrEngine(m) || e == NoisyEngine(m, noise))
    requires Reachable(e, s)
    ensures Reconciles(s.db) && KeysMatchTrades(s.db)
    ensures forall user, key, request, now ::
      ExecuteTx(e, s.db, user, key, request, now) != Err(Conflict(ReserveCoverage))
    ensures forall id, batch, now ::
      s.clock <= now && id in s.db.markets && ValidBatch(Finalize(s.db.markets[id], now), batch) ==>
        SettleTx(s.db, id, batch, now).Ok?
  {
    hide Reachable, Reconciles, ExecuteTx, SettleTx, ValidBatch, Finalize, Settles, SoundEngine, Inv, LossWithinFunding;
    LmsrIsSound(m, noise);
    ReachableIsSound(e, s);
    EveryReachableStateReconciles(e, s);
    forall user, key, request, now
      ensures ExecuteTx(e, s.db, user, key, request, now) != Err(Conflict(ReserveCoverage))
    {
      CoverageNeverRefuses(e, s, user, key, request, now);
    }
    forall id, batch, now | s.clock <= now && id in s.db.markets && ValidBatch(Finalize(s.db.markets[id], now), batch)
      ensures SettleTx(s.db, id, batch, now).Ok?
    {
      SettlementNeverAborts(e, s, id, batch, now);
    }
  }
}
