/** Settlement on reachable states: every claim finds enough reserve, the release is never
    negative, the closing transfers drain the reserve exactly, and no constraint aborts. */
module Settlement {
  import opened Wrappers
  import opened Amm
  import opened PricingEngine
  import opened Fee
  import opened MapSum
  import opened Books
  import opened Rules
  import opened Exchange
  import opened Invariant
  import opened Preservation

  // ---- Finalization ---------------------------------------------------------------------------

  lemma LatestIsRecorded(evidence: seq<Evidence>)
    ensures Latest(evidence).Some? ==> Latest(evidence).value in evidence
    ensures Latest(evidence).None? <==> evidence == []
  {}

  lemma FinalizeKeepsMarket(e: Engine, mk: Market, reserve: int, clock: int)
    requires SoundEngine(e) && MarketOk(e, mk, reserve, clock)
    ensures MarketOk(e, Finalize(mk, clock), reserve, clock)
  {
    hide SoundEngine, RowsOk, Column, Supported, TimesOrdered, Fees, HasShares, Credit;
    LatestIsRecorded(mk.evidence);
    if mk.row.phase == Closed && FinalResult(mk, clock).Some? {
      var next := Finalize(mk, clock);
      assert mk.claims == map[] by {
        assert forall u :: u !in mk.claims;
      }
      assert PositionsOk(next);
      CoverPaysMax(e, mk.row.inventory, mk.row.terms.liquidity, mk.row.version, Cash(mk, reserve));
    }
  }

  // ---- One claim ------------------------------------------------------------------------------

  function Claimed(mk: Market, user: UserId): Market
    requires mk.row.result.Some?
  {
    mk.(claims := mk.claims[user := Credit(mk.row.result.value, Outcomes(mk.row), Holding(mk, user))])
  }

  /** Claims paid so far, together with one more, are within the largest payout. */
  lemma ClaimsWithinPayout(mk: Market, user: UserId)
    requires PositionsOk(mk) && Outcomes(mk.row) > 0 && ClaimsOk(mk)
    requires mk.row.result.Some? && InOutcomes(mk.row.result.value, Outcomes(mk.row))
    requires user in mk.positions && user !in mk.claims
    ensures 0 <= Claimed(mk, user).claims[user]
    ensures SumOf(Claimed(mk, user).claims) == SumOf(mk.claims) + Claimed(mk, user).claims[user]
    ensures SumOf(Claimed(mk, user).claims) <= 1000 * Max(mk.row.inventory)
  {
    var next := Claimed(mk, user);
    SumPut(mk.claims, user, next.claims[user]);
    forall u | u in mk.positions ensures 0 <= Credits(mk)[u] {
      CreditNonnegative(mk, u);
    }
    SumPart(next.claims, Credits(mk));
    CreditsWithinPayout(mk);
  }

  lemma ClaimKeepsMarket(e: Engine, mk: Market, reserve: int, clock: int, user: UserId)
    requires SoundEngine(e)
    requires MarketOk(e, mk, reserve, clock) && mk.row.phase == Resolving && user in Unclaimed(mk)
    ensures mk.row.result.Some?
    ensures 0 <= Claimed(mk, user).claims[user] <= reserve
    ensures MarketOk(e, Claimed(mk, user), reserve - Claimed(mk, user).claims[user], clock)
  {
    hide TradesOk, EvidenceOk, OutboxOk, PositionsOk, ClaimsOk, PhaseOk, Credit, SoundEngine, Claimed, Unclaimed;
    ResultIsNamed(mk.row, clock);
    UnclaimedHolds(mk, user);
    ClaimIsRecordOk(mk, clock, user);
    ClaimsWithinPayout(mk, user);
    CoverPaysMax(e, mk.row.inventory, mk.row.terms.liquidity, mk.row.version, Cash(mk, reserve));
  }

  lemma ResultIsNamed(row: Instance, clock: int)
    requires PhaseOk(row, clock) && row.phase == Resolving
    ensures row.result.Some? && InOutcomes(row.result.value, Outcomes(row))
  {}

  lemma UnclaimedHolds(mk: Market, user: UserId)
    requires user in Unclaimed(mk)
    ensures user in mk.positions && HasShares(mk.positions[user]) && user !in mk.claims
  {}

  lemma ClaimIsRecordOk(mk: Market, clock: int, user: UserId)
    requires ShapeOk(mk.row) && PositionsOk(mk) && ClaimsOk(mk)
    requires TradesOk(mk, clock) && EvidenceOk(mk, clock) && OutboxOk(mk) && mk.row.result.Some?
    requires user in mk.positions && HasShares(mk.positions[user])
    ensures var next := Claimed(mk, user);
            && next == mk.(claims := next.claims)
            && PositionsOk(next) && ClaimsOk(next) && TradesOk(next, clock) && EvidenceOk(next, clock) && OutboxOk(next)
    ensures 0 <= Fees(mk.trades)
  {
    hide ShapeOk, HasShares, Credit, Column, RowsOk;
    FeesNonnegative(mk.trades);
    assert PositionsOk(Claimed(mk, user));
  }

  function WithSettling(db: Db, id: MarketId, s: Settling): Db {
    db.(books := s.books, markets := db.markets[id := s.market])
  }

  function AsSettling(db: Db, id: MarketId): Settling
    requires id in db.markets
  {
    Settling(db.books, db.markets[id])
  }

  function ClaimTransfer(db: Db, id: MarketId, user: UserId): Transfer
    requires id in db.markets && db.markets[id].row.result.Some?
  {
    Transfer(Reserve(id), User(user), Claimed(db.markets[id], user).claims[user], Claim(id, user))
  }

  /** Nothing stands in the way of paying this claim. */
  ghost predicate ClaimReady(db: Db, id: MarketId, user: UserId) {
    && id in db.markets && db.markets[id].row.result.Some?
    && Reserve(id) in db.books.balances && User(user) in db.books.balances
    && user !in db.markets[id].claims
    && 0 <= ClaimTransfer(db, id, user).amount <= db.books.balances[Reserve(id)]
    && !Used(db.books.ledger, Claim(id, user))
  }

  function AfterClaim(db: Db, id: MarketId, user: UserId): Db
    requires id in db.markets && db.markets[id].row.result.Some?
    requires Reserve(id) in db.books.balances && User(user) in db.books.balances
  {
    WithSettling(db, id, Settling(Posted(db.books, ClaimTransfer(db, id, user)), Claimed(db.markets[id], user)))
  }

  lemma ClaimIsReady(e: Engine, db: Db, clock: int, id: MarketId, user: UserId)
    requires SoundEngine(e)
    requires Inv(e, db, clock) && id in db.markets
    requires db.markets[id].row.phase == Resolving && user in Unclaimed(db.markets[id])
    ensures ClaimReady(db, id, user)
  {
    hide PositionsOk, TradesOk, EvidenceOk, OutboxOk, ShapeOk, Credit, Balanced, KeysAnswered;
    assert MarketKept(e, db, id, clock);
    ClaimKeepsMarket(e, db.markets[id], db.books.balances[Reserve(id)], clock, user);
    UnknownIsUnused(db, Claim(id, user));
  }

  lemma ReadyClaimPays(db: Db, id: MarketId, user: UserId)
    requires ClaimReady(db, id, user)
    ensures Allowed(db.books, ClaimTransfer(db, id, user))
    ensures PayClaim(AsSettling(db, id), id, user) == Ok(AsSettling(AfterClaim(db, id, user), id))
    ensures WithSettling(db, id, AsSettling(AfterClaim(db, id, user), id)) == AfterClaim(db, id, user)
    ensures id in AfterClaim(db, id, user).markets
    ensures AfterClaim(db, id, user).markets[id] == Claimed(db.markets[id], user)
    ensures AfterClaim(db, id, user).keys == db.keys && AfterClaim(db, id, user).markets == db.markets[id := Claimed(db.markets[id], user)]
    ensures Changes(db, AfterClaim(db, id, user), id)
    ensures AfterClaim(db, id, user).books.balances[Reserve(id)]
         == db.books.balances[Reserve(id)] - ClaimTransfer(db, id, user).amount
  {}

  /** Paying an unclaimed holder keeps the invariant. */
  lemma ClaimKeepsInv(e: Engine, db: Db, clock: int, id: MarketId, user: UserId)
    requires SoundEngine(e)
    requires Inv(e, db, clock) && id in db.markets
    requires db.markets[id].row.phase == Resolving && user in Unclaimed(db.markets[id])
    ensures ClaimReady(db, id, user) && Inv(e, AfterClaim(db, id, user), clock)
  {
    ClaimIsReady(e, db, clock, id, user);
    ReadyClaimPays(db, id, user);
    var next := AfterClaim(db, id, user);
    PostKeepsBalanced(db.books, ClaimTransfer(db, id, user));
    PostExtends(db, next, ClaimTransfer(db, id, user));
    assert MarketKept(e, next, id, clock) by {
      assert MarketKept(e, db, id, clock);
      ClaimKeepsMarket(e, db.markets[id], db.books.balances[Reserve(id)], clock, user);
    }
    InvChanges(e, db, next, id, clock);
  }

  // ---- A batch of claims ------------------------------------------------------------------------

  /** A batch of distinct unclaimed holders. */
  predicate Payable(mk: Market, batch: seq<UserId>) {
    && (forall i :: 0 <= i < |batch| ==> batch[i] in Unclaimed(mk))
    && (forall i, j :: 0 <= i < j < |batch| ==> batch[i] != batch[j])
  }

  function Members(batch: seq<UserId>): set<UserId> {
    set u | u in batch
  }

  /** The market gained exactly the claims of `users`. */
  ghost predicate GainsClaims(mk: Market, next: Market, users: set<UserId>) {
    && next == mk.(claims := next.claims)
    && next.claims.Keys == mk.claims.Keys + users
  }

  lemma ClaimGains(mk: Market, mid: Market, batch: seq<UserId>)
    requires batch != [] && Payable(mk, batch) && mid.row.result.Some?
    requires GainsClaims(mk, mid, Members(batch[..|batch| - 1]))
    ensures batch[|batch| - 1] in Unclaimed(mid)
    ensures GainsClaims(mk, Claimed(mid, batch[|batch| - 1]), Members(batch))
  {
    assert batch == batch[..|batch| - 1] + [batch[|batch| - 1]];
  }

  /** Paying a batch always succeeds; it changes the claims, by exactly the batch, and nothing else
      of the market. */
  lemma {:induction false} BatchSucceeds(e: Engine, db: Db, clock: int, id: MarketId, batch: seq<UserId>)
    requires SoundEngine(e)
    requires Inv(e, db, clock) && id in db.markets
    requires db.markets[id].row.phase == Resolving && Payable(db.markets[id], batch)
    ensures PayClaims(AsSettling(db, id), id, batch).Ok?
    ensures var s := PayClaims(AsSettling(db, id), id, batch).value;
            && Inv(e, WithSettling(db, id, s), clock)
            && GainsClaims(db.markets[id], s.market, Members(batch))
  {
    hide Inv, PayClaim, GainsClaims;
    if batch != [] {
      var rest := batch[..|batch| - 1];
      BatchSucceeds(e, db, clock, id, rest);
      NextClaim(e, db, clock, id, batch, PayClaims(AsSettling(db, id), id, rest).value);
    } else {
      assert WithSettling(db, id, AsSettling(db, id)) == db;
      NoClaims(db.markets[id]);
    }
  }

  lemma NoClaims(mk: Market)
    ensures GainsClaims(mk, mk, Members([]))
  {}

  /** The last claim of a batch, once the others are paid. */
  lemma NextClaim(e: Engine, db: Db, clock: int, id: MarketId, batch: seq<UserId>, s: Settling)
    requires SoundEngine(e)
    requires id in db.markets && db.markets[id].row.phase == Resolving
    requires batch != [] && Payable(db.markets[id], batch)
    requires Inv(e, WithSettling(db, id, s), clock)
    requires GainsClaims(db.markets[id], s.market, Members(batch[..|batch| - 1]))
    ensures PayClaim(s, id, batch[|batch| - 1]).Ok?
    ensures var paid := PayClaim(s, id, batch[|batch| - 1]).value;
            Inv(e, WithSettling(db, id, paid), clock) && GainsClaims(db.markets[id], paid.market, Members(batch))
  {
    hide Inv, ClaimReady, PayClaim, AfterClaim, Members;
    var last, mid := batch[|batch| - 1], WithSettling(db, id, s);
    assert AsSettling(mid, id) == s;
    ResultKnown(e, mid, clock, id);
    ClaimGains(db.markets[id], s.market, batch);
    ClaimKeepsInv(e, mid, clock, id, last);
    ReadyClaimPays(mid, id, last);
    var after := AfterClaim(mid, id, last);
    assert WithSettling(db, id, AsSettling(after, id)) == after;
  }

  lemma ResultKnown(e: Engine, db: Db, clock: int, id: MarketId)
    requires Inv(e, db, clock) && id in db.markets && db.markets[id].row.phase == Resolving
    ensures db.markets[id].row.result.Some?
  {
    assert MarketKept(e, db, id, clock);
  }

  // ---- Closing out --------------------------------------------------------------------------------

  ghost predicate ClosingRef(r: Ref, id: MarketId) {
    r == Release(id) || r == FeeToTreasury(id) || r == FeeToCreator(id)
  }

  /** The books can close market `id`: the reserve covers the fee pot and no closing transfer was
      made before. */
  ghost predicate Drainable(b: Books, mk: Market, id: MarketId) {
    && Balanced(b) && Reserve(id) in b.balances
    && (mk.row.terms.creator.Some? ==> User(mk.row.terms.creator.value) in b.balances)
    && 0 <= Fees(mk.trades) <= b.balances[Reserve(id)]
    && !Used(b.ledger, Release(id)) && !Used(b.ledger, FeeToTreasury(id)) && !Used(b.ledger, FeeToCreator(id))
  }

  function CreatorCut(mk: Market): int {
    CreatorShare(Fees(mk.trades), mk.row.terms.creator.Some?)
  }

  /** What the closing transfers do to the balances: the reserve ends at zero, the creator gets its
      share of the fee pot and the treasury everything else. */
  function DrainedBalances(balances: map<AccountId, int>, mk: Market, id: MarketId): map<AccountId, int>
    requires Treasury in balances && Reserve(id) in balances
    requires mk.row.terms.creator.Some? ==> User(mk.row.terms.creator.value) in balances
  {
    var paid := balances[Reserve(id) := 0][Treasury := balances[Treasury] + balances[Reserve(id)] - CreatorCut(mk)];
    if mk.row.terms.creator.Some? then
      var creator := User(mk.row.terms.creator.value);
      paid[creator := paid[creator] + CreatorCut(mk)]
    else paid
  }

  ghost predicate Drained(b: Books, next: Books, mk: Market, id: MarketId)
    requires Treasury in b.balances && Reserve(id) in b.balances
    requires mk.row.terms.creator.Some? ==> User(mk.row.terms.creator.value) in b.balances
  {
    && Balanced(next)
    && next.balances == DrainedBalances(b.balances, mk, id)
    && |b.ledger| <= |next.ledger| && next.ledger[..|b.ledger|] == b.ledger
    && forall i :: |b.ledger| <= i < |next.ledger| ==> ClosingRef(next.ledger[i].ref, id)
  }

  lemma UsedAfterPost(b: Books, t: Transfer, r: Ref)
    requires t.from in b.balances && t.to in b.balances
    requires !Used(b.ledger, r) && t.ref != r
    ensures !Used(Posted(b, t).ledger, r)
  {}

  lemma PostFromReserve(b: Books, id: MarketId, to: AccountId, amount: int, r: Ref)
    requires Balanced(b) && Reserve(id) in b.balances && to in b.balances && to != Reserve(id)
    requires 0 <= amount <= b.balances[Reserve(id)] && !Used(b.ledger, r)
    ensures var t := Transfer(Reserve(id), to, amount, r);
            && Post(b, t) == Ok(Posted(b, t))
            && Balanced(Posted(b, t))
            && Posted(b, t).ledger == b.ledger + [t]
            && Posted(b, t).balances
               == b.balances[Reserve(id) := b.balances[Reserve(id)] - amount][to := b.balances[to] + amount]
  {
    PostKeepsBalanced(b, Transfer(Reserve(id), to, amount, r));
  }

  /** The three closing transfers always succeed and leave the reserve at exactly zero. */
  lemma DrainSucceeds(b: Books, mk: Market, id: MarketId)
    requires Drainable(b, mk, id)
    ensures Drain(b, mk, id).Ok? && Drained(b, Drain(b, mk, id).value, mk, id)
  {
    hide Balanced, Used;
    TreasuryKnown(b);
    var fees, cut := Fees(mk.trades), CreatorCut(mk);
    var t1 := Transfer(Reserve(id), Treasury, b.balances[Reserve(id)] - fees, Release(id));
    PostFromReserve(b, id, Treasury, t1.amount, t1.ref);
    UsedAfterPost(b, t1, FeeToTreasury(id));
    UsedAfterPost(b, t1, FeeToCreator(id));
    var b1 := Posted(b, t1);
    var t2 := Transfer(Reserve(id), Treasury, fees - cut, FeeToTreasury(id));
    PostFromReserve(b1, id, Treasury, t2.amount, t2.ref);
    UsedAfterPost(b1, t2, FeeToCreator(id));
    var b2 := if t2.amount > 0 then Posted(b1, t2) else b1;
    if mk.row.terms.creator.Some? {
      var t3 := Transfer(Reserve(id), User(mk.row.terms.creator.value), cut, FeeToCreator(id));
      PostFromReserve(b2, id, t3.to, t3.amount, t3.ref);
    }
  }

  lemma TreasuryKnown(b: Books)
    requires Balanced(b)
    ensures Treasury in b.balances
  {}

  /** The release is never negative: the LMSR bound, not the coverage check, gives this. */
  lemma ReleaseNonnegative(e: Engine, mk: Market, reserve: int, clock: int)
    requires SoundEngine(e)
    requires MarketOk(e, mk, reserve, clock) && mk.row.phase == Resolving
    ensures 0 <= Fees(mk.trades) <= reserve
    ensures SumOf(mk.claims) <= 1000 * Max(mk.row.inventory)
  {
    forall u | u in mk.positions ensures 0 <= Credits(mk)[u] {
      CreditNonnegative(mk, u);
    }
    SumPart(mk.claims, Credits(mk));
    CreditsWithinPayout(mk);
    CoverPaysMax(e, mk.row.inventory, mk.row.terms.liquidity, mk.row.version, Cash(mk, reserve));
    FeesNonnegative(mk.trades);
  }

  lemma MarketIsDrainable(e: Engine, db: Db, clock: int, id: MarketId)
    requires SoundEngine(e)
    requires Inv(e, db, clock) && id in db.markets && db.markets[id].row.phase == Resolving
    ensures Drainable(db.books, db.markets[id], id)
  {
    hide PositionsOk, ClaimsOk, TradesOk, EvidenceOk, OutboxOk, MoneyOk, Balanced, KeysAnswered;
    assert MarketKept(e, db, id, clock);
    ReleaseNonnegative(e, db.markets[id], db.books.balances[Reserve(id)], clock);
    UnknownIsUnused(db, Release(id));
    UnknownIsUnused(db, FeeToTreasury(id));
    UnknownIsUnused(db, FeeToCreator(id));
  }

  function AfterDrain(db: Db, id: MarketId, b: Books): Db
    requires id in db.markets
  {
    WithSettling(db, id, Settling(b, TerminalMarket(db.markets[id])))
  }

  lemma DrainChanges(db: Db, id: MarketId, b: Books)
    requires id in db.markets && !Terminal(db.markets[id].row)
    requires Drainable(db.books, db.markets[id], id)
    requires Treasury in db.books.balances
    requires Drained(db.books, b, db.markets[id], id)
    ensures Changes(db, AfterDrain(db, id, b), id) && Extended(db, AfterDrain(db, id, b))
    ensures Reserve(id) in b.balances && b.balances[Reserve(id)] == 0
  {}

  lemma TerminalMarketOk(e: Engine, mk: Market, reserve: int, clock: int)
    requires MarketOk(e, mk, reserve, clock) && mk.row.phase == Resolving && Unclaimed(mk) == {}
    ensures MarketOk(e, TerminalMarket(mk), 0, clock)
  {
    var next := TerminalMarket(mk);
    assert PositionsOk(next);
    assert Unclaimed(next) == Unclaimed(mk);
  }

  /** Closing out a fully claimed market always succeeds and keeps the invariant. */
  lemma CloseOutSucceeds(e: Engine, db: Db, clock: int, id: MarketId)
    requires SoundEngine(e)
    requires Inv(e, db, clock) && id in db.markets && db.markets[id].row.phase == Resolving
    requires Unclaimed(db.markets[id]) == {}
    ensures Drainable(db.books, db.markets[id], id) && Treasury in db.books.balances
    ensures CloseOut(AsSettling(db, id), id).Ok?
    ensures var s := CloseOut(AsSettling(db, id), id).value;
            && s.market == TerminalMarket(db.markets[id])
            && Drained(db.books, s.books, db.markets[id], id)
            && Inv(e, WithSettling(db, id, s), clock)
  {
    hide Balanced, Drain, Drained, RefsKnown, MarketsKept, Extended, Drainable;
    var mk := db.markets[id];
    TreasuryKnown(db.books);
    MarketIsDrainable(e, db, clock, id);
    DrainSucceeds(db.books, mk, id);
    var b := Drain(db.books, mk, id).value;
    DrainChanges(db, id, b);
    DrainedBalanced(db.books, b, mk, id);
    DrainKeepsMarket(e, db, clock, id, b);
    InvChanges(e, db, AfterDrain(db, id, b), id, clock);
  }

  lemma DrainedBalanced(b: Books, next: Books, mk: Market, id: MarketId)
    requires Drainable(b, mk, id) && Treasury in b.balances && Drained(b, next, mk, id)
    ensures Balanced(next)
  {}

  lemma DrainKeepsMarket(e: Engine, db: Db, clock: int, id: MarketId, b: Books)
    requires Inv(e, db, clock) && id in db.markets && db.markets[id].row.phase == Resolving
    requires Unclaimed(db.markets[id]) == {}
    requires Changes(db, AfterDrain(db, id, b), id) && Reserve(id) in b.balances && b.balances[Reserve(id)] == 0
    ensures MarketKept(e, AfterDrain(db, id, b), id, clock)
  {
    hide MarketOk, Balanced, RefsKnown, KeysAnswered;
    assert MarketKept(e, db, id, clock);
    TerminalMarketOk(e, db.markets[id], db.books.balances[Reserve(id)], clock);
  }

  // ---- One settlement transaction -------------------------------------------------------------------

  function WithMarket(db: Db, id: MarketId, mk: Market): Db {
    db.(markets := db.markets[id := mk])
  }

  /** Replacing a market by one that is in order, at unchanged books, keeps the invariant. */
  lemma MarketReplaced(e: Engine, db: Db, clock: int, id: MarketId, mk: Market)
    requires Inv(e, db, clock) && id in db.markets
    requires Reserve(id) in db.books.balances && UsersKnown(db.books, mk)
    requires MarketOk(e, mk, db.books.balances[Reserve(id)], clock)
    requires db.markets[id].row.version <= mk.row.version
    requires db.markets[id].claims.Keys <= mk.claims.Keys
    requires Terminal(db.markets[id].row) ==> Terminal(mk.row)
    ensures Inv(e, WithMarket(db, id, mk), clock)
  {
    hide MarketOk, Balanced, KeysAnswered, RefsKnown, MarketsKept;
    InvChanges(e, db, WithMarket(db, id, mk), id, clock);
  }

  lemma FinalizeKeepsInv(e: Engine, db: Db, clock: int, id: MarketId)
    requires SoundEngine(e) && Inv(e, db, clock) && id in db.markets
    ensures Inv(e, WithMarket(db, id, Finalize(db.markets[id], clock)), clock)
  {
    hide SoundEngine, MarketOk, Balanced, KeysAnswered, RefsKnown, FinalResult;
    assert MarketKept(e, db, id, clock);
    FinalizeKeepsMarket(e, db.markets[id], db.books.balances[Reserve(id)], clock);
    MarketReplaced(e, db, clock, id, Finalize(db.markets[id], clock));
  }

  /** The books and markets a settlement transaction leads to. */
  ghost predicate Settles(db: Db, next: Db, id: MarketId, batch: seq<UserId>, now: int)
    requires id in db.markets
  {
    var mk := Finalize(db.markets[id], now);
    if mk.row.phase != Resolving then next == db
    else
      && next == db.(books := next.books, markets := next.markets)
      && id in next.markets && next.markets == db.markets[id := next.markets[id]]
      && next.markets[id].claims.Keys == mk.claims.Keys + Members(batch)
      && (if Unclaimed(mk) == Members(batch) then
            && next.markets[id] == TerminalMarket(mk.(claims := next.markets[id].claims))
            && Reserved(next.books, id) == 0
          else next.markets[id] == mk.(claims := next.markets[id].claims))
  }

  lemma UnclaimedAfter(mk: Market, next: Market, batch: seq<UserId>)
    requires Payable(mk, batch) && GainsClaims(mk, next, Members(batch))
    ensures Unclaimed(next) == Unclaimed(mk) - Members(batch)
    ensures Unclaimed(next) == {} <==> Unclaimed(mk) == Members(batch)
  {
    assert Unclaimed(mk) == Unclaimed(next) + Members(batch);
  }

  /** On every state that satisfies the invariant, a settlement of any valid batch commits: each
      claim finds enough reserve and the closing transfers drain the reserve exactly. */
  lemma SettleSucceeds(e: Engine, db: Db, clock: int, id: MarketId, batch: seq<UserId>, now: int)
    requires SoundEngine(e)
    requires Inv(e, db, clock) && clock <= now && id in db.markets
    requires ValidBatch(Finalize(db.markets[id], now), batch)
    ensures SettleTx(db, id, batch, now).Ok?
    ensures Inv(e, SettleTx(db, id, batch, now).value, now)
    ensures Settles(db, SettleTx(db, id, batch, now).value, id, batch, now)
  {
    hide Inv, Finalize, PayClaims, CloseOut, GainsClaims, Settles;
    InvLater(e, db, clock, now);
    var mk := Finalize(db.markets[id], now);
    if mk.row.phase == Resolving {
      var mid := WithMarket(db, id, mk);
      FinalizeKeepsInv(e, db, now, id);
      ResultKnown(e, mid, now, id);
      assert AsSettling(mid, id) == Settling(db.books, mk);
      BatchSucceeds(e, mid, now, id, batch);
      var paid := PayClaims(AsSettling(mid, id), id, batch).value;
      PaidOrClosed(e, db, id, mk, paid, batch, now);
    } else {
      NothingToSettle(db, id, batch, now);
    }
  }

  lemma NothingToSettle(db: Db, id: MarketId, batch: seq<UserId>, now: int)
    requires id in db.markets && Finalize(db.markets[id], now).row.phase != Resolving
    ensures Settles(db, db, id, batch, now)
  {}

  lemma PaidOrClosed(e: Engine, db: Db, id: MarketId, mk: Market, paid: Settling, batch: seq<UserId>, now: int)
    requires SoundEngine(e)
    requires id in db.markets && mk == Finalize(db.markets[id], now) && mk.row.phase == Resolving
    requires Payable(mk, batch) && GainsClaims(mk, paid.market, Members(batch))
    requires Inv(e, WithSettling(WithMarket(db, id, mk), id, paid), now)
    ensures CloseOut(paid, id).Ok?
    ensures var next := WithSettling(db, id, CloseOut(paid, id).value);
            Inv(e, next, now) && Settles(db, next, id, batch, now)
  {
    hide Inv, Finalize, Drained, Drainable, Unclaimed;
    var mid := WithSettling(WithMarket(db, id, mk), id, paid);
    assert mid == WithSettling(db, id, paid);
    assert AsSettling(mid, id) == paid;
    UnclaimedAfter(mk, paid.market, batch);
    if Unclaimed(paid.market) == {} {
      CloseOutSucceeds(e, mid, now, id);
      var s := CloseOut(paid, id).value;
      assert WithSettling(mid, id, s) == WithSettling(db, id, s);
      DrainChanges(mid, id, s.books);
    }
  }
}
