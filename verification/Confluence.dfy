/** Settlement is confluent and terminates: whatever the batches, the rolled-back attempts and
    their times, it ends in the same market and the same balances, after a number of transactions
    that depends only on the number of holders. */
module Confluence {
  import opened Wrappers
  import opened PricingEngine
  import opened MapSum
  import opened Books
  import opened Rules
  import opened Exchange
  import opened Invariant
  import opened Preservation
  import opened Settlement
  import opened Transactions

  // ---- The end state, in closed form ------------------------------------------------------------------

  /** How a market is or will be decided; the time of finalization plays no part in it. */
  function Decision(mk: Market): Resolution {
    var latest := Latest(mk.evidence);
    if mk.row.result.Some? then mk.row.result.value
    else if latest.Some? && latest.value.result.Some? then latest.value.result.value
    else Void
  }

  function Decided(mk: Market): Market {
    if mk.row.phase == Closed then FinalizedMarket(mk, Decision(mk)) else mk
  }

  /** The credits still due. */
  ghost function Dues(mk: Market): map<UserId, int>
    requires mk.row.result.Some?
  {
    map u | u in Unclaimed(mk) :: Credit(mk.row.result.value, Outcomes(mk.row), Holding(mk, u))
  }

  /** Balances once the reserve of `id` has paid each of `credits`. */
  ghost function PaidOut(balances: map<AccountId, int>, id: MarketId, credits: map<UserId, int>): map<AccountId, int> {
    map a | a in balances ::
      balances[a]
      + (if a.User? && a.user in credits then credits[a.user] else 0)
      - (if a == Reserve(id) then SumOf(credits) else 0)
  }

  ghost function NewClaims(mk: Market, next: Market): map<UserId, int> {
    next.claims - mk.claims.Keys
  }

  /** Market `id` of `cur` is being paid out, having started from `mk` at `balances`. */
  ghost predicate Paying(balances: map<AccountId, int>, mk: Market, cur: Db, id: MarketId) {
    && id in cur.markets && mk.row.phase == Resolving && mk.row.result.Some?
    && cur.markets[id] == mk.(claims := cur.markets[id].claims)
    && mk.claims.Keys <= cur.markets[id].claims.Keys <= mk.claims.Keys + Unclaimed(mk)
    && (forall u :: u in mk.claims ==> cur.markets[id].claims[u] == mk.claims[u])
    && cur.books.balances == PaidOut(balances, id, NewClaims(mk, cur.markets[id]))
  }

  ghost predicate Done(balances: map<AccountId, int>, mk: Market, cur: Db, id: MarketId) {
    && id in cur.markets && mk.row.result.Some?
    && Treasury in balances && Reserve(id) in balances
    && (mk.row.terms.creator.Some? ==> User(mk.row.terms.creator.value) in balances)
    && cur.markets[id] == TerminalMarket(mk.(claims := mk.claims + Dues(mk)))
    && cur.books.balances == DrainedBalances(PaidOut(balances, id, Dues(mk)), mk, id)
  }

  ghost predicate Stage(db: Db, cur: Db, id: MarketId)
    requires id in db.markets
  {
    || cur == db
    || Paying(db.books.balances, Decided(db.markets[id]), cur, id)
    || Done(db.books.balances, Decided(db.markets[id]), cur, id)
  }

  // ---- Paying a batch -----------------------------------------------------------------------------------

  lemma PaidOutNothing(balances: map<AccountId, int>, id: MarketId)
    ensures PaidOut(balances, id, map[]) == balances
  {}

  lemma PaidOutMore(balances: map<AccountId, int>, id: MarketId, credits: map<UserId, int>, user: UserId, credit: int)
    requires Reserve(id) in balances && User(user) in balances && user !in credits
    ensures var paid := PaidOut(balances, id, credits);
            PaidOut(balances, id, credits[user := credit])
            == paid[Reserve(id) := paid[Reserve(id)] - credit][User(user) := paid[User(user)] + credit]
  {
    SumPut(credits, user, credit);
  }

  /** One more claim of a market that is being paid out. */
  lemma ClaimKeepsPaying(
      e: Engine, balances: map<AccountId, int>, mk: Market, cur: Db, clock: int, id: MarketId, user: UserId
    )
    requires SoundEngine(e) && Inv(e, cur, clock)
    requires Paying(balances, mk, cur, id) && user in Unclaimed(cur.markets[id])
    ensures PayClaim(AsSettling(cur, id), id, user).Ok?
    ensures var next := WithSettling(cur, id, PayClaim(AsSettling(cur, id), id, user).value);
            Paying(balances, mk, next, id) && Inv(e, next, clock)
  {
    hide Inv, ClaimReady, PayClaim, PaidOut, SumOf, Claimed, HasShares, Changes, Allowed;
    ClaimKeepsInv(e, cur, clock, id, user);
    ReadyClaimPays(cur, id, user);
    ReadyAccounts(cur, id, user);
    var next := AfterClaim(cur, id, user);
    ClaimedAdds(cur.markets[id], user);
    var credit := Claimed(cur.markets[id], user).claims[user];
    assert user in Unclaimed(mk) && user !in NewClaims(mk, cur.markets[id]);
    PaidOutKeys(balances, id, NewClaims(mk, cur.markets[id]));
    PaidOutMore(balances, id, NewClaims(mk, cur.markets[id]), user, credit);
    assert NewClaims(mk, next.markets[id]) == NewClaims(mk, cur.markets[id])[user := credit];
  }

  lemma PaidOutKeys(balances: map<AccountId, int>, id: MarketId, credits: map<UserId, int>)
    ensures PaidOut(balances, id, credits).Keys == balances.Keys
  {}

  lemma ReadyAccounts(db: Db, id: MarketId, user: UserId)
    requires ClaimReady(db, id, user)
    ensures id in db.markets && db.markets[id].row.result.Some?
    ensures Reserve(id) in db.books.balances && User(user) in db.books.balances
  {}

  lemma ClaimedAdds(mk: Market, user: UserId)
    requires mk.row.result.Some?
    ensures Claimed(mk, user) == mk.(claims := Claimed(mk, user).claims)
    ensures user in Claimed(mk, user).claims
    ensures Claimed(mk, user).claims == mk.claims[user := Claimed(mk, user).claims[user]]
  {}

  lemma {:induction false} BatchKeepsPaying(
      e: Engine, balances: map<AccountId, int>, mk: Market, cur: Db, clock: int, id: MarketId,
      batch: seq<UserId>
    )
    requires SoundEngine(e) && Inv(e, cur, clock)
    requires Paying(balances, mk, cur, id) && Payable(cur.markets[id], batch)
    ensures PayClaims(AsSettling(cur, id), id, batch).Ok?
    ensures var paid := PayClaims(AsSettling(cur, id), id, batch).value;
            && Paying(balances, mk, WithSettling(cur, id, paid), id)
            && Inv(e, WithSettling(cur, id, paid), clock)
            && GainsClaims(cur.markets[id], paid.market, Members(batch))
  {
    hide Inv, PayClaim, GainsClaims, Paying;
    PayingIsResolving(balances, mk, cur, id);
    BatchSucceeds(e, cur, clock, id, batch);
    if batch == [] {
      assert WithSettling(cur, id, AsSettling(cur, id)) == cur;
    } else {
      var n := |batch| - 1;
      BatchKeepsPaying(e, balances, mk, cur, clock, id, batch[..n]);
      var s := PayClaims(AsSettling(cur, id), id, batch[..n]).value;
      var mid := WithSettling(cur, id, s);
      assert AsSettling(mid, id) == s;
      PayingIsResolving(balances, mk, mid, id);
      ClaimGains(cur.markets[id], s.market, batch);
      ClaimKeepsPaying(e, balances, mk, mid, clock, id, batch[n]);
      var paid := PayClaim(s, id, batch[n]).value;
      assert WithSettling(mid, id, paid) == WithSettling(cur, id, paid);
    }
  }

  lemma PayingIsResolving(balances: map<AccountId, int>, mk: Market, cur: Db, id: MarketId)
    requires Paying(balances, mk, cur, id)
    ensures id in cur.markets && cur.markets[id].row.phase == Resolving && cur.markets[id].row.result.Some?
  {}

  // ---- Closing out ----------------------------------------------------------------------------------------

  lemma AllClaimed(balances: map<AccountId, int>, mk: Market, cur: Db, id: MarketId)
    requires Paying(balances, mk, cur, id) && ClaimsOk(cur.markets[id]) && Unclaimed(cur.markets[id]) == {}
    ensures NewClaims(mk, cur.markets[id]) == Dues(mk)
    ensures cur.markets[id].claims == mk.claims + Dues(mk)
  {
    hide Credit, HasShares, PaidOut;
    var c := cur.markets[id];
    forall u | u in Unclaimed(mk) ensures u in c.claims {
      assert u !in Unclaimed(c);
    }
    assert NewClaims(mk, c).Keys == Unclaimed(mk);
    forall u | u in Unclaimed(mk) ensures c.claims[u] == Dues(mk)[u] {
      assert Holding(c, u) == Holding(mk, u);
    }
  }

  lemma CloseOutIsDone(e: Engine, balances: map<AccountId, int>, mk: Market, cur: Db, clock: int, id: MarketId)
    requires SoundEngine(e) && Inv(e, cur, clock)
    requires Paying(balances, mk, cur, id) && Unclaimed(cur.markets[id]) == {}
    ensures CloseOut(AsSettling(cur, id), id).Ok?
    ensures Done(balances, mk, WithSettling(cur, id, CloseOut(AsSettling(cur, id), id).value), id)
  {
    hide Inv, CloseOut, TerminalMarket, Unclaimed, Dues;
    CloseOutSucceeds(e, cur, clock, id);
    ClaimsAreOk(e, cur, clock, id);
    AllClaimed(balances, mk, cur, id);
    DrainedIsDone(balances, mk, cur, CloseOut(AsSettling(cur, id), id).value, id);
  }

  lemma ClaimsAreOk(e: Engine, db: Db, clock: int, id: MarketId)
    requires Inv(e, db, clock) && id in db.markets
    ensures ClaimsOk(db.markets[id]) && PhaseOk(db.markets[id].row, clock)
  {
    MarketIsKept(e, db, clock, id);
  }

  lemma DrainedIsDone(balances: map<AccountId, int>, mk: Market, cur: Db, s: Settling, id: MarketId)
    requires Paying(balances, mk, cur, id)
    requires NewClaims(mk, cur.markets[id]) == Dues(mk) && cur.markets[id].claims == mk.claims + Dues(mk)
    requires Drainable(cur.books, cur.markets[id], id) && Treasury in cur.books.balances
    requires Drained(cur.books, s.books, cur.markets[id], id) && s.market == TerminalMarket(cur.markets[id])
    ensures Done(balances, mk, WithSettling(cur, id, s), id)
  {
    hide Balanced, Used, Dues, Unclaimed, SumOf;
    PaidOutKeys(balances, id, Dues(mk));
    assert DrainedBalances(cur.books.balances, cur.markets[id], id) == DrainedBalances(cur.books.balances, mk, id);
  }

  // ---- Attempts ---------------------------------------------------------------------------------------------

  /** One settlement transaction; it may be rolled back instead of committing. */
  datatype Attempt = Attempt(batch: seq<UserId>, now: int, commits: bool)

  function Attempted(db: Db, id: MarketId, a: Attempt): Db {
    match SettleTx(db, id, a.batch, a.now)
    case Ok(next) => if a.commits then next else db
    case Err(_) => db
  }

  function Attempts(db: Db, id: MarketId, attempts: seq<Attempt>): Db {
    if attempts == [] then db
    else Attempted(Attempts(db, id, attempts[..|attempts| - 1]), id, attempts[|attempts| - 1])
  }

  function Time(clock: int, attempts: seq<Attempt>): int {
    if attempts == [] then clock else attempts[|attempts| - 1].now
  }

  ghost predicate LegalAttempt(db: Db, clock: int, id: MarketId, a: Attempt) {
    clock <= a.now && id in db.markets && ValidBatch(Finalize(db.markets[id], a.now), a.batch)
  }

  ghost predicate LegalAttempts(db: Db, clock: int, id: MarketId, attempts: seq<Attempt>) {
    forall k :: 0 <= k < |attempts| ==>
      LegalAttempt(Attempts(db, id, attempts[..k]), Time(clock, attempts[..k]), id, attempts[k])
  }

  lemma FinalizeDecides(mk: Market, clock: int, now: int)
    requires PhaseOk(mk.row, clock) && Finalize(mk, now).row.phase == Resolving
    ensures Finalize(mk, now) == Decided(mk) && Decided(mk).row.result.Some?
  {}

  /** After its finalization step, a transaction finds the market being paid out. */
  lemma FinalizedIsPaying(e: Engine, db: Db, cur: Db, clock: int, id: MarketId, now: int)
    requires Inv(e, cur, clock) && clock <= now
    requires id in db.markets && id in cur.markets && Stage(db, cur, id)
    requires Finalize(cur.markets[id], now).row.phase == Resolving
    ensures Paying(db.books.balances, Decided(db.markets[id]), WithMarket(cur, id, Finalize(cur.markets[id], now)), id)
  {
    hide Inv, PaidOut, FinalResult, Unclaimed, Decision;
    ClaimsAreOk(e, cur, clock, id);
    FinalizeDecides(cur.markets[id], clock, now);
    if cur == db {
      PaidOutNothing(db.books.balances, id);
      var mk := Decided(db.markets[id]);
      assert NewClaims(mk, mk) == map[];
    }
  }

  lemma AttemptKeepsStage(e: Engine, db: Db, cur: Db, clock: int, id: MarketId, a: Attempt)
    requires SoundEngine(e) && Inv(e, cur, clock)
    requires id in db.markets && Stage(db, cur, id) && LegalAttempt(cur, clock, id, a)
    ensures Stage(db, Attempted(cur, id, a), id) && id in Attempted(cur, id, a).markets
    ensures Inv(e, Attempted(cur, id, a), a.now)
  {
    hide Unclaimed, Inv, Paying, Done, PayClaims, CloseOut, Finalize, Settles, Decided;
    SettleSucceeds(e, cur, clock, id, a.batch, a.now);
    var next := SettleTx(cur, id, a.batch, a.now).value;
    InvLater(e, cur, clock, a.now);
    var mk := Finalize(cur.markets[id], a.now);
    if mk.row.phase == Resolving {
      var balances, start, mid := db.books.balances, Decided(db.markets[id]), WithMarket(cur, id, mk);
      FinalizedIsPaying(e, db, cur, clock, id, a.now);
      FinalizeKeepsInv(e, cur, a.now, id);
      assert AsSettling(mid, id) == Settling(cur.books, mk);
      BatchKeepsPaying(e, balances, start, mid, a.now, id, a.batch);
      var paid := PayClaims(AsSettling(mid, id), id, a.batch).value;
      var after := WithSettling(mid, id, paid);
      assert AsSettling(after, id) == paid;
      PayingIsResolving(balances, start, mid, id);
      if Unclaimed(paid.market) == {} {
        CloseOutIsDone(e, balances, start, after, a.now, id);
        assert WithSettling(after, id, CloseOut(paid, id).value) == next;
      } else {
        ClosesLater(paid, id);
        assert next == after;
      }
    }
  }

  lemma ClosesLater(s: Settling, id: MarketId)
    requires Unclaimed(s.market) != {}
    ensures CloseOut(s, id) == Ok(s)
  {}

  lemma PrefixIsLegal(db: Db, clock: int, id: MarketId, attempts: seq<Attempt>, n: nat)
    requires LegalAttempts(db, clock, id, attempts) && n <= |attempts|
    ensures LegalAttempts(db, clock, id, attempts[..n])
    ensures n < |attempts| ==>
      LegalAttempt(Attempts(db, id, attempts[..n]), Time(clock, attempts[..n]), id, attempts[n])
  {
    hide LegalAttempt, Attempts, Time;
    forall k | 0 <= k < n
      ensures LegalAttempt(Attempts(db, id, attempts[..n][..k]), Time(clock, attempts[..n][..k]), id, attempts[..n][k])
    {
      assert attempts[..n][..k] == attempts[..k];
    }
  }

  lemma {:induction false} AttemptsKeepStage(e: Engine, db: Db, clock: int, id: MarketId, attempts: seq<Attempt>)
    requires SoundEngine(e) && Inv(e, db, clock)
    requires id in db.markets && LegalAttempts(db, clock, id, attempts)
    ensures var cur := Attempts(db, id, attempts);
            Stage(db, cur, id) && id in cur.markets && Inv(e, cur, Time(clock, attempts))
  {
    hide Inv, Stage, Attempted, LegalAttempt;
    if attempts == [] {
      assert Stage(db, db, id) by { StageStarts(db, id); }
    } else {
      var n := |attempts| - 1;
      PrefixIsLegal(db, clock, id, attempts, n);
      AttemptsKeepStage(e, db, clock, id, attempts[..n]);
      AttemptKeepsStage(e, db, Attempts(db, id, attempts[..n]), Time(clock, attempts[..n]), id, attempts[n]);
    }
  }

  lemma StageStarts(db: Db, id: MarketId)
    requires id in db.markets
    ensures Stage(db, db, id)
  {}

  // ---- Confluence ---------------------------------------------------------------------------------------------

  /** A settlement that reached the terminal state reached the one its start determines: every
      holder has exactly one claim, of the credit that its position and the result give. */
  lemma TerminalIsDetermined(e: Engine, db: Db, clock: int, id: MarketId, attempts: seq<Attempt>)
    requires SoundEngine(e) && Inv(e, db, clock)
    requires id in db.markets && !Terminal(db.markets[id].row) && LegalAttempts(db, clock, id, attempts)
    requires var cur := Attempts(db, id, attempts); id in cur.markets && Terminal(cur.markets[id].row)
    ensures Done(db.books.balances, Decided(db.markets[id]), Attempts(db, id, attempts), id)
  {
    hide Inv, Done, PaidOut, Attempts, Unclaimed;
    AttemptsKeepStage(e, db, clock, id, attempts);
  }

  /** Any two ways of settling a market to the end, with any batches, rollbacks and times, end in
      the same market and the same balances. */
  lemma SettlementIsConfluent(e: Engine, db: Db, clock: int, id: MarketId, one: seq<Attempt>, two: seq<Attempt>)
    requires SoundEngine(e) && Inv(e, db, clock)
    requires id in db.markets && !Terminal(db.markets[id].row)
    requires LegalAttempts(db, clock, id, one) && LegalAttempts(db, clock, id, two)
    requires var a := Attempts(db, id, one); id in a.markets && Terminal(a.markets[id].row)
    requires var b := Attempts(db, id, two); id in b.markets && Terminal(b.markets[id].row)
    ensures Attempts(db, id, one).markets[id] == Attempts(db, id, two).markets[id]
    ensures Attempts(db, id, one).books.balances == Attempts(db, id, two).books.balances
  {
    hide Inv, Attempts, Decided, PaidOut, Dues, TerminalMarket, DrainedBalances, LegalAttempts;
    TerminalIsDetermined(e, db, clock, id, one);
    TerminalIsDetermined(e, db, clock, id, two);
  }

  // ---- Termination ----------------------------------------------------------------------------------------------

  /** How many more settlement transactions a decided market needs. */
  function Rounds(mk: Market): nat {
    if Terminal(mk.row) then 0
    else if |Unclaimed(mk)| <= BATCH then 1
    else (|Unclaimed(mk)| + BATCH - 1) / BATCH
  }

  lemma BatchSize(mk: Market, batch: seq<UserId>)
    requires ValidBatch(mk, batch)
    ensures Members(batch) <= Unclaimed(mk)
    ensures |Members(batch)| == if |Unclaimed(mk)| <= BATCH then |Unclaimed(mk)| else BATCH
    ensures |Unclaimed(mk)| <= BATCH <==> Members(batch) == Unclaimed(mk)
  {
    DistinctMembers(batch);
    assert Members(batch) <= Unclaimed(mk);
    SubsetSize(Members(batch), Unclaimed(mk));
    if |batch| < BATCH {
      assert Members(batch) == Unclaimed(mk);
    }
  }

  lemma {:induction false} DistinctMembers(batch: seq<UserId>)
    requires forall i, j :: 0 <= i < j < |batch| ==> batch[i] != batch[j]
    ensures |Members(batch)| == |batch|
  {
    if batch != [] {
      var n := |batch| - 1;
      DistinctMembers(batch[..n]);
      assert batch == batch[..n] + [batch[n]];
      assert Members(batch) == Members(batch[..n]) + {batch[n]};
    } else {
      assert Members(batch) == {};
    }
  }

  lemma SubsetSize(a: set<UserId>, b: set<UserId>)
    requires a <= b
    ensures |b - a| == |b| - |a|
    ensures |a| == |b| <==> a == b
  {
    assert b == a + (b - a);
    if a != b {
      var x :| x in b && x !in a;
      assert x in b - a;
    }
  }

  /** Every committed settlement transaction of a decided market, started or not, uses up exactly
      one round: none is wasted, and none is left after the last. */
  lemma SettlementProgresses(e: Engine, db: Db, clock: int, id: MarketId, batch: seq<UserId>, now: int)
    requires SoundEngine(e) && Inv(e, db, clock) && clock <= now && id in db.markets
    requires var mk := Finalize(db.markets[id], now);
             mk.row.phase == Resolving && ValidBatch(mk, batch)
    ensures SettleTx(db, id, batch, now).Ok?
    ensures var next := SettleTx(db, id, batch, now).value;
            && id in next.markets
            && Rounds(next.markets[id]) == Rounds(Finalize(db.markets[id], now)) - 1
            && (next.markets[id].row.phase == Resolving || Terminal(next.markets[id].row))
  {
    hide Inv, SettleTx, Finalize, Members;
    var mk := Finalize(db.markets[id], now);
    SettleSucceeds(e, db, clock, id, batch, now);
    var next := SettleTx(db, id, batch, now).value.markets[id];
    BatchSize(mk, batch);
    if Unclaimed(mk) != Members(batch) {
      UnclaimedLeft(mk, next, Members(batch));
      SubsetSize(Members(batch), Unclaimed(mk));
    }
  }

  lemma UnclaimedLeft(mk: Market, next: Market, users: set<UserId>)
    requires next == mk.(claims := next.claims) && next.claims.Keys == mk.claims.Keys + users
    ensures Unclaimed(next) == Unclaimed(mk) - users
  {}

  function Commits(attempts: seq<Attempt>): nat {
    if attempts == [] then 0
    else Commits(attempts[..|attempts| - 1]) + (if attempts[|attempts| - 1].commits then 1 else 0)
  }

  lemma OneAttempt(e: Engine, db: Db, clock: int, id: MarketId, a: Attempt)
    requires SoundEngine(e) && Inv(e, db, clock) && LegalAttempt(db, clock, id, a)
    requires db.markets[id].row.phase == Resolving || Terminal(db.markets[id].row)
    ensures var next := Attempted(db, id, a);
            && id in next.markets
            && (next.markets[id].row.phase == Resolving || Terminal(next.markets[id].row))
            && Rounds(next.markets[id])
               == (if a.commits && Rounds(db.markets[id]) > 0 then Rounds(db.markets[id]) - 1 else Rounds(db.markets[id]))
  {
    hide Inv, Unclaimed, FinalResult, PayClaims, CloseOut;
    assert Finalize(db.markets[id], a.now) == db.markets[id];
    if db.markets[id].row.phase == Resolving {
      SettlementProgresses(e, db, clock, id, a.batch, a.now);
    }
  }

  /** A market being settled is terminal exactly when as many transactions have committed as it
      needed at the start; rolled-back attempts neither help nor harm. */
  lemma {:induction false} SettlementTerminates(e: Engine, db: Db, clock: int, id: MarketId, attempts: seq<Attempt>)
    requires SoundEngine(e) && Inv(e, db, clock)
    requires id in db.markets && db.markets[id].row.phase == Resolving
    requires LegalAttempts(db, clock, id, attempts)
    ensures var end := Attempts(db, id, attempts);
            && id in end.markets
            && (end.markets[id].row.phase == Resolving || Terminal(end.markets[id].row))
            && Rounds(end.markets[id])
               == (if Commits(attempts) <= Rounds(db.markets[id]) then Rounds(db.markets[id]) - Commits(attempts) else 0)
            && (Terminal(end.markets[id].row) <==> Rounds(db.markets[id]) <= Commits(attempts))
  {
    hide Inv, Attempted, LegalAttempt, Unclaimed;
    if attempts != [] {
      var n := |attempts| - 1;
      PrefixIsLegal(db, clock, id, attempts, n);
      SettlementTerminates(e, db, clock, id, attempts[..n]);
      AttemptsKeepStage(e, db, clock, id, attempts[..n]);
      OneAttempt(e, Attempts(db, id, attempts[..n]), Time(clock, attempts[..n]), id, attempts[n]);
    }
  }
}
