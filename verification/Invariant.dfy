/** The invariant of the committed state, market by market. */
module Invariant {
  import opened Wrappers
  import opened Amm
  import opened PricingEngine
  import opened Fee
  import opened MapSum
  import opened Books
  import opened Rules
  import opened Exchange

  // ---- One market -----------------------------------------------------------------------------

  ghost function Column(positions: map<UserId, seq<int>>, o: nat): map<UserId, int> {
    map u | u in positions :: if o < |positions[u]| then positions[u][o] else 0
  }

  ghost predicate RowsOk(positions: map<UserId, seq<int>>, outcomes: nat) {
    forall u :: u in positions ==>
      |positions[u]| == outcomes && forall o :: 0 <= o < outcomes ==> 0 <= positions[u][o]
  }

  /** Every outcome's inventory is the sum of the positions in it. */
  ghost predicate PositionsOk(mk: Market) {
    && RowsOk(mk.positions, Outcomes(mk.row))
    && forall o :: 0 <= o < Outcomes(mk.row) ==> SumOf(Column(mk.positions, o)) == mk.row.inventory[o]
  }

  ghost predicate ClaimsOk(mk: Market) {
    forall u :: u in mk.claims ==>
      && u in mk.positions && HasShares(mk.positions[u])
      && mk.row.result.Some?
      && mk.claims[u] == Credit(mk.row.result.value, Outcomes(mk.row), Holding(mk, u))
  }

  ghost predicate HasResult(row: Instance) {
    row.phase == Resolving || row.phase == Resolved || row.phase == Voided
  }

  ghost predicate PhaseOk(row: Instance, clock: int) {
    && (row.result.Some? <==> HasResult(row))
    && (row.result.Some? ==> InOutcomes(row.result.value, Outcomes(row)))
    && (row.phase == Voided ==> row.result == Some(Void))
    && (row.phase == Resolved ==> row.result.Some? && row.result != Some(Void))
    && (row.phase != Open ==> row.terms.closeMs <= clock)
    && (HasResult(row) ==> row.terms.finalizeAfter <= clock)
  }

  ghost predicate ShapeOk(row: Instance) {
    && Supported(row.inventory, row.terms.liquidity)
    && ValidRule(row.terms.rule) && Outcomes(row) == OutcomeCount(row.terms.rule)
    && TimesOrdered(row.terms)
  }

  ghost predicate TradesOk(mk: Market, clock: int) {
    && (forall i :: 0 <= i < |mk.trades| ==>
          && 0 <= mk.trades[i].fee && 0 <= mk.trades[i].total
          && mk.trades[i].at < mk.row.terms.closeMs && mk.trades[i].at <= clock
          && mk.trades[i].version <= mk.row.version)
    && (forall i, j :: 0 <= i < j < |mk.trades| ==>
          mk.trades[i].version < mk.trades[j].version && mk.trades[i].at <= mk.trades[j].at)
  }

  ghost predicate EvidenceOk(mk: Market, clock: int) {
    && (mk.evidence != [] ==> mk.row.terms.observationEnd <= clock)
    && (forall i :: 0 <= i < |mk.evidence| ==>
          && mk.row.terms.observationEnd <= mk.evidence[i].received <= clock
          && (mk.evidence[i].result.Some? ==> InOutcomes(mk.evidence[i].result.value, Outcomes(mk.row))))
  }

  /** The event log of a market has exactly one row for each version, in order. */
  ghost predicate OutboxOk(mk: Market) {
    && |mk.outbox| == mk.row.version + 1
    && forall i :: 0 <= i < |mk.outbox| ==> mk.outbox[i].version == i
  }

  /** Cash taken in and not yet released, net of the fee pot. */
  ghost function Cash(mk: Market, reserve: int): int {
    reserve + SumOf(mk.claims) - Fees(mk.trades)
  }

  ghost predicate MoneyOk(e: Engine, mk: Market, reserve: int)
    requires ShapeOk(mk.row)
  {
    if Terminal(mk.row) then reserve == 0 && Unclaimed(mk) == {}
    else Covers(e, mk.row.inventory, mk.row.terms.liquidity, mk.row.version, Cash(mk, reserve))
  }

  ghost predicate MarketOk(e: Engine, mk: Market, reserve: int, clock: int) {
    && ShapeOk(mk.row)
    && PhaseOk(mk.row, clock)
    && PositionsOk(mk)
    && ClaimsOk(mk)
    && TradesOk(mk, clock)
    && EvidenceOk(mk, clock)
    && OutboxOk(mk)
    && MoneyOk(e, mk, reserve)
  }

  // ---- The whole state ------------------------------------------------------------------------

  ghost predicate UsersKnown(b: Books, mk: Market) {
    && (forall u :: u in mk.positions ==> User(u) in b.balances)
    && (mk.row.terms.creator.Some? ==> User(mk.row.terms.creator.value) in b.balances)
  }

  ghost predicate MarketKept(e: Engine, db: Db, id: MarketId, clock: int)
    requires id in db.markets
  {
    && Reserve(id) in db.books.balances
    && MarketOk(e, db.markets[id], db.books.balances[Reserve(id)], clock)
    && UsersKnown(db.books, db.markets[id])
  }

  /** Which references may already be in the ledger. References of purged markets stay used: the
      market's id cannot be taken again because its reserve account remains. */
  ghost predicate RefKnown(db: Db, r: Ref) {
    match r
    case InitialIssuance => true
    case IssuanceExpansion => true
    case Grant(u) => User(u) in db.books.balances
    case Subsidy(i) => Reserve(i) in db.books.balances
    case TradeOf(i, v) => Reserve(i) in db.books.balances && (i in db.markets ==> v <= db.markets[i].row.version)
    case Claim(i, u) => Reserve(i) in db.books.balances && (i in db.markets ==> u in db.markets[i].claims)
    case Release(i) => Reserve(i) in db.books.balances && (i in db.markets ==> Terminal(db.markets[i].row))
    case FeeToTreasury(i) => Reserve(i) in db.books.balances && (i in db.markets ==> Terminal(db.markets[i].row))
    case FeeToCreator(i) => Reserve(i) in db.books.balances && (i in db.markets ==> Terminal(db.markets[i].row))
  }

  ghost predicate MarketsKept(e: Engine, db: Db, clock: int) {
    forall id {:trigger MarketKept(e, db, id, clock)} :: id in db.markets ==> MarketKept(e, db, id, clock)
  }

  ghost predicate RefsKnown(db: Db) {
    forall i {:trigger RefKnown(db, db.books.ledger[i].ref)} :: 0 <= i < |db.books.ledger| ==>
      RefKnown(db, db.books.ledger[i].ref)
  }

  ghost predicate KeysAnswered(keys: map<(UserId, string), KeyRow>) {
    forall k :: k in keys ==> keys[k].response.Some?
  }

  ghost predicate Inv(e: Engine, db: Db, clock: int) {
    && Balanced(db.books)
    && MarketsKept(e, db, clock)
    && RefsKnown(db)
    && KeysAnswered(db.keys)
  }

  // ---- Sums over positions ----------------------------------------------------------------------

  lemma FeesNonnegative(trades: seq<Trade>)
    requires forall i :: 0 <= i < |trades| ==> 0 <= trades[i].fee
    ensures 0 <= Fees(trades)
  {}

  lemma FeesAppend(trades: seq<Trade>, t: Trade)
    ensures Fees(trades + [t]) == Fees(trades) + t.fee
  {
    assert (trades + [t])[..|trades|] == trades;
  }

  lemma {:induction false} TotalAtMost(q: seq<int>, top: int)
    requires forall i :: 0 <= i < |q| ==> q[i] <= top
    ensures Total(q) <= |q| * top
  {
    if q != [] {
      TotalAtMost(q[..|q| - 1], top);
      assert |q| * top == (|q| - 1) * top + top;
    }
  }

  /** Every holder's credit. */
  ghost function Credits(mk: Market): map<UserId, int>
    requires mk.row.result.Some?
  {
    map u | u in mk.positions :: Credit(mk.row.result.value, Outcomes(mk.row), Holding(mk, u))
  }

  ghost function PrefixTotals(positions: map<UserId, seq<int>>, k: nat): map<UserId, int> {
    map u | u in positions :: if k <= |positions[u]| then Total(positions[u][..k]) else 0
  }

  /** Summing positions by holder or by outcome gives the same total. */
  lemma {:induction false} TotalsByColumn(mk: Market, k: nat)
    requires PositionsOk(mk) && k <= Outcomes(mk.row)
    ensures SumOf(PrefixTotals(mk.positions, k)) == Total(mk.row.inventory[..k])
  {
    hide SumOf, Column, RowsOk, PrefixTotals;
    var p := mk.positions;
    if k == 0 {
      NoColumns(p);
    } else {
      TotalsByColumn(mk, k - 1);
      NextColumn(p, k, Outcomes(mk.row));
      assert SumOf(Column(p, k - 1)) == mk.row.inventory[k - 1];
      assert mk.row.inventory[..k][..k - 1] == mk.row.inventory[..k - 1];
    }
  }

  lemma NoColumns(p: map<UserId, seq<int>>)
    ensures SumOf(PrefixTotals(p, 0)) == 0
  {
    SumOfZeros(PrefixTotals(p, 0));
  }

  lemma NextColumn(p: map<UserId, seq<int>>, k: nat, outcomes: nat)
    requires RowsOk(p, outcomes) && 0 < k <= outcomes
    ensures SumOf(PrefixTotals(p, k)) == SumOf(PrefixTotals(p, k - 1)) + SumOf(Column(p, k - 1))
  {
    hide SumOf;
    forall u | u in p
      ensures PrefixTotals(p, k)[u] == PrefixTotals(p, k - 1)[u] + Column(p, k - 1)[u]
    {
      assert p[u][..k][..k - 1] == p[u][..k - 1];
    }
    SumAdd(PrefixTotals(p, k - 1), Column(p, k - 1), PrefixTotals(p, k));
  }

  lemma TotalNonnegative(q: seq<int>)
    requires forall i :: 0 <= i < |q| ==> 0 <= q[i]
    ensures 0 <= Total(q)
  {}

  lemma CreditNonnegative(mk: Market, u: UserId)
    requires PositionsOk(mk) && mk.row.result.Some?
    ensures 0 <= Credit(mk.row.result.value, Outcomes(mk.row), Holding(mk, u))
  {
    TotalNonnegative(Holding(mk, u));
  }

  /** A holder of nothing is credited nothing. */
  lemma NoSharesNoCredit(mk: Market, u: UserId)
    requires PositionsOk(mk) && mk.row.result.Some? && u in mk.positions
    requires !HasShares(mk.positions[u])
    ensures Credit(mk.row.result.value, Outcomes(mk.row), Holding(mk, u)) == 0
  {
    var q := mk.positions[u];
    assert forall o :: 0 <= o < |q| ==> q[o] == 0;
    TotalAtMost(q, 0);
    TotalNonnegative(q);
  }

  // ---- What a credit is ---------------------------------------------------------------------------

  /** All shares of a holder, over its outcomes. */
  ghost function Shares(quantities: seq<int>): int {
    SumOf(map o | 0 <= o < |quantities| :: quantities[o])
  }

  /** A winning share is credited a thousand micros; when a market is void, each holder gets the
      largest whole amount that is no more than its equal part of a thousand micros a share. */
  ghost predicate IsCredit(result: Resolution, quantities: seq<int>, credit: int) {
    var n := |quantities|;
    match result
    case Winner(w) => credit == if w < n then 1000 * quantities[w] else 0
    case Void => n > 0 && 0 <= Shares(quantities) ==> n * credit <= 1000 * Shares(quantities) < n * (credit + 1)
  }

  lemma {:induction false} SharesAreTotal(quantities: seq<int>)
    ensures Shares(quantities) == Total(quantities)
  {
    var byOutcome := map o | 0 <= o < |quantities| :: quantities[o];
    if quantities != [] {
      var n := |quantities| - 1;
      SharesAreTotal(quantities[..n]);
      var rest := map o | 0 <= o < |quantities[..n]| :: quantities[..n][o];
      assert byOutcome == rest[n := quantities[n]];
      SumPut(rest, n, quantities[n]);
    } else {
      assert byOutcome == map[];
    }
  }

  lemma CreditIsExact(result: Resolution, quantities: seq<int>)
    ensures IsCredit(result, quantities, Credit(result, |quantities|, quantities))
  {
    SharesAreTotal(quantities);
    if result.Void? && |quantities| > 0 && 0 <= Total(quantities) {
      EqualPart(Total(quantities) * 1000, |quantities|);
    }
  }

  lemma EqualPart(a: int, n: int)
    requires 0 <= a && 0 < n
    ensures n * Quotient(a, n) <= a < n * (Quotient(a, n) + 1)
  {}

  /** All winning credits together are a thousand micros for each share of the winner. */
  lemma WinningCredits(mk: Market, w: nat)
    requires PositionsOk(mk) && w < Outcomes(mk.row) && mk.row.result == Some(Winner(w))
    ensures SumOf(Credits(mk)) == 1000 * mk.row.inventory[w]
  {
    forall u | u in mk.positions ensures Credits(mk)[u] == Times(1000, Column(mk.positions, w)[u]) {
    }
    SumTimes(Column(mk.positions, w), 1000, Credits(mk));
  }

  /** Whatever the result, all credits together are at most the largest payout. */
  lemma CreditsWithinPayout(mk: Market)
    requires PositionsOk(mk) && Outcomes(mk.row) > 0
    requires mk.row.result.Some? && InOutcomes(mk.row.result.value, Outcomes(mk.row))
    ensures SumOf(Credits(mk)) <= 1000 * Max(mk.row.inventory)
  {
    match mk.row.result.value
    case Winner(o) =>
      WinningCredits(mk, o);
    case Void =>
      VoidCreditsWithinPayout(mk);
  }

  ghost function Paid(mk: Market): map<UserId, int>
    requires mk.row.result.Some?
  {
    map u | u in mk.positions :: Times(Outcomes(mk.row), Credits(mk)[u])
  }

  ghost function Owed(mk: Market): map<UserId, int> {
    map u | u in mk.positions :: Times(1000, PrefixTotals(mk.positions, Outcomes(mk.row))[u])
  }

  lemma VoidShare(mk: Market, u: UserId)
    requires PositionsOk(mk) && Outcomes(mk.row) > 0 && mk.row.result == Some(Void)
    requires u in mk.positions
    ensures Paid(mk)[u] <= Owed(mk)[u]
  {
    var q := mk.positions[u];
    assert q[..Outcomes(mk.row)] == q;
    TotalNonnegative(q);
    FloorShare(Total(q) * 1000, Outcomes(mk.row));
  }

  lemma VoidCreditsWithinPayout(mk: Market)
    requires PositionsOk(mk) && Outcomes(mk.row) > 0 && mk.row.result == Some(Void)
    ensures SumOf(Credits(mk)) <= 1000 * Max(mk.row.inventory)
  {
    var n, inventory := Outcomes(mk.row), mk.row.inventory;
    forall u | u in mk.positions ensures Paid(mk)[u] <= Owed(mk)[u] {
      VoidShare(mk, u);
    }
    SumMonotone(Paid(mk), Owed(mk));
    SumTimes(Credits(mk), n, Paid(mk));
    SumTimes(PrefixTotals(mk.positions, n), 1000, Owed(mk));
    TotalsByColumn(mk, n);
    assert inventory[..n] == inventory;
    TotalAtMost(inventory, Max(inventory));
    DivideBound(n, SumOf(Credits(mk)), Max(inventory));
  }

  lemma FloorShare(a: int, n: int)
    requires 0 <= a && 0 < n
    ensures Times(n, Quotient(a, n)) <= a
  {}

  lemma DivideBound(n: int, x: int, y: int)
    requires 0 < n && Times(n, x) <= 1000 * (n * y)
    ensures x <= 1000 * y
  {
    TimesOrder(n, x, 1000 * y);
    assert n * (1000 * y) == 1000 * (n * y);
  }

  lemma TimesOrder(n: int, x: int, y: int)
    requires 0 < n
    ensures x > y ==> n * x > n * y
  {}
}
