/** How the committed state may change in one transaction: what a market keeps, what the ledger
    gains, and which idempotency rows survive. Every relation here is transitive, so it holds
    between any two points of a run. */
module Evolution {
  import opened Books
  import opened Exchange
  import opened Settlement

  // ---- One market -----------------------------------------------------------------------------

  function Rank(phase: Phase): nat {
    match phase
    case Open => 0
    case Closed => 1
    case Resolving => 2
    case Resolved => 3
    case Voided => 3
  }

  /** Published rules never change; states move forward only; a version names one row; inventory is
      frozen once trading ends, the result and its evidence once set, claims once paid; and a
      terminal market never changes again. */
  ghost predicate MarketEvolves(mk: Market, next: Market) {
    && next.row.terms == mk.row.terms
    && Rank(mk.row.phase) <= Rank(next.row.phase)
    && mk.row.version <= next.row.version
    && (mk.row.version == next.row.version ==> next.row == mk.row)
    && (mk.row.result.Some? ==> next.row.result == mk.row.result && next.evidence == mk.evidence)
    && (mk.row.phase != Open ==>
          && next.row.inventory == mk.row.inventory && next.positions == mk.positions && next.trades == mk.trades)
    && mk.outbox <= next.outbox && mk.trades <= next.trades && mk.evidence <= next.evidence
    && (forall u :: u in mk.claims ==> u in next.claims && next.claims[u] == mk.claims[u])
    && (Terminal(mk.row) ==> next == mk)
  }

  ghost predicate MarketsEvolve(db: Db, next: Db) {
    && (forall i :: i in db.markets && i in next.markets ==> MarketEvolves(db.markets[i], next.markets[i]))
    && (forall i :: i in db.markets ==> Reserve(i) in db.books.balances)
    && (forall i :: i in next.markets && i !in db.markets ==> Reserve(i) !in db.books.balances)
  }

  ghost predicate KeysPersist(db: Db, next: Db) {
    forall k :: k in db.keys ==> k in next.keys && next.keys[k] == db.keys[k]
  }

  ghost predicate Evolves(db: Db, next: Db) {
    && MarketsEvolve(db, next)
    && KeysPersist(db, next)
    && db.books.ledger <= next.books.ledger
    && db.books.balances.Keys <= next.books.balances.Keys
  }

  lemma EvolvesTransitively(a: Db, b: Db, c: Db)
    requires Evolves(a, b) && Evolves(b, c)
    ensures Evolves(a, c)
  {
    forall i | i in a.markets && i in c.markets ensures MarketEvolves(a.markets[i], c.markets[i]) {
      assert i in b.markets;
      MarketEvolvesTransitively(a.markets[i], b.markets[i], c.markets[i]);
    }
  }

  lemma MarketEvolvesTransitively(a: Market, b: Market, c: Market)
    requires MarketEvolves(a, b) && MarketEvolves(b, c)
    ensures MarketEvolves(a, c)
  {}

  // ---- What the ledger gains ----------------------------------------------------------------------

  /** Who pays whom under each kind of reference. */
  ghost predicate Shaped(t: Transfer) {
    && 0 <= t.amount
    && match t.ref
       case InitialIssuance => t.from == Issuance && t.to == Treasury
       case IssuanceExpansion => t.from == Issuance && t.to == Treasury
       case Grant(u) => t.from == Treasury && t.to == User(u)
       case Subsidy(i) => t.from == Treasury && t.to == Reserve(i)
       case TradeOf(i, _) => (t.from.User? && t.to == Reserve(i)) || (t.from == Reserve(i) && t.to.User?)
       case Claim(i, u) => t.from == Reserve(i) && t.to == User(u)
       case Release(i) => t.from == Reserve(i) && t.to == Treasury
       case FeeToTreasury(i) => t.from == Reserve(i) && t.to == Treasury
       case FeeToCreator(i) => t.from == Reserve(i) && t.to.User?
  }

  ghost predicate Issues(t: Transfer) {
    t.ref == InitialIssuance || t.ref == IssuanceExpansion
  }

  function TradeCount(ledger: seq<Transfer>): nat {
    if ledger == [] then 0
    else TradeCount(ledger[..|ledger| - 1]) + (if ledger[|ledger| - 1].ref.TradeOf? then 1 else 0)
  }

  /** The ledger `n` continues `b`: nothing is issued, and only markets outside `known` are
      subsidised. */
  ghost predicate Continues(b: seq<Transfer>, n: seq<Transfer>, known: set<MarketId>) {
    && b <= n
    && forall k :: |b| <= k < |n| ==>
         && Shaped(n[k]) && !Issues(n[k])
         && (n[k].ref.Subsidy? ==> n[k].ref.market !in known)
  }

  lemma ContinuesTransitively(a: seq<Transfer>, b: seq<Transfer>, c: seq<Transfer>, known: set<MarketId>)
    requires Continues(a, b, known) && Continues(b, c, known)
    ensures Continues(a, c, known)
  {}

  lemma PostContinues(b: Books, t: Transfer, known: set<MarketId>)
    requires Post(b, t).Ok? && Shaped(t) && !Issues(t) && (t.ref.Subsidy? ==> t.ref.market !in known)
    ensures Continues(b.ledger, Post(b, t).value.ledger, known)
    ensures Post(b, t).value.balances.Keys == b.balances.Keys
    ensures TradeCount(Post(b, t).value.ledger) == TradeCount(b.ledger) + (if t.ref.TradeOf? then 1 else 0)
  {
    assert (b.ledger + [t])[..|b.ledger|] == b.ledger;
  }

  /** What a transaction other than a trade does to the books. */
  ghost predicate BooksContinue(b: Books, n: Books, known: set<MarketId>) {
    && Continues(b.ledger, n.ledger, known)
    && b.balances.Keys <= n.balances.Keys
    && TradeCount(n.ledger) == TradeCount(b.ledger)
  }

  lemma {:induction false} ClaimsContinue(s: Settling, id: MarketId, batch: seq<UserId>, known: set<MarketId>)
    requires PayClaims(s, id, batch).Ok?
    ensures BooksContinue(s.books, PayClaims(s, id, batch).value.books, known)
    ensures var next := PayClaims(s, id, batch).value.market;
            && next == s.market.(claims := next.claims)
            && forall u :: u in s.market.claims ==> u in next.claims && next.claims[u] == s.market.claims[u]
  {
    hide Allowed, Posted, Credit;
    if batch != [] {
      var rest, last := batch[..|batch| - 1], batch[|batch| - 1];
      ClaimsContinue(s, id, rest, known);
      var before := PayClaims(s, id, rest).value;
      var mk := before.market;
      var credit := Credit(mk.row.result.value, Outcomes(mk.row), Holding(mk, last));
      var t := Transfer(Reserve(id), User(last), credit, Claim(id, last));
      AllowedIsNonnegative(before.books, t);
      PostContinues(before.books, t, known);
      ContinuesTransitively(s.books.ledger, before.books.ledger, Post(before.books, t).value.ledger, known);
    }
  }

  lemma AllowedIsNonnegative(b: Books, t: Transfer)
    requires Post(b, t).Ok?
    ensures 0 <= t.amount && Allowed(b, t)
  {}

  lemma DrainContinues(b: Books, mk: Market, id: MarketId, known: set<MarketId>)
    requires Drain(b, mk, id).Ok?
    ensures BooksContinue(b, Drain(b, mk, id).value, known)
  {
    hide Allowed, Posted;
    var creator := mk.row.terms.creator;
    var fees, cut := Fees(mk.trades), CreatorCut(mk);
    var t1 := Transfer(Reserve(id), Treasury, Reserved(b, id) - fees, Release(id));
    var t2 := Transfer(Reserve(id), Treasury, fees - cut, FeeToTreasury(id));
    var t3 := Transfer(Reserve(id), User(if creator.Some? then creator.value else 0), cut, FeeToCreator(id));
    var b1 := Post(b, t1).value;
    AllowedIsNonnegative(b, t1);
    PostContinues(b, t1, known);
    var b2 := PostIf(b1, fees - cut > 0, t2).value;
    if fees - cut > 0 {
      PostContinues(b1, t2, known);
      ContinuesTransitively(b.ledger, b1.ledger, b2.ledger, known);
    }
    if creator.Some? && cut > 0 {
      PostContinues(b2, t3, known);
      ContinuesTransitively(b.ledger, b2.ledger, Post(b2, t3).value.ledger, known);
    }
  }
}
