/** Accounts and the append-only ledger. Posting a transfer is one ledger record and two balance
    updates, guarded by the table constraints; a violated constraint aborts the transaction. */
module Books {
  import opened Wrappers
  import opened MapSum

  type UserId = nat
  type MarketId = nat

  datatype AccountId =
    | Issuance
    | Treasury
    | User(user: UserId)
    | Reserve(market: MarketId)

  /** The unique reference of a ledger record. */
  datatype Ref =
    | InitialIssuance
    | IssuanceExpansion
    | Grant(user: UserId)
    | Subsidy(market: MarketId)
    | TradeOf(market: MarketId, version: int)
    | Claim(market: MarketId, user: UserId)
    | Release(market: MarketId)
    | FeeToTreasury(market: MarketId)
    | FeeToCreator(market: MarketId)

  datatype Transfer = Transfer(from: AccountId, to: AccountId, amount: int, ref: Ref)

  datatype Books = Books(balances: map<AccountId, int>, ledger: seq<Transfer>)

  predicate Used(ledger: seq<Transfer>, ref: Ref) {
    exists i :: 0 <= i < |ledger| && ledger[i].ref == ref
  }

  /** The constraints of the two tables: known distinct accounts, a nonnegative amount, an unused
      reference, and no negative balance except on the issuance account. */
  predicate Allowed(b: Books, t: Transfer) {
    && t.from in b.balances && t.to in b.balances
    && t.from != t.to
    && 0 <= t.amount
    && !Used(b.ledger, t.ref)
    && (t.from == Issuance || t.amount <= b.balances[t.from])
  }

  function Posted(b: Books, t: Transfer): Books
    requires t.from in b.balances && t.to in b.balances
  {
    var debited := b.balances[t.from := b.balances[t.from] - t.amount];
    Books(debited[t.to := debited[t.to] + t.amount], b.ledger + [t])
  }

  function Post(b: Books, t: Transfer): Result<Books> {
    if Allowed(b, t) then Ok(Posted(b, t)) else Err(Internal)
  }

  /** Opens an account with a zero balance; the primary key refuses a known id. */
  function OpenAccount(b: Books, a: AccountId): Result<Books> {
    if a in b.balances then Err(Internal) else Ok(b.(balances := b.balances[a := 0]))
  }

  // ---- What reconciliation checks -----------------------------------------------------------

  function Entry(t: Transfer, a: AccountId): int {
    (if t.to == a then t.amount else 0) - (if t.from == a then t.amount else 0)
  }

  /** The signed ledger sum of an account. */
  function Net(ledger: seq<Transfer>, a: AccountId): int {
    if ledger == [] then 0 else Net(ledger[..|ledger| - 1], a) + Entry(ledger[|ledger| - 1], a)
  }

  function BalanceOf(b: Books, a: AccountId): int {
    if a in b.balances then b.balances[a] else 0
  }

  ghost predicate RefsUnique(ledger: seq<Transfer>) {
    forall i, j :: 0 <= i < j < |ledger| ==> ledger[i].ref != ledger[j].ref
  }

  ghost predicate Balanced(b: Books) {
    && Issuance in b.balances && Treasury in b.balances
    && SumOf(b.balances) == 0
    && (forall a :: BalanceOf(b, a) == Net(b.ledger, a))
    && (forall a :: a in b.balances && a != Issuance ==> 0 <= b.balances[a])
    && RefsUnique(b.ledger)
  }

  lemma PostKeepsBalanced(b: Books, t: Transfer)
    requires Balanced(b) && Allowed(b, t)
    ensures Balanced(Posted(b, t))
  {
    var n := Posted(b, t);
    var debited := b.balances[t.from := b.balances[t.from] - t.amount];
    SumPut(b.balances, t.from, b.balances[t.from] - t.amount);
    SumPut(debited, t.to, debited[t.to] + t.amount);
    assert n.ledger[..|n.ledger| - 1] == b.ledger;
    forall a ensures BalanceOf(n, a) == Net(n.ledger, a) {
      assert BalanceOf(b, a) == Net(b.ledger, a);
    }
  }

  lemma OpenKeepsBalanced(b: Books, a: AccountId)
    requires Balanced(b) && OpenAccount(b, a).Ok?
    ensures Balanced(OpenAccount(b, a).value)
  {
    var n := OpenAccount(b, a).value;
    SumPut(b.balances, a, 0);
    forall x ensures BalanceOf(n, x) == Net(n.ledger, x) {
      assert BalanceOf(b, x) == Net(b.ledger, x);
    }
  }

  /** Only issuance is negative, so nobody holds more than was issued. */
  lemma BoundedByIssuance(b: Books, a: AccountId)
    requires Balanced(b) && a in b.balances && a != Issuance
    ensures 0 <= b.balances[a] <= -b.balances[Issuance]
  {
    var rest := b.balances - {Issuance};
    SumFrom(b.balances, Issuance);
    assert rest.Keys == b.balances.Keys - {Issuance};
    SumAtLeastValue(rest, a);
  }
}
