/** Trading fees, charged on top of the engine amount and held in the market's reserve. */
module Fee {
  import opened Wrappers
  import opened Amm

  const FEE_BPS := 25

  /** Division and remainder as the source's integers do it: truncated toward zero. */
  function Quotient(a: int, b: int): int
    requires b > 0
  {
    if a >= 0 then a / b else -(-a / b)
  }

  function Remainder(a: int, b: int): int
    requires b > 0
  {
    a - b * Quotient(a, b)
  }

  /** The fee is 25 basis points rounded up. */
  function TradeFee(amount: int): (fee: int)
    ensures 10_000 * (fee - 1) < FEE_BPS * amount <= 10_000 * fee
    ensures 0 <= amount ==> 0 <= fee <= amount
  {
    var scaled := amount * FEE_BPS;
    var quotient, remainder := Quotient(scaled, 10_000), Remainder(scaled, 10_000);
    if remainder > 0 then quotient + 1 else quotient
  }

  function FeeOf(amount: int, feeCharged: bool): int {
    if feeCharged then TradeFee(amount) else 0
  }

  function CreatorShare(pot: int, hasCreator: bool): (share: int)
    ensures 0 <= pot ==> 0 <= share <= pot - share
    ensures 0 < pot && hasCreator ==> pot - share - share <= 1
    ensures !hasCreator ==> share == 0
  {
    if hasCreator then Quotient(pot, 2) else 0
  }

  /** The all-in amount a trader pays (buy) or receives (sell). */
  function Charged(amount: int, side: Side, feeCharged: bool): Result<int> {
    if !feeCharged then Ok(amount)
    else
      var fee := TradeFee(amount);
      var total :- ToI64(if side == Buy then amount + fee else amount - fee);
      var _ :- Need(total >= 0, Invalid);
      Ok(total)
  }

  /** For every amount the engine can return, charging succeeds and the reserve gains exactly the
      signed amount plus the fee; a sale never credits below zero. */
  lemma ChargedSplits(amount: int, side: Side, feeCharged: bool)
    requires 0 <= amount <= 1000 * MAX_QUANTITY + 1
    ensures Charged(amount, side, feeCharged).Ok?
    ensures var total := Charged(amount, side, feeCharged).value;
            && 0 <= total
            && (if side == Buy then total else -total)
               == (if side == Buy then amount else -amount) + FeeOf(amount, feeCharged)
  {}
}
