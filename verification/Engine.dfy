/** What the exchange relies on from its pricing engine, and that the LMSR engine provides it.
    The exchange is modelled over any engine that meets this contract. */
module PricingEngine {
  import opened Wrappers
  import opened RealMath
  import opened Amm
  import opened Lmsr

  /** Each version of a row numbers one computation; `cost` is what cash has to cover at a version. */
  datatype Engine = Engine(
    calculate: (seq<int>, int, nat, Side, int, nat) -> Result<Calculation>,
    funding: (int, nat) -> Result<int>,
    cost: (seq<int>, int, nat) -> real)

  // ---- The contract -------------------------------------------------------------------------

  /** Trades are accepted only within the supported range, move the inventory by the traded
      quantity, and never charge less than what there is to cover grows by. */
  ghost predicate PricesTrade(
    e: Engine, inventory: seq<int>, liquidity: int, outcome: nat, side: Side, quantity: int, version: nat
  ) {
    var r := e.calculate(inventory, liquidity, outcome, side, quantity, version);
    && (r.Err? ==> r.error == Invalid || r.error == Internal)
    && (r.Ok? ==>
          && Accepts(inventory, liquidity, outcome, side, quantity)
          && r.value.inventory == Moved(inventory, outcome, side, quantity)
          && 0 <= r.value.amount <= 1000 * quantity + 1
          && e.cost(r.value.inventory, liquidity, version + 1) - e.cost(inventory, liquidity, version)
             <= Signed(side, r.value.amount) as real)
  }

  ghost predicate FundsOpening(e: Engine, liquidity: int, outcomes: nat) {
    var r := e.funding(liquidity, outcomes);
    && (r.Ok? <==> 2 <= outcomes <= 8 && 10 <= liquidity <= 100_000)
    && (r.Err? ==> r.error == Invalid || r.error == Internal)
    && (r.Ok? ==> 0 < r.value && e.cost(Zeros(outcomes), liquidity, 0) <= r.value as real)
  }

  /** Covered cash pays the largest payout, and stays covered while nothing is traded. */
  ghost predicate CostPaysMax(e: Engine, inventory: seq<int>, liquidity: int, version: nat) {
    && e.cost(inventory, liquidity, version + 1) <= e.cost(inventory, liquidity, version)
    && (|inventory| > 0 && liquidity > 0 ==>
          (1000 * Max(inventory)) as real <= e.cost(inventory, liquidity, version))
  }

  ghost predicate SoundEngine(e: Engine) {
    && (forall inventory, liquidity, outcome, side, quantity, version ::
          PricesTrade(e, inventory, liquidity, outcome, side, quantity, version))
    && (forall liquidity, outcomes :: FundsOpening(e, liquidity, outcomes))
    && (forall inventory, liquidity, version :: CostPaysMax(e, inventory, liquidity, version))
  }

  // ---- The LMSR engine with exact arithmetic --------------------------------------------------

  function LmsrEngine(m: Math): Engine
    requires Laws(m)
  {
    Engine(
      (inventory: seq<int>, liquidity: int, outcome: nat, side: Side, quantity: int, version: nat) =>
        Calculate(m, inventory, liquidity, outcome, side, quantity),
      (liquidity: int, outcomes: nat) => Funding(m, liquidity, outcomes),
      (inventory: seq<int>, liquidity: int, version: nat) => if liquidity > 0 then Cost(m, inventory, liquidity) else 0.0)
  }

  // ---- The LMSR engine with numerical errors --------------------------------------------------

  /** The errors of one market's computed costs: of its funding, at most `slack` micros, and of the
      trade computed on each version, at most `bound` micros. */
  datatype Noise = Noise(
    opening: (int, nat) -> real,
    slack: real,
    trade: (seq<int>, int, nat, Side, int, nat) -> real,
    bound: nat -> real)

  function ErrorUpTo(noise: Noise, version: nat): real {
    if version == 0 then noise.slack else ErrorUpTo(noise, version - 1) + noise.bound(version - 1)
  }

  /** The errors of any number of versions total at most one micro. */
  ghost predicate WithinOneMicro(noise: Noise) {
    && 0.0 <= noise.slack
    && (forall liquidity, outcomes :: Abs(noise.opening(liquidity, outcomes)) <= noise.slack)
    && (forall version :: 0.0 <= noise.bound(version))
    && (forall inventory, liquidity, outcome, side, quantity, version ::
          Abs(noise.trade(inventory, liquidity, outcome, side, quantity, version)) <= noise.bound(version))
    && (forall version :: ErrorUpTo(noise, version) <= 1.0)
  }

  /** The fill a trade request makes, with its error. */
  function FillOf(
      noise: Noise, inventory: seq<int>, liquidity: int, outcome: nat, side: Side, quantity: int, version: nat
    ): Fill
  {
    Fill(outcome, side, quantity, noise.trade(inventory, liquidity, outcome, side, quantity, version))
  }

  /** Errors of one size on the first `n` versions, and none later, add up to n times that size. */
  lemma {:induction false} UniformErrors(noise: Noise, most: real, n: nat, version: nat)
    requires forall v: nat :: noise.bound(v) == if v < n then most else 0.0
    ensures ErrorUpTo(noise, version) == noise.slack + Mul((if version <= n then version else n) as real, most)
  {
    if version == 0 {
      assert Mul(0.0, most) == 0.0;
    } else {
      UniformErrors(noise, most, n, version - 1);
      MulAdd(most, (version - 1) as real, 1.0);
    }
  }

  /** `Calculate` when the cost it rounds is off by the version's error. */
  function NoisyCalculate(
      m: Math, noise: Noise, inventory: seq<int>, liquidity: int, outcome: nat, side: Side, quantity: int, version: nat
    ): Result<Calculation>
    requires Laws(m)
  {
    var c :- Calculate(m, inventory, liquidity, outcome, side, quantity);
    CalculateIsReference(m, inventory, liquidity, outcome, side, quantity);
    var amount := NoisyAmount(m, inventory, liquidity, FillOf(noise, inventory, liquidity, outcome, side, quantity, version));
    var _ :- Need(0 <= amount <= MAX_I64, Invalid);
    Ok(c.(amount := amount))
  }

  function NoisyFunding(m: Math, noise: Noise, liquidity: int, outcomes: nat): Result<int>
    requires Laws(m)
  {
    var _ :- Funding(m, liquidity, outcomes);
    Ok(Ceil(Mul(Scale(liquidity), m.ln(outcomes as real)) + noise.opening(liquidity, outcomes)) + 1)
  }

  function NoisyEngine(m: Math, noise: Noise): Engine
    requires Laws(m)
  {
    Engine(
      (inventory: seq<int>, liquidity: int, outcome: nat, side: Side, quantity: int, version: nat) =>
        NoisyCalculate(m, noise, inventory, liquidity, outcome, side, quantity, version),
      (liquidity: int, outcomes: nat) => NoisyFunding(m, noise, liquidity, outcomes),
      (inventory: seq<int>, liquidity: int, version: nat) =>
        (if liquidity > 0 then Cost(m, inventory, liquidity) else 0.0) + 1.0 - ErrorUpTo(noise, version))
  }

  /** The LMSR engine meets the contract with errors of at most one micro in total, and so without. */
  lemma LmsrIsSound(m: Math, noise: Noise)
    requires Laws(m) && WithinOneMicro(noise)
    ensures SoundEngine(NoisyEngine(m, noise)) && SoundEngine(LmsrEngine(m))
  {
    hide Laws, WithinOneMicro, Calculate, Funding, Cost, NoisyCalculate, NoisyFunding, CostPaysMax,
         FundsOpening, PricesTrade;
    var e, exact := NoisyEngine(m, noise), LmsrEngine(m);
    forall inventory, liquidity, outcome, side, quantity, version
      ensures PricesTrade(e, inventory, liquidity, outcome, side, quantity, version)
      ensures PricesTrade(exact, inventory, liquidity, outcome, side, quantity, version)
    {
      NoisyPricesTrade(m, noise, inventory, liquidity, outcome, side, quantity, version);
      LmsrPricesTrade(m, inventory, liquidity, outcome, side, quantity, version);
    }
    forall liquidity, outcomes ensures FundsOpening(e, liquidity, outcomes) && FundsOpening(exact, liquidity, outcomes) {
      LmsrFundsOpening(m, noise, liquidity, outcomes);
    }
    forall inventory, liquidity, version
      ensures CostPaysMax(e, inventory, liquidity, version) && CostPaysMax(exact, inventory, liquidity, version)
    {
      LmsrCostPaysMax(m, noise, inventory, liquidity, version);
    }
  }

  /** The opening cost of a supported market is positive. */
  lemma OpeningIsPositive(m: Math, liquidity: int, outcomes: nat)
    requires Laws(m) && liquidity > 0 && outcomes >= 2
    ensures 0.0 < Mul(Scale(liquidity), m.ln(outcomes as real)) == Cost(m, Zeros(outcomes), liquidity)
  {
    OpeningCost(m, liquidity, outcomes);
    ExpZero(m);
    LnOfExp(m, 0.0);
    LnIncreases(m, 1.0, outcomes as real);
    MulPositive(Scale(liquidity), m.ln(outcomes as real));
  }

  lemma LmsrFundsOpening(m: Math, noise: Noise, liquidity: int, outcomes: nat)
    requires Laws(m) && WithinOneMicro(noise)
    ensures FundsOpening(NoisyEngine(m, noise), liquidity, outcomes) && FundsOpening(LmsrEngine(m), liquidity, outcomes)
  {
    FundingCoversOpening(m, liquidity, outcomes);
    if Funding(m, liquidity, outcomes).Ok? {
      OpeningIsPositive(m, liquidity, outcomes);
      assert Abs(noise.opening(liquidity, outcomes)) <= noise.slack;
      assert ErrorUpTo(noise, 0) <= 1.0;
    }
  }

  lemma LmsrCostPaysMax(m: Math, noise: Noise, inventory: seq<int>, liquidity: int, version: nat)
    requires Laws(m) && WithinOneMicro(noise)
    ensures CostPaysMax(NoisyEngine(m, noise), inventory, liquidity, version)
    ensures CostPaysMax(LmsrEngine(m), inventory, liquidity, version)
  {
    if |inventory| > 0 && liquidity > 0 {
      CostAboveMax(m, inventory, liquidity);
    }
    assert ErrorUpTo(noise, version) <= 1.0 && 0.0 <= noise.bound(version);
  }

  /** An error of the cost of at most one micro moves the amount by at most one. */
  lemma NoisyAmountInRange(side: Side, cost: real, noise: real, most: int)
    requires -1.0 <= noise <= 1.0
    requires if side == Buy then 0.0 < cost < most as real else -(most as real) < cost < 0.0
    ensures Rounded(side, cost + noise) <= most + 1
    ensures cost + noise <= Signed(side, Rounded(side, cost + noise)) as real
  {}

  /** The true cost of an accepted trade. */
  lemma TradeCost(m: Math, inventory: seq<int>, liquidity: int, outcome: nat, side: Side, quantity: int)
    requires Laws(m) && Accepts(inventory, liquidity, outcome, side, quantity)
    ensures var next := Moved(inventory, outcome, side, quantity);
            var cost, most := Cost(m, next, liquidity) - Cost(m, inventory, liquidity), (1000 * quantity) as real;
            if side == Buy then 0.0 < cost < most else -most < cost < 0.0
  {
    hide Laws, Cost;
    var next := Moved(inventory, outcome, side, quantity);
    if side == Buy {
      PurchaseCost(m, inventory, liquidity, outcome, quantity, next);
    } else {
      PurchaseCost(m, next, liquidity, outcome, quantity, inventory);
    }
  }

  lemma NoisyResult(
      m: Math, noise: Noise, inventory: seq<int>, liquidity: int, outcome: nat, side: Side, quantity: int, version: nat
    )
    requires Laws(m)
    ensures var r := NoisyCalculate(m, noise, inventory, liquidity, outcome, side, quantity, version);
            && (r.Err? ==> r.error == Invalid || r.error == Internal)
            && (r.Ok? ==>
                  && Accepts(inventory, liquidity, outcome, side, quantity)
                  && r.value.inventory == Moved(inventory, outcome, side, quantity)
                  && r.value.amount == NoisyAmount(m, inventory, liquidity, FillOf(noise, inventory, liquidity, outcome, side, quantity, version))
                  && 0 <= r.value.amount)
  {
    hide Laws, Calculate, Cost, NoisyAmount, Moved;
    CalculateIsReference(m, inventory, liquidity, outcome, side, quantity);
  }

  /** The amount of an accepted trade covers the growth of the cost up to its error. */
  lemma NoisyAmountCovers(
      m: Math, noise: Noise, inventory: seq<int>, liquidity: int, outcome: nat, side: Side, quantity: int, version: nat
    )
    requires Laws(m) && WithinOneMicro(noise) && Accepts(inventory, liquidity, outcome, side, quantity)
    ensures var next := Moved(inventory, outcome, side, quantity);
            var amount := NoisyAmount(m, inventory, liquidity, FillOf(noise, inventory, liquidity, outcome, side, quantity, version));
            && amount <= 1000 * quantity + 1
            && Cost(m, next, liquidity) - Cost(m, inventory, liquidity) - noise.bound(version) <= Signed(side, amount) as real
  {
    hide Laws, Cost, ErrorUpTo, Rounded, Moved;
    var n := noise.trade(inventory, liquidity, outcome, side, quantity, version);
    TradeCost(m, inventory, liquidity, outcome, side, quantity);
    ErrorsAreSmall(noise, version);
    assert Abs(n) <= noise.bound(version);
    var next := Moved(inventory, outcome, side, quantity);
    NoisyAmountInRange(side, Cost(m, next, liquidity) - Cost(m, inventory, liquidity), n, 1000 * quantity);
  }

  lemma NoisyPricesTrade(
      m: Math, noise: Noise, inventory: seq<int>, liquidity: int, outcome: nat, side: Side, quantity: int, version: nat
    )
    requires Laws(m) && WithinOneMicro(noise)
    ensures PricesTrade(NoisyEngine(m, noise), inventory, liquidity, outcome, side, quantity, version)
  {
    hide Laws, Cost, NoisyCalculate, NoisyAmount, WithinOneMicro, Moved;
    NoisyResult(m, noise, inventory, liquidity, outcome, side, quantity, version);
    if Accepts(inventory, liquidity, outcome, side, quantity) {
      NoisyAmountCovers(m, noise, inventory, liquidity, outcome, side, quantity, version);
      assert ErrorUpTo(noise, version + 1) == ErrorUpTo(noise, version) + noise.bound(version);
    }
  }

  lemma {:induction false} ErrorsAreSmall(noise: Noise, version: nat)
    requires WithinOneMicro(noise)
    ensures 0.0 <= ErrorUpTo(noise, version) && noise.bound(version) <= 1.0
  {
    if version > 0 {
      ErrorsAreSmall(noise, version - 1);
    }
    assert ErrorUpTo(noise, version + 1) <= 1.0;
  }

  lemma LmsrPricesTrade(
      m: Math, inventory: seq<int>, liquidity: int, outcome: nat, side: Side, quantity: int, version: nat
    )
    requires Laws(m)
    ensures PricesTrade(LmsrEngine(m), inventory, liquidity, outcome, side, quantity, version)
  {
    CalculateIsReference(m, inventory, liquidity, outcome, side, quantity);
    if Accepts(inventory, liquidity, outcome, side, quantity) {
      var next := Moved(inventory, outcome, side, quantity);
      AmountInRange(m, inventory, liquidity, outcome, side, quantity);
      RoundedAgainstTrader(side, Cost(m, next, liquidity) - Cost(m, inventory, liquidity));
    }
  }

  // ---- Cash cover ---------------------------------------------------------------------------

  /** The cash, net of fees, is at least what is to cover of the inventory. */
  ghost predicate Covers(e: Engine, inventory: seq<int>, liquidity: int, version: nat, cash: int) {
    e.cost(inventory, liquidity, version) <= cash as real
  }

  lemma CoverPaysMax(e: Engine, inventory: seq<int>, liquidity: int, version: nat, cash: int)
    requires SoundEngine(e)
    requires Covers(e, inventory, liquidity, version, cash)
    ensures |inventory| > 0 && liquidity > 0 ==> 1000 * Max(inventory) <= cash
    ensures Covers(e, inventory, liquidity, version + 1, cash)
  {
    assert CostPaysMax(e, inventory, liquidity, version);
  }
}
