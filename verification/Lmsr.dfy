/** What the LMSR engine promises: the exact reading of `Calculate`, the convexity bracket,
    solvency over whole runs of trades, and that neither cycling nor splitting pays. */
module Lmsr {
  import opened Wrappers
  import opened RealMath
  import opened Amm

  // ---- C(q) is at least the largest payout ------------------------------------------------

  lemma ScaleOverDenominator(liquidity: int, x: real)
    requires liquidity > 0
    ensures Denominator(liquidity) > 0.0
    ensures Mul(Scale(liquidity), Div(x, Denominator(liquidity))) == 1000.0 * x
  {
    var d := Denominator(liquidity);
    assert Scale(liquidity) == Mul(1000.0, d);
    MulAssoc(1000.0, d, Div(x, d));
    MulAssoc(d, Div(x, d), d);
    DivMul(x, d);
  }

  lemma CostAboveMax(m: Math, inventory: seq<int>, liquidity: int)
    requires Laws(m)
    requires |inventory| > 0 && liquidity > 0
    ensures Cost(m, inventory, liquidity) >= (1000 * Max(inventory)) as real
  {
    var k, top := Kernel(m, liquidity), Max(inventory);
    var w := Weights(k, inventory, 0);
    KernelIsExponential(m, liquidity);
    TotalPositive(k, inventory, 0);
    var i :| 0 <= i < |inventory| && inventory[i] == top;
    SumAtLeastTerm(w, i);
    var t := Div(top as real, Denominator(liquidity));
    assert w[i] == m.exp(t);
    LnOfExp(m, t);
    LnIncreases(m, m.exp(t), Sum(w));
    MulLe(t, m.ln(Sum(w)), Scale(liquidity));
    ScaleOverDenominator(liquidity, top as real);
  }

  lemma {:induction false} SumOfOnes(s: seq<real>)
    requires forall i :: 0 <= i < |s| ==> s[i] == 1.0
    ensures Sum(s) == |s| as real
  {
    if |s| > 0 {
      SumOfOnes(s[1..]);
    }
  }

  /** An untraded market costs b ln n. */
  lemma OpeningCost(m: Math, liquidity: int, outcomes: nat)
    requires Laws(m)
    requires liquidity > 0 && outcomes > 0
    ensures Cost(m, Zeros(outcomes), liquidity) == Mul(Scale(liquidity), m.ln(outcomes as real))
  {
    var k, w := Kernel(m, liquidity), Weights(Kernel(m, liquidity), Zeros(outcomes), 0);
    DivUnique(0.0, 0.0, Denominator(liquidity));
    ExpZero(m);
    SumOfOnes(w);
  }

  /** Funding is granted exactly for the supported shapes, and is C(0) rounded up plus one. */
  lemma FundingCoversOpening(m: Math, liquidity: int, outcomes: nat)
    requires Laws(m)
    ensures Funding(m, liquidity, outcomes).Ok? <==> 2 <= outcomes <= 8 && 10 <= liquidity <= 100_000
    ensures Funding(m, liquidity, outcomes).Ok? ==>
      var f := Funding(m, liquidity, outcomes).value as real;
      Cost(m, Zeros(outcomes), liquidity) + 1.0 <= f < Cost(m, Zeros(outcomes), liquidity) + 2.0
  {
    var z := Zeros(outcomes);
    if InShape(z, liquidity) {
      assert InRange(z) && InSpread(z, liquidity);
      OpeningCost(m, liquidity, outcomes);
      CostAboveMax(m, z, liquidity);
      LnBelowLine(m, outcomes as real);
      MulLe(m.ln(outcomes as real), 7.0, Scale(liquidity));
      var c := Cost(m, z, liquidity);
      assert 0.0 <= c <= Mul(Scale(liquidity), 7.0) <= 700_000_000_000.0;
      CeilBounds(c);
    }
  }

  // ---- The convexity bracket --------------------------------------------------------------

  /** The true cost is at least the old price times the quantity, in either direction. */
  lemma TangentBound(m: Math, inventory: seq<int>, liquidity: int, outcome: nat, delta: int, next: seq<int>)
    requires Laws(m)
    requires liquidity > 0 && Moves(inventory, next, outcome, delta)
    ensures Cost(m, next, liquidity) - Cost(m, inventory, liquidity)
         >= Mul(Probabilities(m, inventory, liquidity)[outcome], 1000.0 * delta as real)
  {
    var p := Probabilities(m, inventory, liquidity)[outcome];
    var t := Div(delta as real, Denominator(liquidity));
    var a := Argument(p, m.exp(t));
    IncrementalCost(m, inventory, liquidity, outcome, delta, next);
    PricesNormalized(m, inventory, liquidity);
    ChordAboveExp(m, p, t);
    LnOfExp(m, Mul(p, t));
    LnIncreases(m, m.exp(Mul(p, t)), a);
    MulLe(Mul(p, t), m.ln(a), Scale(liquidity));
    MulAssoc(Scale(liquidity), p, t);
    MulAssoc(p, Scale(liquidity), t);
    ScaleOverDenominator(liquidity, delta as real);
  }

  /** The true cost lies between the old and the new price times the quantity. */
  lemma CostBracket(m: Math, inventory: seq<int>, liquidity: int, outcome: nat, delta: int, next: seq<int>)
    requires Laws(m)
    requires liquidity > 0 && Moves(inventory, next, outcome, delta)
    ensures Mul(Probabilities(m, inventory, liquidity)[outcome], 1000.0 * delta as real)
         <= Cost(m, next, liquidity) - Cost(m, inventory, liquidity)
         <= Mul(Probabilities(m, next, liquidity)[outcome], 1000.0 * delta as real)
  {
    TangentBound(m, inventory, liquidity, outcome, delta, next);
    TangentBound(m, next, liquidity, outcome, -delta, inventory);
    MulSub(Probabilities(m, next, liquidity)[outcome], 0.0, 1000.0 * delta as real);
  }

  /** A purchase costs more than nothing and less than its largest payout. */
  lemma PurchaseCost(m: Math, inventory: seq<int>, liquidity: int, outcome: nat, quantity: int, next: seq<int>)
    requires Laws(m)
    requires liquidity > 0 && quantity > 0 && Moves(inventory, next, outcome, quantity)
    ensures 0.0 < Cost(m, next, liquidity) - Cost(m, inventory, liquidity) < (1000 * quantity) as real
  {
    var x := 1000.0 * quantity as real;
    CostBracket(m, inventory, liquidity, outcome, quantity, next);
    PricesNormalized(m, inventory, liquidity);
    PricesNormalized(m, next, liquidity);
    MulPositive(Probabilities(m, inventory, liquidity)[outcome], x);
    MulLt(Probabilities(m, next, liquidity)[outcome], 1.0, x);
  }

  /** Buying raises the traded price and lowers every other one. */
  lemma PurchaseMovesPrices(m: Math, inventory: seq<int>, liquidity: int, outcome: nat, quantity: int, next: seq<int>)
    requires Laws(m)
    requires liquidity > 0 && quantity > 0 && Moves(inventory, next, outcome, quantity)
    ensures Probabilities(m, inventory, liquidity)[outcome] < Probabilities(m, next, liquidity)[outcome]
    ensures forall i :: 0 <= i < |inventory| && i != outcome ==>
      Probabilities(m, next, liquidity)[i] < Probabilities(m, inventory, liquidity)[i]
  {
    var before, after := Probabilities(m, inventory, liquidity), Probabilities(m, next, liquidity);
    KernelIsExponential(m, liquidity);
    PricesNormalized(m, inventory, liquidity);
    ProbabilitiesArePrices(m, inventory, liquidity);
    ProbabilitiesArePrices(m, next, liquidity);
    var p, g := before[outcome], Growth(m, liquidity, quantity);
    var a := Argument(p, g);
    MulPositive(p, g - 1.0);
    MulLt(p, 1.0, g - 1.0);
    assert 1.0 < a < g;
    forall i | 0 <= i < |inventory|
      ensures if i == outcome then before[i] < after[i] else after[i] < before[i]
    {
      ScaledPrice(m, inventory, liquidity, outcome, quantity, next, i);
      var x := before[i];
      MulLt(1.0, a, x);
      MulLt(a, g, x);
      var y := if i == outcome then Mul(x, g) else x;
      DivMul(y, a);
      if i == outcome && after[i] <= x {
        MulLe(after[i], x, a);
      } else if i != outcome && x <= after[i] {
        MulLe(x, after[i], a);
      }
    }
  }

  // ---- The exact reading of `Calculate` -------------------------------------------------------

  /** What a trade adds to the market's cash before fees. */
  function Signed(side: Side, amount: int): int {
    if side == Buy then amount else -amount
  }

  /** Rounding against the trader never undercharges and overcharges by less than one micro. */
  lemma RoundedAgainstTrader(side: Side, cost: real)
    ensures cost <= Signed(side, Rounded(side, cost)) as real < cost + 1.0
  {}

  lemma AmountInRange(m: Math, inventory: seq<int>, liquidity: int, outcome: nat, side: Side, quantity: int)
    requires Laws(m)
    requires Accepts(inventory, liquidity, outcome, side, quantity)
    ensures var next := Moved(inventory, outcome, side, quantity);
            var amount := Rounded(side, Cost(m, next, liquidity) - Cost(m, inventory, liquidity));
            (if side == Buy then 1 else 0) <= amount <= 1000 * quantity
  {
    var next := Moved(inventory, outcome, side, quantity);
    if side == Buy {
      PurchaseCost(m, inventory, liquidity, outcome, quantity, next);
    } else {
      PurchaseCost(m, next, liquidity, outcome, quantity, inventory);
    }
    CeilBounds(Cost(m, next, liquidity) - Cost(m, inventory, liquidity));
  }

  lemma PriceMoveIsReference(m: Math, inventory: seq<int>, liquidity: int, outcome: nat, side: Side, quantity: int)
    requires Laws(m)
    requires Accepts(inventory, liquidity, outcome, side, quantity)
    ensures var next := Moved(inventory, outcome, side, quantity);
      PriceMove(m, inventory, liquidity, outcome, side, Delta(side, quantity), next) == Ok(Calculation(
        Rounded(side, Cost(m, next, liquidity) - Cost(m, inventory, liquidity)),
        next,
        Probabilities(m, inventory, liquidity),
        Probabilities(m, next, liquidity)))
  {
    var next := Moved(inventory, outcome, side, quantity);
    IncrementalCost(m, inventory, liquidity, outcome, Delta(side, quantity), next);
    ScaledPricesAreRecomputed(m, inventory, liquidity, outcome, Delta(side, quantity), next);
    AmountInRange(m, inventory, liquidity, outcome, side, quantity);
  }

  /** `Calculate` accepts exactly the in-range trades; no numerical branch ever refuses. The
      amount is the rounded difference of the reference cost, and the scaled prices are the
      prices of the new inventory. */
  lemma CalculateIsReference(m: Math, inventory: seq<int>, liquidity: int, outcome: nat, side: Side, quantity: int)
    requires Laws(m)
    ensures Calculate(m, inventory, liquidity, outcome, side, quantity).Ok?
       <==> Accepts(inventory, liquidity, outcome, side, quantity)
    ensures var r := Calculate(m, inventory, liquidity, outcome, side, quantity);
            r.Err? ==> r.error == Invalid || r.error == Internal
    ensures Accepts(inventory, liquidity, outcome, side, quantity) ==>
      var next := Moved(inventory, outcome, side, quantity);
      Calculate(m, inventory, liquidity, outcome, side, quantity) == Ok(Calculation(
        Rounded(side, Cost(m, next, liquidity) - Cost(m, inventory, liquidity)),
        next,
        Probabilities(m, inventory, liquidity),
        Probabilities(m, next, liquidity)))
  {
    if Accepts(inventory, liquidity, outcome, side, quantity) {
      PriceMoveIsReference(m, inventory, liquidity, outcome, side, quantity);
    }
  }

  ghost predicate Normalized(p: seq<real>) {
    Sum(p) == 1.0 && forall i :: 0 <= i < |p| ==> 0.0 < p[i] < 1.0
  }

  /** The price of `outcome` rises strictly and every other one falls strictly. */
  ghost predicate Lifts(before: seq<real>, after: seq<real>, outcome: nat) {
    && |before| == |after|
    && forall i :: 0 <= i < |before| ==>
         if i == outcome then before[i] < after[i] else after[i] < before[i]
  }

  lemma PurchaseLifts(m: Math, inventory: seq<int>, liquidity: int, outcome: nat, quantity: int, next: seq<int>)
    requires Laws(m)
    requires liquidity > 0 && quantity > 0 && Moves(inventory, next, outcome, quantity)
    ensures Lifts(Probabilities(m, inventory, liquidity), Probabilities(m, next, liquidity), outcome)
    ensures Normalized(Probabilities(m, inventory, liquidity))
    ensures Normalized(Probabilities(m, next, liquidity))
  {
    PurchaseMovesPrices(m, inventory, liquidity, outcome, quantity, next);
    PricesNormalized(m, inventory, liquidity);
    PricesNormalized(m, next, liquidity);
  }

  /** The amount range and the price directions of every accepted trade. */
  lemma TradeBounds(m: Math, inventory: seq<int>, liquidity: int, outcome: nat, side: Side, quantity: int)
    requires Laws(m)
    requires Calculate(m, inventory, liquidity, outcome, side, quantity).Ok?
    ensures var c := Calculate(m, inventory, liquidity, outcome, side, quantity).value;
            && (if side == Buy then 1 else 0) <= c.amount <= 1000 * quantity
            && Normalized(c.pricesBefore) && Normalized(c.pricesAfter)
            && if side == Buy then Lifts(c.pricesBefore, c.pricesAfter, outcome)
               else Lifts(c.pricesAfter, c.pricesBefore, outcome)
  {
    hide Calculate, Normalized, Lifts, Probabilities, Cost;
    CalculateIsReference(m, inventory, liquidity, outcome, side, quantity);
    AmountInRange(m, inventory, liquidity, outcome, side, quantity);
    var next := Moved(inventory, outcome, side, quantity);
    if side == Buy {
      PurchaseLifts(m, inventory, liquidity, outcome, quantity, next);
    } else {
      PurchaseLifts(m, next, liquidity, outcome, quantity, inventory);
    }
  }

  // ---- Whole runs ---------------------------------------------------------------------------

  /** One fill of a run: an order together with the numerical error of its computed cost. */
  datatype Fill = Fill(outcome: nat, side: Side, quantity: int, noise: real)

  datatype Ran = Ran(inventory: seq<int>, paid: int, noise: real)

  function Abs(x: real): real {
    if x < 0.0 then -x else x
  }

  /** The amount charged when the cost is computed with an error of `noise`. */
  function NoisyAmount(m: Math, inventory: seq<int>, liquidity: int, f: Fill): int
    requires f.outcome < |inventory| && liquidity > 0
  {
    var next := Moved(inventory, f.outcome, f.side, f.quantity);
    Rounded(f.side, Cost(m, next, liquidity) - Cost(m, inventory, liquidity) + f.noise)
  }

  /** Plays the fills in order; a refused fill changes nothing. */
  function Play(m: Math, inventory: seq<int>, liquidity: int, fills: seq<Fill>): Ran
    requires liquidity > 0
    decreases fills
  {
    if fills == [] then Ran(inventory, 0, 0.0)
    else
      var f := fills[0];
      if Accepts(inventory, liquidity, f.outcome, f.side, f.quantity) then
        var rest := Play(m, Moved(inventory, f.outcome, f.side, f.quantity), liquidity, fills[1..]);
        Ran(rest.inventory,
            Signed(f.side, NoisyAmount(m, inventory, liquidity, f)) + rest.paid,
            Abs(f.noise) + rest.noise)
      else Play(m, inventory, liquidity, fills[1..])
  }

  predicate Exact(fills: seq<Fill>) {
    forall i :: 0 <= i < |fills| ==> fills[i].noise == 0.0
  }

  /** Without numerical error a fill is charged exactly what the engine computes. */
  lemma ExactFillIsCalculated(m: Math, inventory: seq<int>, liquidity: int, f: Fill)
    requires Laws(m)
    requires f.noise == 0.0
    requires Accepts(inventory, liquidity, f.outcome, f.side, f.quantity)
    ensures Calculate(m, inventory, liquidity, f.outcome, f.side, f.quantity).Ok?
    ensures Calculate(m, inventory, liquidity, f.outcome, f.side, f.quantity).value.amount
         == NoisyAmount(m, inventory, liquidity, f)
  {
    CalculateIsReference(m, inventory, liquidity, f.outcome, f.side, f.quantity);
  }

  /** Over any run, the market takes in at least the growth of C, up to the total error; and at
      most one micro more than it for each fill. */
  lemma {:induction false} RunCost(m: Math, inventory: seq<int>, liquidity: int, fills: seq<Fill>)
    requires liquidity > 0
    decreases fills
    ensures var r := Play(m, inventory, liquidity, fills);
            var growth := Cost(m, r.inventory, liquidity) - Cost(m, inventory, liquidity);
            && 0.0 <= r.noise
            && growth - r.noise <= r.paid as real <= growth + r.noise + |fills| as real
            && (fills != [] ==> r.paid as real < growth + r.noise + |fills| as real)
            && (Exact(fills) ==> r.noise == 0.0)
  {
    if fills != [] {
      var f := fills[0];
      if Accepts(inventory, liquidity, f.outcome, f.side, f.quantity) {
        var next := Moved(inventory, f.outcome, f.side, f.quantity);
        RunCost(m, next, liquidity, fills[1..]);
        RoundedAgainstTrader(f.side, Cost(m, next, liquidity) - Cost(m, inventory, liquidity) + f.noise);
      } else {
        RunCost(m, inventory, liquidity, fills[1..]);
      }
    }
  }

  /** Solvency over every run from an untraded market. The funding and the fills may be computed
      with errors; while these total at most one micro, the extra microcredit of the funding
      absorbs them, and the market always holds C(q), hence the largest payout. */
  lemma Solvent(m: Math, liquidity: int, outcomes: nat, fundingNoise: real, fills: seq<Fill>)
    requires Laws(m)
    requires Supported(Zeros(outcomes), liquidity)
    requires Abs(fundingNoise) + Play(m, Zeros(outcomes), liquidity, fills).noise <= 1.0
    ensures var r := Play(m, Zeros(outcomes), liquidity, fills);
            var funding := Ceil(Mul(Scale(liquidity), m.ln(outcomes as real)) + fundingNoise) + 1;
            && |r.inventory| == outcomes
            && Cost(m, r.inventory, liquidity) <= (funding + r.paid) as real
            && 1000 * Max(r.inventory) <= funding + r.paid
  {
    var r := Play(m, Zeros(outcomes), liquidity, fills);
    OpeningCost(m, liquidity, outcomes);
    RunCost(m, Zeros(outcomes), liquidity, fills);
    PlayKeepsLength(m, Zeros(outcomes), liquidity, fills);
    CostAboveMax(m, r.inventory, liquidity);
    CeilBounds(Mul(Scale(liquidity), m.ln(outcomes as real)) + fundingNoise);
  }

  lemma {:induction false} PlayKeepsLength(m: Math, inventory: seq<int>, liquidity: int, fills: seq<Fill>)
    requires liquidity > 0
    decreases fills
    ensures |Play(m, inventory, liquidity, fills).inventory| == |inventory|
  {
    if fills != [] {
      var f := fills[0];
      if Accepts(inventory, liquidity, f.outcome, f.side, f.quantity) {
        PlayKeepsLength(m, Moved(inventory, f.outcome, f.side, f.quantity), liquidity, fills[1..]);
      } else {
        PlayKeepsLength(m, inventory, liquidity, fills[1..]);
      }
    }
  }

  /** No run of exact trades that returns the inventory to its start takes money out. */
  lemma NoFreeCycle(m: Math, inventory: seq<int>, liquidity: int, fills: seq<Fill>)
    requires liquidity > 0 && Exact(fills)
    requires Play(m, inventory, liquidity, fills).inventory == inventory
    ensures Play(m, inventory, liquidity, fills).paid >= 0
  {
    RunCost(m, inventory, liquidity, fills);
  }

  /** Purchases of one outcome that are all accepted. */
  predicate Pieces(inventory: seq<int>, liquidity: int, outcome: nat, fills: seq<Fill>)
    requires outcome < |inventory|
    decreases fills
  {
    fills == [] ||
    (&& fills[0].outcome == outcome && fills[0].side == Buy && fills[0].noise == 0.0
     && Accepts(inventory, liquidity, outcome, Buy, fills[0].quantity)
     && Pieces(Moved(inventory, outcome, Buy, fills[0].quantity), liquidity, outcome, fills[1..]))
  }

  function TotalQuantity(fills: seq<Fill>): int {
    if fills == [] then 0 else fills[0].quantity + TotalQuantity(fills[1..])
  }

  lemma {:induction false} PiecesReach(m: Math, inventory: seq<int>, liquidity: int, outcome: nat, fills: seq<Fill>)
    requires liquidity > 0 && outcome < |inventory| && Pieces(inventory, liquidity, outcome, fills)
    decreases fills
    ensures Exact(fills)
    ensures Play(m, inventory, liquidity, fills).inventory
         == Moved(inventory, outcome, Buy, TotalQuantity(fills))
  {
    hide Supported, NoisyAmount, Abs;
    if fills == [] {
      assert inventory == Moved(inventory, outcome, Buy, 0);
    } else {
      var q, rest := fills[0].quantity, fills[1..];
      PiecesReach(m, Moved(inventory, outcome, Buy, q), liquidity, outcome, rest);
      MovedTwice(inventory, outcome, q, TotalQuantity(rest));
      assert Play(m, inventory, liquidity, fills).inventory
          == Play(m, Moved(inventory, outcome, Buy, q), liquidity, rest).inventory;
    }
  }

  lemma MovedTwice(inventory: seq<int>, outcome: nat, q: int, r: int)
    requires outcome < |inventory|
    ensures Moved(Moved(inventory, outcome, Buy, q), outcome, Buy, r) == Moved(inventory, outcome, Buy, q + r)
  {}

  /** Splitting one purchase into k pieces never costs less, and at most k - 1 micros more. */
  lemma SplittingDoesNotPay(m: Math, inventory: seq<int>, liquidity: int, outcome: nat, fills: seq<Fill>)
    requires Laws(m)
    requires outcome < |inventory| && liquidity > 0
    requires fills != [] && Pieces(inventory, liquidity, outcome, fills)
    requires Calculate(m, inventory, liquidity, outcome, Buy, TotalQuantity(fills)).Ok?
    ensures var single := Calculate(m, inventory, liquidity, outcome, Buy, TotalQuantity(fills)).value.amount;
            single <= Play(m, inventory, liquidity, fills).paid <= single + |fills| - 1
  {
    var next := Moved(inventory, outcome, Buy, TotalQuantity(fills));
    PiecesReach(m, inventory, liquidity, outcome, fills);
    RunCost(m, inventory, liquidity, fills);
    CalculateIsReference(m, inventory, liquidity, outcome, Buy, TotalQuantity(fills));
    CeilBounds(Cost(m, next, liquidity) - Cost(m, inventory, liquidity));
  }
}
