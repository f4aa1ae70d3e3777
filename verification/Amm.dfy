/** The LMSR pricing engine. Balances are integer microcredits, quantities integer millishares;
    the transcendental arithmetic in between is exact real arithmetic. */
module Amm {
  import opened Wrappers
  import opened RealMath

  const CREDIT_SCALE := 1_000_000
  const SHARE_SCALE := 1_000
  const MAX_QUANTITY := 100_000
  const MAX_INVENTORY := 1_000_000_000
  const MAX_I64 := 0x7FFF_FFFF_FFFF_FFFF

  datatype Side = Buy | Sell

  datatype Calculation = Calculation(
    amount: int,
    inventory: seq<int>,
    pricesBefore: seq<real>,
    pricesAfter: seq<real>)

  function Max(s: seq<int>): (r: int)
    requires |s| > 0
    ensures r in s
    ensures forall i :: 0 <= i < |s| ==> s[i] <= r
  {
    if |s| == 1 then s[0]
    else
      var rest := Max(s[1..]);
      assert forall i :: 1 <= i < |s| ==> s[i] == s[1..][i - 1];
      if s[0] >= rest then s[0] else rest
  }

  function Min(s: seq<int>): (r: int)
    requires |s| > 0
    ensures r in s
    ensures forall i :: 0 <= i < |s| ==> r <= s[i]
  {
    if |s| == 1 then s[0]
    else
      var rest := Min(s[1..]);
      assert forall i :: 1 <= i < |s| ==> s[i] == s[1..][i - 1];
      if s[0] <= rest then s[0] else rest
  }

  function Sum(s: seq<real>): real {
    if |s| == 0 then 0.0 else s[0] + Sum(s[1..])
  }

  function Denominator(liquidity: int): real {
    (liquidity * SHARE_SCALE) as real
  }

  function Scale(liquidity: int): real {
    (liquidity * CREDIT_SCALE) as real
  }

  predicate InShape(inventory: seq<int>, liquidity: int) {
    2 <= |inventory| <= 8 && 10 <= liquidity <= 100_000
  }

  predicate InRange(inventory: seq<int>) {
    forall i :: 0 <= i < |inventory| ==> 0 <= inventory[i] <= MAX_INVENTORY
  }

  predicate InSpread(inventory: seq<int>, liquidity: int)
    requires |inventory| > 0
  {
    Max(inventory) - Min(inventory) <= 20 * liquidity * SHARE_SCALE
  }

  predicate Supported(inventory: seq<int>, liquidity: int) {
    InShape(inventory, liquidity) && InRange(inventory) && InSpread(inventory, liquidity)
  }

  function Validate(inventory: seq<int>, liquidity: int): (r: Result<()>)
    ensures r.Ok? <==> Supported(inventory, liquidity)
    ensures r.Err? ==> r.error == Invalid || r.error == Internal
    ensures r.Err? && r.error == Internal <==> InShape(inventory, liquidity) && !InRange(inventory)
  {
    if !InShape(inventory, liquidity) then Err(Invalid)
    else if !InRange(inventory) then Err(Internal)
    else if !InSpread(inventory, liquidity) then Err(Invalid)
    else Ok(())
  }

  /** exp(q / b) for a quantity of q millishares. */
  function Kernel(m: Math, liquidity: int): int -> real
    requires liquidity > 0
  {
    q => m.exp(Div(q as real, Denominator(liquidity)))
  }

  /** exp((q_i - shift) / b) for each outcome. The engine shifts by the maximum. */
  function Weights(k: int -> real, inventory: seq<int>, shift: int): (w: seq<real>)
    ensures |w| == |inventory|
  {
    seq(|inventory|, i requires 0 <= i < |inventory| => k(inventory[i] - shift))
  }

  function Share(w: seq<real>, i: nat): real
    requires i < |w| && Sum(w) > 0.0
  {
    Div(w[i], Sum(w))
  }

  function Normalize(w: seq<real>): (p: seq<real>)
    requires Sum(w) > 0.0
    ensures |p| == |w|
  {
    seq(|w|, i requires 0 <= i < |w| => Share(w, i))
  }

  function Probabilities(m: Math, inventory: seq<int>, liquidity: int): (p: seq<real>)
    requires Laws(m)
    requires |inventory| > 0 && liquidity > 0
    ensures |p| == |inventory|
  {
    var k := Kernel(m, liquidity);
    KernelIsExponential(m, liquidity);
    TotalPositive(k, inventory, Max(inventory));
    Normalize(Weights(k, inventory, Max(inventory)))
  }

  function Prices(m: Math, inventory: seq<int>, liquidity: int): Result<seq<real>>
    requires Laws(m)
  {
    var _ :- Validate(inventory, liquidity);
    Ok(Probabilities(m, inventory, liquidity))
  }

  function ToI64(x: int): Result<int> {
    if -MAX_I64 - 1 <= x <= MAX_I64 then Ok(x) else Err(Invalid)
  }

  function Zeros(n: nat): (s: seq<int>)
    ensures |s| == n
    ensures forall i :: 0 <= i < n ==> s[i] == 0
  {
    seq(n, _ => 0)
  }

  function Funding(m: Math, liquidity: int, outcomes: nat): Result<int>
    requires Laws(m)
  {
    var _ :- Validate(Zeros(outcomes), liquidity);
    ToI64(Ceil(Mul(Scale(liquidity), m.ln(outcomes as real))) + 1)
  }

  function Delta(side: Side, quantity: int): int {
    if side == Buy then quantity else -quantity
  }

  function Growth(m: Math, liquidity: int, delta: int): real
    requires liquidity > 0
  {
    Kernel(m, liquidity)(delta)
  }

  function Argument(price: real, growth: real): real {
    1.0 + Mul(price, growth - 1.0)
  }

  /** Amounts are rounded against the trader: buys up, sells down. */
  function Rounded(side: Side, cost: real): int {
    if side == Buy then Ceil(cost) else (-cost).Floor
  }

  function Scaled(p: seq<real>, outcome: nat, growth: real, argument: real): (r: seq<real>)
    requires argument != 0.0
    ensures |r| == |p|
  {
    seq(|p|, i requires 0 <= i < |p| => Div(if i == outcome then Mul(p[i], growth) else p[i], argument))
  }

  function Moved(inventory: seq<int>, outcome: nat, side: Side, quantity: int): seq<int>
    requires outcome < |inventory|
  {
    inventory[outcome := inventory[outcome] + Delta(side, quantity)]
  }

  predicate Accepts(inventory: seq<int>, liquidity: int, outcome: nat, side: Side, quantity: int) {
    && Supported(inventory, liquidity)
    && outcome < |inventory|
    && 1 <= quantity <= MAX_QUANTITY
    && Supported(Moved(inventory, outcome, side, quantity), liquidity)
  }

  /** The validating half of `Calculate`: the inventory a trade leads to. */
  function Target(inventory: seq<int>, liquidity: int, outcome: nat, side: Side, quantity: int): (r: Result<seq<int>>)
    ensures r.Ok? <==> Accepts(inventory, liquidity, outcome, side, quantity)
    ensures r.Ok? ==> r.value == Moved(inventory, outcome, side, quantity)
    ensures r.Err? ==> r.error == Invalid || r.error == Internal
  {
    hide InShape, InRange, InSpread;
    var _ :- Validate(inventory, liquidity);
    var _ :- Need(outcome < |inventory| && 1 <= quantity <= MAX_QUANTITY, Invalid);
    MovedFits(inventory, outcome, side, quantity);
    var moved :- ToI64(inventory[outcome] + Delta(side, quantity));
    var next := inventory[outcome := moved];
    var _ :- Validate(next, liquidity);
    Ok(next)
  }

  lemma MovedFits(inventory: seq<int>, outcome: nat, side: Side, quantity: int)
    requires outcome < |inventory|
    ensures InRange(Moved(inventory, outcome, side, quantity)) ==>
      0 <= inventory[outcome] + Delta(side, quantity) <= MAX_INVENTORY
  {
    assert Moved(inventory, outcome, side, quantity)[outcome] == inventory[outcome] + Delta(side, quantity);
  }

  function Calculate(
    m: Math, inventory: seq<int>, liquidity: int, outcome: nat, side: Side, quantity: int
  ): Result<Calculation>
    requires Laws(m)
  {
    var next :- Target(inventory, liquidity, outcome, side, quantity);
    PriceMove(m, inventory, liquidity, outcome, side, Delta(side, quantity), next)
  }

  /** The numerical half of `Calculate`, once both inventories are validated. */
  function PriceMove(
    m: Math, inventory: seq<int>, liquidity: int, outcome: nat, side: Side, delta: int, next: seq<int>
  ): Result<Calculation>
    requires Laws(m)
    requires outcome < |inventory| && liquidity > 0
  {
    var p := Probabilities(m, inventory, liquidity);
    var growth := Growth(m, liquidity, delta);
    var argument := Argument(p[outcome], growth);
    var _ :- Need(argument > 0.0, Invalid);
    var cost := Mul(Scale(liquidity), m.ln(argument));
    var amount :- ToI64(Rounded(side, cost));
    var _ :- Need(amount >= 0, Invalid);
    Ok(Calculation(amount, next, p, Scaled(p, outcome, growth, argument)))
  }

  // ---- The reference definition -----------------------------------------------------------

  /** Sum over the outcomes of exp(q_i / b), with no shift. */
  function Partition(m: Math, inventory: seq<int>, liquidity: int): real
    requires liquidity > 0
  {
    Sum(Weights(Kernel(m, liquidity), inventory, 0))
  }

  /** C(q) = b ln(sum exp(q_i / b)), in microcredits. */
  function Cost(m: Math, inventory: seq<int>, liquidity: int): real
    requires liquidity > 0
  {
    Mul(Scale(liquidity), m.ln(Partition(m, inventory, liquidity)))
  }

  /** The price of outcome i: its share of the partition sum. */
  function Price(m: Math, inventory: seq<int>, liquidity: int, i: nat): real
    requires Laws(m)
    requires i < |inventory| && liquidity > 0
  {
    KernelIsExponential(m, liquidity);
    TotalPositive(Kernel(m, liquidity), inventory, 0);
    Share(Weights(Kernel(m, liquidity), inventory, 0), i)
  }

  // ---- The kernel is an exponential ---------------------------------------------------------

  ghost predicate Multiplies(k: int -> real, a: int, b: int) {
    k(a + b) == Mul(k(a), k(b))
  }

  ghost predicate Exponential(k: int -> real) {
    && (forall a :: k(a) > 0.0)
    && (forall a, b :: Multiplies(k, a, b))
    && (forall a :: a > 0 ==> k(a) > 1.0)
  }

  lemma KernelIsExponential(m: Math, liquidity: int)
    requires Laws(m)
    requires liquidity > 0
    ensures Exponential(Kernel(m, liquidity))
  {
    var k, d := Kernel(m, liquidity), Denominator(liquidity);
    forall a ensures k(a) > 0.0 {
      ExpPositive(m, Div(a as real, d));
    }
    forall a, b ensures Multiplies(k, a, b) {
      DivAdd(a as real, b as real, d);
      ExpAdd(m, Div(a as real, d), Div(b as real, d));
    }
    forall a | a > 0 ensures k(a) > 1.0 {
      ExpTangent(m, Div(a as real, d));
    }
  }

  lemma KernelAdds(k: int -> real, a: int, b: int, c: int)
    requires Exponential(k)
    requires c == a + b
    ensures k(c) == Mul(k(a), k(b))
  {
    assert Multiplies(k, a, b);
  }

  // ---- Sums of weights --------------------------------------------------------------------

  lemma {:induction false} SumAtLeastTerm(s: seq<real>, i: nat)
    requires forall j :: 0 <= j < |s| ==> s[j] > 0.0
    requires i < |s|
    ensures 0.0 < s[i] <= Sum(s)
    ensures |s| > 1 ==> s[i] < Sum(s)
  {
    if |s| > 1 {
      SumAtLeastTerm(s[1..], if i == 0 then 0 else i - 1);
    }
  }

  lemma {:induction false} SumUpdate(s: seq<real>, i: nat, v: real)
    requires i < |s|
    ensures Sum(s[i := v]) == Sum(s) - s[i] + v
  {
    if i == 0 {
      assert s[i := v][1..] == s[1..];
    } else {
      assert s[i := v][1..] == s[1..][i - 1 := v];
      SumUpdate(s[1..], i - 1, v);
    }
  }

  ghost predicate ScaledBy(s: seq<real>, t: seq<real>, c: real) {
    |s| == |t| && forall i :: 0 <= i < |s| ==> t[i] == Mul(s[i], c)
  }

  lemma {:induction false} SumScale(s: seq<real>, t: seq<real>, c: real)
    requires ScaledBy(s, t, c)
    ensures Sum(t) == Mul(Sum(s), c)
  {
    if |s| > 0 {
      SumScale(s[1..], t[1..], c);
      MulAdd(c, s[0], Sum(s[1..]));
    }
  }

  lemma TotalPositive(k: int -> real, inventory: seq<int>, shift: int)
    requires Exponential(k)
    requires |inventory| > 0
    ensures forall i :: 0 <= i < |inventory| ==> Weights(k, inventory, shift)[i] > 0.0
    ensures Sum(Weights(k, inventory, shift)) > 0.0
  {
    SumAtLeastTerm(Weights(k, inventory, shift), 0);
  }

  lemma ShiftWeights(k: int -> real, inventory: seq<int>, shift: int)
    requires Exponential(k)
    ensures ScaledBy(Weights(k, inventory, shift), Weights(k, inventory, 0), k(shift))
  {
    forall i | 0 <= i < |inventory|
      ensures Weights(k, inventory, 0)[i] == Mul(Weights(k, inventory, shift)[i], k(shift))
    {
      KernelAdds(k, inventory[i] - shift, shift, inventory[i]);
    }
  }

  /** Scaling every weight leaves the shares alone. */
  lemma ScaledShare(s: seq<real>, t: seq<real>, c: real, i: nat)
    requires ScaledBy(s, t, c) && i < |s|
    requires Sum(s) > 0.0 && c > 0.0
    ensures Sum(t) > 0.0 && Share(s, i) == Share(t, i)
  {
    SumScale(s, t, c);
    MulPositive(Sum(s), c);
    DivMul(s[i], Sum(s));
    MulAssoc(Share(s, i), Sum(s), c);
    DivUnique(Share(s, i), t[i], Sum(t));
  }

  /** Normalised shifted weights are the unshifted prices: the shift cancels. */
  lemma ProbabilitiesArePrices(m: Math, inventory: seq<int>, liquidity: int)
    requires Laws(m)
    requires |inventory| > 0 && liquidity > 0
    ensures forall i :: 0 <= i < |inventory| ==>
      Probabilities(m, inventory, liquidity)[i] == Price(m, inventory, liquidity, i)
  {
    var k, shift := Kernel(m, liquidity), Max(inventory);
    KernelIsExponential(m, liquidity);
    TotalPositive(k, inventory, shift);
    ShiftWeights(k, inventory, shift);
    forall i | 0 <= i < |inventory|
      ensures Probabilities(m, inventory, liquidity)[i] == Price(m, inventory, liquidity, i)
    {
      ScaledShare(Weights(k, inventory, shift), Weights(k, inventory, 0), k(shift), i);
    }
  }

  lemma SharesNormalized(w: seq<real>)
    requires |w| >= 2
    requires forall i :: 0 <= i < |w| ==> w[i] > 0.0
    ensures Sum(w) > 0.0
    ensures forall i :: 0 <= i < |w| ==> 0.0 < Share(w, i) < 1.0
    ensures Sum(Normalize(w)) == 1.0
  {
    SumAtLeastTerm(w, 0);
    forall i | 0 <= i < |w| ensures 0.0 < Share(w, i) < 1.0 && w[i] == Mul(Normalize(w)[i], Sum(w)) {
      SumAtLeastTerm(w, i);
      DivMul(w[i], Sum(w));
      MulPositive(Share(w, i), Sum(w));
      if Share(w, i) >= 1.0 {
        MulLe(1.0, Share(w, i), Sum(w));
      }
    }
    SumScale(Normalize(w), w, Sum(w));
    DivUnique(Sum(Normalize(w)), Sum(w), Sum(w));
    DivUnique(1.0, Sum(w), Sum(w));
  }

  /** Prices are positive, below one, and sum to one. */
  lemma PricesNormalized(m: Math, inventory: seq<int>, liquidity: int)
    requires Laws(m)
    requires |inventory| >= 2 && liquidity > 0
    ensures forall i :: 0 <= i < |inventory| ==> 0.0 < Probabilities(m, inventory, liquidity)[i] < 1.0
    ensures Sum(Probabilities(m, inventory, liquidity)) == 1.0
  {
    var k := Kernel(m, liquidity);
    KernelIsExponential(m, liquidity);
    TotalPositive(k, inventory, Max(inventory));
    SharesNormalized(Weights(k, inventory, Max(inventory)));
  }

  // ---- The incremental form refines the reference definition -----------------------------------

  ghost predicate Moves(inventory: seq<int>, next: seq<int>, outcome: nat, delta: int) {
    && |inventory| >= 2
    && outcome < |inventory|
    && next == inventory[outcome := inventory[outcome] + delta]
  }

  lemma MovedWeight(k: int -> real, inventory: seq<int>, outcome: nat, delta: int, next: seq<int>)
    requires Exponential(k)
    requires Moves(inventory, next, outcome, delta)
    ensures var w := Weights(k, inventory, 0);
            var v := Mul(w[outcome], k(delta));
            && Weights(k, next, 0) == w[outcome := v]
            && Sum(Weights(k, next, 0)) == Sum(w) - w[outcome] + v
  {
    var w := Weights(k, inventory, 0);
    KernelAdds(k, inventory[outcome], delta, next[outcome]);
    var v := Mul(w[outcome], k(delta));
    assert Weights(k, next, 0) == w[outcome := v];
    SumUpdate(w, outcome, v);
  }

  lemma ArgumentAlgebra(w: real, total: real, g: real)
    requires total > 0.0
    ensures Mul(Argument(Div(w, total), g), total) == total - w + Mul(w, g)
  {
    var p := Div(w, total);
    DivMul(w, total);
    MulAdd(total, 1.0, Mul(p, g - 1.0));
    MulAssoc(p, g - 1.0, total);
    MulAssoc(p, total, g - 1.0);
    MulSub(w, g, 1.0);
  }

  /** The engine's `argument` is the ratio of the partition sums after and before. */
  lemma ArgumentIsPartitionRatio(m: Math, inventory: seq<int>, liquidity: int, outcome: nat, delta: int, next: seq<int>)
    requires Laws(m)
    requires liquidity > 0 && Moves(inventory, next, outcome, delta)
    ensures var a := Argument(Price(m, inventory, liquidity, outcome), Growth(m, liquidity, delta));
            && a > 0.0
            && Mul(a, Partition(m, inventory, liquidity)) == Partition(m, next, liquidity)
            && Partition(m, inventory, liquidity) > 0.0
            && Partition(m, next, liquidity) > 0.0
  {
    var k := Kernel(m, liquidity);
    KernelIsExponential(m, liquidity);
    MovedWeight(k, inventory, outcome, delta, next);
    TotalPositive(k, inventory, 0);
    TotalPositive(k, next, 0);
    var w, g := Weights(k, inventory, 0), k(delta);
    ArgumentAlgebra(w[outcome], Sum(w), g);
    MulPositive(Argument(Share(w, outcome), g), Sum(w));
  }

  /** The incremental, max-shifted cost is C(next) - C(inventory). */
  lemma IncrementalCost(m: Math, inventory: seq<int>, liquidity: int, outcome: nat, delta: int, next: seq<int>)
    requires Laws(m)
    requires liquidity > 0 && Moves(inventory, next, outcome, delta)
    ensures var a := Argument(Probabilities(m, inventory, liquidity)[outcome], Growth(m, liquidity, delta));
            && a > 0.0
            && Mul(Scale(liquidity), m.ln(a)) == Cost(m, next, liquidity) - Cost(m, inventory, liquidity)
  {
    var a := Argument(Price(m, inventory, liquidity, outcome), Growth(m, liquidity, delta));
    ProbabilitiesArePrices(m, inventory, liquidity);
    ArgumentIsPartitionRatio(m, inventory, liquidity, outcome, delta, next);
    LnMul(m, a, Partition(m, inventory, liquidity));
    MulAdd(Scale(liquidity), m.ln(a), m.ln(Partition(m, inventory, liquidity)));
  }

  /** Scaling the old prices gives exactly the prices of the new inventory. */
  lemma ScaledPricesAreRecomputed(
      m: Math, inventory: seq<int>, liquidity: int, outcome: nat, delta: int, next: seq<int>
    )
    requires Laws(m)
    requires liquidity > 0 && Moves(inventory, next, outcome, delta)
    ensures var p, g := Probabilities(m, inventory, liquidity), Growth(m, liquidity, delta);
            && Argument(p[outcome], g) > 0.0
            && Scaled(p, outcome, g, Argument(p[outcome], g)) == Probabilities(m, next, liquidity)
  {
    var p, g := Probabilities(m, inventory, liquidity), Growth(m, liquidity, delta);
    var a := Argument(p[outcome], g);
    ProbabilitiesArePrices(m, inventory, liquidity);
    ProbabilitiesArePrices(m, next, liquidity);
    ArgumentIsPartitionRatio(m, inventory, liquidity, outcome, delta, next);
    forall i | 0 <= i < |p|
      ensures Scaled(p, outcome, g, a)[i] == Probabilities(m, next, liquidity)[i]
    {
      ScaledPrice(m, inventory, liquidity, outcome, delta, next, i);
    }
  }

  /** One price after the move, from the price before it. */
  lemma ScaledPrice(m: Math, inventory: seq<int>, liquidity: int, outcome: nat, delta: int, next: seq<int>, i: nat)
    requires Laws(m)
    requires liquidity > 0 && Moves(inventory, next, outcome, delta)
    requires i < |inventory|
    ensures var g := Growth(m, liquidity, delta);
            var a := Argument(Price(m, inventory, liquidity, outcome), g);
            var p := Price(m, inventory, liquidity, i);
            && a > 0.0
            && Price(m, next, liquidity, i) == Div(if i == outcome then Mul(p, g) else p, a)
  {
    var k := Kernel(m, liquidity);
    var g := k(delta);
    ArgumentIsPartitionRatio(m, inventory, liquidity, outcome, delta, next);
    KernelIsExponential(m, liquidity);
    MovedWeight(k, inventory, outcome, delta, next);
    var w, v := Weights(k, inventory, 0), Weights(k, next, 0);
    var a := Argument(Price(m, inventory, liquidity, outcome), g);
    var p := Price(m, inventory, liquidity, i);
    DivMul(v[i], Sum(v));
    DivMul(w[i], Sum(w));
    var u := if i == outcome then Mul(p, g) else p;
    MulAssoc(p, g, Sum(w));
    MulAssoc(p, Sum(w), g);
    assert Mul(u, Sum(w)) == v[i];
    var r := Price(m, next, liquidity, i);
    MulAssoc(r, a, Sum(w));
    CancelRight(Mul(r, a), u, Sum(w));
    DivUnique(r, u, a);
  }

  lemma CancelRight(x: real, y: real, c: real)
    requires c != 0.0 && Mul(x, c) == Mul(y, c)
    ensures x == y
  {
    DivUnique(x, Mul(x, c), c);
    DivUnique(y, Mul(y, c), c);
  }

  // ---- What prices tell of an inventory -----------------------------------------------------------

  /** Two inventories that differ by the same quantity in every outcome. */
  ghost predicate SameDifferences(a: seq<int>, b: seq<int>) {
    |a| == |b| && forall i, j :: 0 <= i < |a| && 0 <= j < |a| ==> a[i] - a[j] == b[i] - b[j]
  }

  lemma KernelInjective(k: int -> real, a: int, b: int)
    requires Exponential(k) && k(a) == k(b)
    ensures a == b
  {
    var low, high := if a < b then a else b, if a < b then b else a;
    if low < high {
      KernelAdds(k, low, high - low, high);
      MulLt(1.0, k(high - low), k(low));
    }
  }

  /** The ratio of two prices is the kernel of the quantities' difference. */
  lemma PriceRatio(m: Math, inventory: seq<int>, liquidity: int, i: nat, j: nat)
    requires Laws(m) && liquidity > 0 && i < |inventory| && j < |inventory|
    ensures var p := Probabilities(m, inventory, liquidity);
            p[i] == Mul(p[j], Kernel(m, liquidity)(inventory[i] - inventory[j])) && 0.0 < p[j]
  {
    var k, top := Kernel(m, liquidity), Max(inventory);
    var w, g := Weights(k, inventory, top), k(inventory[i] - inventory[j]);
    KernelIsExponential(m, liquidity);
    TotalPositive(k, inventory, top);
    KernelAdds(k, inventory[j] - top, inventory[i] - inventory[j], inventory[i] - top);
    DivMul(w[j], Sum(w));
    MulPositive(Share(w, j), Sum(w));
    MulAssoc(Share(w, j), g, Sum(w));
    MulAssoc(Share(w, j), Sum(w), g);
    MulAssoc(g, Sum(w), 1.0);
    DivUnique(Mul(Share(w, j), g), w[i], Sum(w));
  }

  lemma PricesTellDifference(m: Math, a: seq<int>, b: seq<int>, liquidity: int, i: nat, j: nat)
    requires Laws(m) && liquidity > 0 && i < |a| == |b| && j < |a|
    requires Probabilities(m, a, liquidity) == Probabilities(m, b, liquidity)
    ensures a[i] - a[j] == b[i] - b[j]
  {
    hide Laws, Exponential, Kernel, Probabilities;
    var k, p := Kernel(m, liquidity), Probabilities(m, a, liquidity);
    KernelIsExponential(m, liquidity);
    PriceRatio(m, a, liquidity, i, j);
    PriceRatio(m, b, liquidity, i, j);
    MulAssoc(p[j], k(a[i] - a[j]), 1.0);
    MulAssoc(p[j], k(b[i] - b[j]), 1.0);
    CancelRight(k(a[i] - a[j]), k(b[i] - b[j]), p[j]);
    KernelInjective(k, a[i] - a[j], b[i] - b[j]);
  }

  /** Prices show exactly the differences between the quantities. */
  lemma SamePricesIff(m: Math, a: seq<int>, b: seq<int>, liquidity: int)
    requires Laws(m) && liquidity > 0 && |a| == |b| > 0
    ensures Probabilities(m, a, liquidity) == Probabilities(m, b, liquidity) <==> SameDifferences(a, b)
  {
    hide Laws, Exponential, Kernel;
    if Probabilities(m, a, liquidity) == Probabilities(m, b, liquidity) {
      forall i: nat, j: nat | i < |a| && j < |a| ensures a[i] - a[j] == b[i] - b[j] {
        PricesTellDifference(m, a, b, liquidity, i, j);
      }
    }
    if SameDifferences(a, b) {
      SameWeights(Kernel(m, liquidity), a, b);
    }
  }

  lemma SameWeights(k: int -> real, a: seq<int>, b: seq<int>)
    requires |a| > 0 && SameDifferences(a, b)
    ensures Weights(k, a, Max(a)) == Weights(k, b, Max(b))
  {
    hide Max;
    SameTop(a, b);
  }

  lemma SameTop(a: seq<int>, b: seq<int>)
    requires |a| > 0 && SameDifferences(a, b)
    ensures forall i :: 0 <= i < |a| ==> a[i] - Max(a) == b[i] - Max(b)
  {
    hide Max;
    var top :| 0 <= top < |a| && a[top] == Max(a);
    var other :| 0 <= other < |b| && b[other] == Max(b);
    assert a[top] - a[other] == b[top] - b[other];
  }
}
