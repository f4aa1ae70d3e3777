/** Real exponential and logarithm.

    Dafny has no exponential, so the engine is parameterised by a pair of functions that obey
    three laws: the addition law, the tangent bound at zero, and that `ln` inverts `exp` on the
    positive reals. The real exponential and logarithm obey them; everything else the engine
    needs (positivity, monotonicity, weighted AM-GM) is proved from them below.

    Each law is wrapped in a predicate of its own so that it is instantiated only where a proof
    names it. */
module RealMath {

  datatype Math = Math(exp: real -> real, ln: real -> real)

  ghost predicate AddsAt(m: Math, x: real, y: real) {
    m.exp(x + y) == m.exp(x) * m.exp(y)
  }

  ghost predicate AboveTangent(m: Math, x: real) {
    m.exp(x) >= 1.0 + x
  }

  ghost predicate InvertsAt(m: Math, x: real) {
    x > 0.0 ==> m.exp(m.ln(x)) == x
  }

  ghost predicate Laws(m: Math) {
    && (forall x, y :: AddsAt(m, x, y))
    && (forall x :: AboveTangent(m, x))
    && (forall x :: InvertsAt(m, x))
  }

  /** Products and quotients of reals are named, so that equal factors give equal products
      without any search by the solver. */
  function Mul(x: real, y: real): real {
    x * y
  }

  function Div(x: real, y: real): real
    requires y != 0.0
  {
    x / y
  }

  function Ceil(x: real): int {
    -((-x).Floor)
  }

  lemma MulLe(a: real, b: real, c: real)
    requires a <= b && 0.0 <= c
    ensures Mul(a, c) <= Mul(b, c) && Mul(c, a) <= Mul(c, b)
  {}

  lemma MulLt(a: real, b: real, c: real)
    requires a < b && 0.0 < c
    ensures Mul(a, c) < Mul(b, c) && Mul(c, a) < Mul(c, b)
  {}

  lemma MulPositive(a: real, b: real)
    requires b > 0.0
    ensures a > 0.0 <==> Mul(a, b) > 0.0
  {}

  lemma MulAdd(a: real, x: real, y: real)
    ensures Mul(a, x + y) == Mul(a, x) + Mul(a, y)
    ensures Mul(x + y, a) == Mul(x, a) + Mul(y, a)
  {}

  lemma MulSub(a: real, x: real, y: real)
    ensures Mul(a, x - y) == Mul(a, x) - Mul(a, y)
    ensures Mul(x - y, a) == Mul(x, a) - Mul(y, a)
  {}

  lemma MulAssoc(a: real, b: real, c: real)
    ensures Mul(Mul(a, b), c) == Mul(a, Mul(b, c))
    ensures Mul(a, b) == Mul(b, a)
  {}

  lemma DivMul(a: real, b: real)
    requires b != 0.0
    ensures Mul(Div(a, b), b) == a
  {}

  /** a / b is the only x with x * b == a. */
  lemma DivUnique(x: real, a: real, b: real)
    requires b != 0.0 && Mul(x, b) == a
    ensures x == Div(a, b)
  {}

  lemma DivAdd(a: real, b: real, d: real)
    requires d != 0.0
    ensures Div(a + b, d) == Div(a, d) + Div(b, d)
  {}

  lemma ExpAdd(m: Math, x: real, y: real)
    requires Laws(m)
    ensures m.exp(x + y) == Mul(m.exp(x), m.exp(y))
  {
    assert AddsAt(m, x, y);
  }

  lemma ExpTangent(m: Math, x: real)
    requires Laws(m)
    ensures m.exp(x) >= 1.0 + x
  {
    assert AboveTangent(m, x);
  }

  lemma ExpZero(m: Math)
    requires Laws(m)
    ensures m.exp(0.0) == 1.0
  {
    ExpAdd(m, 0.0, 0.0);
    ExpTangent(m, 0.0);
    DivUnique(m.exp(0.0), m.exp(0.0), m.exp(0.0));
  }

  lemma SquarePositive(h: real)
    requires h != 0.0
    ensures Mul(h, h) > 0.0
  {
    if h > 0.0 {
      MulPositive(h, h);
    } else {
      MulPositive(-h, -h);
      assert Mul(-h, -h) == Mul(h, h);
    }
  }

  lemma ExpPositive(m: Math, x: real)
    requires Laws(m)
    ensures m.exp(x) > 0.0
  {
    var half := x / 2.0;
    ExpAdd(m, half, -half);
    ExpZero(m);
    SquarePositive(m.exp(half));
    ExpAdd(m, half, half);
    assert half + half == x;
  }

  lemma ExpStrictlyIncreases(m: Math, x: real, y: real)
    requires Laws(m)
    requires x < y
    ensures m.exp(x) < m.exp(y)
  {
    ExpAdd(m, x, y - x);
    assert x + (y - x) == y;
    ExpTangent(m, y - x);
    ExpPositive(m, x);
    MulLt(1.0, m.exp(y - x), m.exp(x));
  }

  lemma LnInverts(m: Math, x: real)
    requires Laws(m)
    requires x > 0.0
    ensures m.exp(m.ln(x)) == x
  {
    assert InvertsAt(m, x);
  }

  lemma LnOfExp(m: Math, x: real)
    requires Laws(m)
    ensures m.exp(x) > 0.0 && m.ln(m.exp(x)) == x
  {
    ExpPositive(m, x);
    LnInverts(m, m.exp(x));
    var y := m.ln(m.exp(x));
    if y < x {
      ExpStrictlyIncreases(m, y, x);
    } else if x < y {
      ExpStrictlyIncreases(m, x, y);
    }
  }

  lemma LnIncreases(m: Math, x: real, y: real)
    requires Laws(m)
    requires 0.0 < x <= y
    ensures m.ln(x) <= m.ln(y)
    ensures x < y ==> m.ln(x) < m.ln(y)
  {
    LnInverts(m, x);
    LnInverts(m, y);
    if m.ln(y) < m.ln(x) {
      ExpStrictlyIncreases(m, m.ln(y), m.ln(x));
    }
  }

  lemma LnMul(m: Math, x: real, y: real)
    requires Laws(m)
    requires 0.0 < x && 0.0 < y
    ensures Mul(x, y) > 0.0 && m.ln(Mul(x, y)) == m.ln(x) + m.ln(y)
  {
    LnInverts(m, x);
    LnInverts(m, y);
    ExpAdd(m, m.ln(x), m.ln(y));
    LnOfExp(m, m.ln(x) + m.ln(y));
  }

  lemma LnBelowLine(m: Math, x: real)
    requires Laws(m)
    requires 0.0 < x
    ensures m.ln(x) <= x - 1.0
  {
    LnInverts(m, x);
    ExpTangent(m, m.ln(x));
  }

  /** Weighted AM-GM for the two points 0 and t: the chord of `exp` lies above the curve. */
  lemma ChordAboveExp(m: Math, p: real, t: real)
    requires Laws(m)
    requires 0.0 <= p <= 1.0
    ensures m.exp(Mul(p, t)) <= 1.0 + Mul(p, m.exp(t) - 1.0)
  {
    var s := Mul(p, t);
    var e, u, v, q := m.exp(s), m.exp(t - s), m.exp(-s), 1.0 - p;
    ExpAdd(m, s, t - s);
    ExpAdd(m, s, -s);
    ExpZero(m);
    assert s + (t - s) == t && s + -s == 0.0;
    ExpTangent(m, t - s);
    ExpTangent(m, -s);
    MulLe(1.0 + (t - s), u, p);
    MulLe(1.0 - s, v, q);
    MeanOfTangents(p, s, t);
    var mean := Mul(p, u) + Mul(q, v);
    ExpPositive(m, s);
    MulLe(1.0, mean, e);
    SpreadMean(e, p, u, q, v);
    MulSub(p, m.exp(t), 1.0);
  }

  lemma MeanOfTangents(p: real, s: real, t: real)
    requires s == Mul(p, t)
    ensures Mul(p, 1.0 + (t - s)) + Mul(1.0 - p, 1.0 - s) == 1.0
  {
    MulAdd(p, 1.0, t - s);
    MulSub(p, t, s);
    MulSub(1.0 - s, 1.0, p);
    MulSub(p, 1.0, s);
  }

  lemma SpreadMean(e: real, p: real, u: real, q: real, v: real)
    ensures Mul(e, Mul(p, u) + Mul(q, v)) == Mul(p, Mul(e, u)) + Mul(q, Mul(e, v))
  {
    MulAdd(e, Mul(p, u), Mul(q, v));
    MulAssoc(e, p, u);
    MulAssoc(p, e, u);
    MulAssoc(e, q, v);
    MulAssoc(q, e, v);
  }

  lemma CeilBounds(x: real)
    ensures x <= Ceil(x) as real < x + 1.0
  {}
}
