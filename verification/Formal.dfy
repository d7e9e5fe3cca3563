/** Polynomial expressions with a formal time derivative, and the proof that the formal derivative
    is the true one along every twice-expandable curve. */
module Formal {
  datatype Expr = Const(c: real) | Var(v: nat) | Add(l: Expr, r: Expr) | Mul(l: Expr, r: Expr)

  /** Values of the variables. */
  type Env = nat -> real

  /** The derivative of each variable, itself an expression of the variables. */
  type Rules = nat -> Expr

  // Products are evaluated by functions of their own, so that the verifier looks into one only where a
  // proof calls for it (see `EvalMul`).

  function Eval(e: Expr, env: Env): real
    decreases e, 2
  {
    match e
    case Const(c) => c
    case Var(v) => env(v)
    case Add(l, r) => Eval(l, env) + Eval(r, env)
    case Mul(_, _) => ProductValue(e, env)
  }

  function ProductValue(e: Expr, env: Env): real
    requires e.Mul?
    decreases e, 1
  {
    FactorsValue(e, env)
  }

  function FactorsValue(e: Expr, env: Env): real
    requires e.Mul?
    decreases e, 0
  {
    Prod(Eval(e.l, env), Eval(e.r, env))
  }

  /** A product as a term of its own, which the verifier can rewrite under. */
  function Prod(x: real, y: real): real { x * y }

  function D(e: Expr, rules: Rules): Expr {
    match e
    case Const(_) => Const(0.0)
    case Var(v) => rules(v)
    case Add(l, r) => Add(D(l, rules), D(r, rules))
    case Mul(l, r) => Add(Mul(D(l, rules), r), Mul(l, D(r, rules)))
  }

  function Neg(e: Expr): Expr { Mul(Const(-1.0), e) }

  function Sub(l: Expr, r: Expr): Expr { Add(l, Neg(r)) }

  function Scale(k: real, e: Expr): Expr { Mul(Const(k), e) }

  /** Where a curve through `env` whose velocity obeys `rules` is after time `h`, `rest` being what
      its expansion has beyond first order. */
  function Along(env: Env, rules: Rules, rest: Env, h: real): Env {
    (v: nat) => env(v) + h * Eval(rules(v), env) + h * h * rest(v)
  }

  /** The part of an expression's change along that curve beyond first order, divided by h*h. */
  function Rest(e: Expr, env: Env, rules: Rules, rest: Env, h: real): real
    decreases e, 2
  {
    match e
    case Const(_) => 0.0
    case Var(v) => rest(v)
    case Add(l, r) => Rest(l, env, rules, rest, h) + Rest(r, env, rules, rest, h)
    case Mul(_, _) => RestOfProduct(e, env, rules, rest, h)
  }

  function RestOfProduct(e: Expr, env: Env, rules: Rules, rest: Env, h: real): real
    requires e.Mul?
    decreases e, 1
  {
    RestOfFactors(e, env, rules, rest, h)
  }

  function RestOfFactors(e: Expr, env: Env, rules: Rules, rest: Env, h: real): real
    requires e.Mul?
    decreases e, 0
  {
    ProductRest(Eval(e.l, env), MeanSlope(Eval(D(e.l, rules), env), Rest(e.l, env, rules, rest, h), h),
                Rest(e.l, env, rules, rest, h),
                Eval(e.r, env), MeanSlope(Eval(D(e.r, rules), env), Rest(e.r, env, rules, rest, h), h),
                Rest(e.r, env, rules, rest, h))
  }

  /** The average slope over a step `h`. */
  function MeanSlope(slope: real, rest: real, h: real): real { slope + h * rest }

  function ProductRest(a: real, slopeA: real, a2: real, b: real, slopeB: real, b2: real): real {
    slopeA * slopeB + a * b2 + a2 * b
  }

  /** A quantity where a step leads and where it starts, its slope there, and its remainder. */
  datatype Motion = Motion(there: real, here: real, slope: real, rest: real)

  predicate Moved(m: Motion, h: real) { m.there == m.here + Prod(h, m.slope) + Prod(h * h, m.rest) }

  function Plus(m: Motion, n: Motion): Motion {
    Motion(m.there + n.there, m.here + n.here, m.slope + n.slope, m.rest + n.rest)
  }

  function Times(m: Motion, n: Motion, h: real): Motion {
    Motion(Prod(m.there, n.there), Prod(m.here, n.here), Prod(m.slope, n.here) + Prod(m.here, n.slope),
           ProductRest(m.here, MeanSlope(m.slope, m.rest, h), m.rest, n.here, MeanSlope(n.slope, n.rest, h), n.rest))
  }

  lemma {:induction false} SumMoves(m: Motion, n: Motion, h: real)
    requires Moved(m, h) && Moved(n, h)
    ensures Moved(Plus(m, n), h)
  {
  }

  lemma {:induction false} ProductMoves(m: Motion, n: Motion, h: real)
    requires Moved(m, h) && Moved(n, h)
    ensures Moved(Times(m, n, h), h)
  {
    ProductExpands(m.there, m.here, m.slope, m.rest, n.there, n.here, n.slope, n.rest, h,
                   MeanSlope(m.slope, m.rest, h), MeanSlope(n.slope, n.rest, h));
  }

  lemma {:induction false} ProductExpands(x: real, a: real, a1: real, a2: real, y: real, b: real, b1: real, b2: real,
                                          h: real,
                                          u: real, v: real)
    requires x == a + h * a1 + h * h * a2 && y == b + h * b1 + h * h * b2
    requires u == a1 + h * a2 && v == b1 + h * b2
    ensures x * y == a * b + h * (a1 * b + a * b1) + h * h * ProductRest(a, u, a2, b, v, b2)
  {
    assert x * y == (a + h * a1 + h * h * a2) * (b + h * b1 + h * h * b2);
    assert u * v == a1 * b1 + h * (a1 * b2 + a2 * b1) + h * h * (a2 * b2);
  }

  function MotionOf(e: Expr, there: Env, env: Env, rules: Rules, rest: Env, h: real): Motion {
    Motion(Eval(e, there), Eval(e, env), Eval(D(e, rules), env), Rest(e, env, rules, rest, h))
  }

  ghost predicate Follows(e: Expr, there: Env, env: Env, rules: Rules, rest: Env, h: real) {
    Moved(MotionOf(e, there, env, rules, rest, h), h)
  }

  lemma {:induction false} MotionOfSum(l: Expr, r: Expr, there: Env, env: Env, rules: Rules, rest: Env, h: real)
    ensures MotionOf(Add(l, r), there, env, rules, rest, h)
            == Plus(MotionOf(l, there, env, rules, rest, h), MotionOf(r, there, env, rules, rest, h))
  {
  }

  lemma {:induction false} RestMul(l: Expr, r: Expr, env: Env, rules: Rules, rest: Env, h: real)
    ensures Rest(Mul(l, r), env, rules, rest, h)
            == ProductRest(
                 Eval(l, env), MeanSlope(Eval(D(l, rules), env), Rest(l, env, rules, rest, h), h),
                 Rest(l, env, rules, rest, h),
                 Eval(r, env), MeanSlope(Eval(D(r, rules), env), Rest(r, env, rules, rest, h), h),
                 Rest(r, env, rules, rest, h))
  {
    var e := Mul(l, r);
    assert Rest(e, env, rules, rest, h) == RestOfProduct(e, env, rules, rest, h);
    assert RestOfProduct(e, env, rules, rest, h) == RestOfFactors(e, env, rules, rest, h);
  }

  lemma {:induction false} MotionOfProduct(l: Expr, r: Expr, there: Env, env: Env, rules: Rules, rest: Env, h: real)
    ensures MotionOf(Mul(l, r), there, env, rules, rest, h)
            == Times(MotionOf(l, there, env, rules, rest, h), MotionOf(r, there, env, rules, rest, h), h)
  {
    EvalMul(l, r, there);
    EvalMul(l, r, env);
    DMul(l, r, rules, env);
    RestMul(l, r, env, rules, rest, h);
  }

  /** The formal derivative is the derivative: along any curve that moves by the rules to first order,
      an expression moves by its `D` to first order, with an explicit polynomial remainder. */
  lemma {:induction false} DIsDerivative(e: Expr, env: Env, rules: Rules, rest: Env, h: real)
    ensures Follows(e, Along(env, rules, rest, h), env, rules, rest, h)
  {
    match e
    case Const(_) =>
    case Var(v) =>
    case Add(l, r) =>
      DIsDerivative(l, env, rules, rest, h);
      DIsDerivative(r, env, rules, rest, h);
      var there := Along(env, rules, rest, h);
      MotionOfSum(l, r, there, env, rules, rest, h);
      SumMoves(MotionOf(l, there, env, rules, rest, h), MotionOf(r, there, env, rules, rest, h), h);
    case Mul(l, r) =>
      DIsDerivative(l, env, rules, rest, h);
      DIsDerivative(r, env, rules, rest, h);
      var there := Along(env, rules, rest, h);
      MotionOfProduct(l, r, there, env, rules, rest, h);
      ProductMoves(MotionOf(l, there, env, rules, rest, h), MotionOf(r, there, env, rules, rest, h), h);
  }

  // ---- Evaluation of the derived operators ----

  lemma {:induction false} EvalSub(l: Expr, r: Expr, env: Env)
    ensures Eval(Sub(l, r), env) == Eval(l, env) - Eval(r, env)
  {
    EvalScale(-1.0, r, env);
    EvalAdd(l, Neg(r), env);
  }

  lemma {:induction false} EvalScale(k: real, e: Expr, env: Env)
    ensures Eval(Scale(k, e), env) == k * Eval(e, env)
  {
    EvalMul(Const(k), e, env);
  }

  lemma {:induction false} DSub(l: Expr, r: Expr, rules: Rules, env: Env)
    ensures Eval(D(Sub(l, r), rules), env) == Eval(D(l, rules), env) - Eval(D(r, rules), env)
  {
    DScale(-1.0, r, rules, env);
    assert Sub(l, r) == Add(l, Scale(-1.0, r));
  }

  lemma {:induction false} DScale(k: real, e: Expr, rules: Rules, env: Env)
    ensures Eval(D(Scale(k, e), rules), env) == k * Eval(D(e, rules), env)
  {
    DMul(Const(k), e, rules, env);
    assert Eval(D(Const(k), rules), env) == 0.0 && Eval(Const(k), env) == k;
  }

  lemma {:induction false} DAdd(l: Expr, r: Expr, rules: Rules, env: Env)
    ensures Eval(D(Add(l, r), rules), env) == Eval(D(l, rules), env) + Eval(D(r, rules), env)
  {
  }

  lemma {:induction false} DMul(l: Expr, r: Expr, rules: Rules, env: Env)
    ensures Eval(D(Mul(l, r), rules), env)
            == Prod(Eval(D(l, rules), env), Eval(r, env)) + Prod(Eval(l, env), Eval(D(r, rules), env))
  {
    EvalAdd(Mul(D(l, rules), r), Mul(l, D(r, rules)), env);
    EvalMul(D(l, rules), r, env);
    EvalMul(l, D(r, rules), env);
  }

  lemma {:induction false} EvalAdd(l: Expr, r: Expr, env: Env)
    ensures Eval(Add(l, r), env) == Eval(l, env) + Eval(r, env)
  {
  }

  lemma {:induction false} EvalMul(l: Expr, r: Expr, env: Env)
    ensures Eval(Mul(l, r), env) == Prod(Eval(l, env), Eval(r, env))
  {
    assert Eval(Mul(l, r), env) == ProductValue(Mul(l, r), env);
    assert ProductValue(Mul(l, r), env) == FactorsValue(Mul(l, r), env);
  }

  function Dn(e: Expr, rules: Rules, n: nat): Expr
    decreases n
  {
    if n == 0 then e else Dn(D(e, rules), rules, n - 1)
  }

  lemma {:induction false} DnAdd(l: Expr, r: Expr, rules: Rules, n: nat, env: Env)
    ensures Eval(Dn(Add(l, r), rules, n), env) == Eval(Dn(l, rules, n), env) + Eval(Dn(r, rules, n), env)
    decreases n
  {
    if n > 0 {
      DnAdd(D(l, rules), D(r, rules), rules, n - 1, env);
    }
  }

  lemma {:induction false} DnScale(k: real, e: Expr, rules: Rules, n: nat, env: Env)
    ensures Eval(Dn(Scale(k, e), rules, n), env) == k * Eval(Dn(e, rules, n), env)
    decreases n
  {
    if n == 0 {
      EvalScale(k, e, env);
    } else {
      assert D(Scale(k, e), rules) == Add(Scale(0.0, e), Scale(k, D(e, rules)));
      DnAdd(Scale(0.0, e), Scale(k, D(e, rules)), rules, n - 1, env);
      DnScale(0.0, e, rules, n - 1, env);
      DnScale(k, D(e, rules), rules, n - 1, env);
    }
  }

  lemma {:induction false} DnSub(l: Expr, r: Expr, rules: Rules, n: nat, env: Env)
    ensures Eval(Dn(Sub(l, r), rules, n), env) == Eval(Dn(l, rules, n), env) - Eval(Dn(r, rules, n), env)
  {
    DnAdd(l, Scale(-1.0, r), rules, n, env);
    DnScale(-1.0, r, rules, n, env);
  }

  /** The operator D + k. */
  function Relax(k: real, e: Expr, rules: Rules): Expr { Add(D(e, rules), Scale(k, e)) }

  lemma {:induction false} DnRelax(k: real, e: Expr, rules: Rules, n: nat, env: Env)
    ensures Eval(Dn(Relax(k, e, rules), rules, n), env)
            == Eval(Dn(e, rules, n + 1), env) + k * Eval(Dn(e, rules, n), env)
  {
    DnAdd(D(e, rules), Scale(k, e), rules, n, env);
    DnScale(k, e, rules, n, env);
  }

  /** (D + 30) applied four times, written out. */
  lemma {:induction false} RelaxedFourTimes(e: Expr, rules: Rules, env: Env)
    ensures var r1 := Relax(30.0, e, rules); var r2 := Relax(30.0, r1, rules);
            var r3 := Relax(30.0, r2, rules); var r4 := Relax(30.0, r3, rules);
            Eval(r4, env) == Eval(Dn(e, rules, 4), env) + 120.0 * Eval(Dn(e, rules, 3), env)
                             + 5400.0 * Eval(Dn(e, rules, 2), env) + 108000.0 * Eval(Dn(e, rules, 1), env)
                             + 810000.0 * Eval(Dn(e, rules, 0), env)
  {
    var r1 := Relax(30.0, e, rules);
    var r2 := Relax(30.0, r1, rules);
    var r3 := Relax(30.0, r2, rules);
    DnRelax(30.0, r3, rules, 0, env);
    DnRelax(30.0, r2, rules, 0, env); DnRelax(30.0, r2, rules, 1, env);
    DnRelax(30.0, r1, rules, 0, env); DnRelax(30.0, r1, rules, 1, env); DnRelax(30.0, r1, rules, 2, env);
    DnRelax(30.0, e, rules, 0, env); DnRelax(30.0, e, rules, 1, env);
    DnRelax(30.0, e, rules, 2, env); DnRelax(30.0, e, rules, 3, env);
  }

  lemma {:induction false} AssembleSecond(x: real, y: real, a0: real, a1: real, a2: real, b0: real, b1: real, b2: real)
    requires x == Prod(a2, b0) + Prod(a1, b1) && y == Prod(a1, b1) + Prod(a0, b2)
    ensures x + y == Prod(a2, b0) + 2.0 * Prod(a1, b1) + Prod(a0, b2)
  {
  }

  lemma {:induction false} DDMulSplits(l: Expr, r: Expr, rules: Rules, env: Env)
    ensures Eval(D(D(Mul(l, r), rules), rules), env)
            == Eval(D(Mul(D(l, rules), r), rules), env) + Eval(D(Mul(l, D(r, rules)), rules), env)
  {
    assert D(Mul(l, r), rules) == Add(Mul(D(l, rules), r), Mul(l, D(r, rules)));
    DAdd(Mul(D(l, rules), r), Mul(l, D(r, rules)), rules, env);
  }

  /** Second derivative of a product. */
  lemma {:induction false} DDMul(l: Expr, r: Expr, rules: Rules, env: Env)
    ensures Eval(D(D(Mul(l, r), rules), rules), env)
            == Prod(Eval(D(D(l, rules), rules), env), Eval(r, env))
               + 2.0 * Prod(Eval(D(l, rules), env), Eval(D(r, rules), env))
               + Prod(Eval(l, env), Eval(D(D(r, rules), rules), env))
  {
    DDMulSplits(l, r, rules, env);
    DMul(D(l, rules), r, rules, env);
    DMul(l, D(r, rules), rules, env);
    AssembleSecond(Eval(D(Mul(D(l, rules), r), rules), env), Eval(D(Mul(l, D(r, rules)), rules), env),
                   Eval(l, env), Eval(D(l, rules), env), Eval(D(D(l, rules), rules), env),
                   Eval(r, env), Eval(D(r, rules), env), Eval(D(D(r, rules), rules), env));
  }

  // ---- The derivative depends only on the function an expression denotes ----

  predicate Within(x: real, bound: real) { -bound <= x <= bound }

  function Size(x: real): real { if x < 0.0 then -x else x }

  lemma {:induction false} NonNegative(x: real, y: real)
    requires x >= 0.0 && y >= 0.0
    ensures x * y >= 0.0
  {
  }

  lemma {:induction false} Expands(a: real, b: real, c: real, d: real)
    ensures (a + b) * (c + d) == a * c + a * d + b * c + b * d
    ensures (a - b) * (c - d) == a * c - a * d - b * c + b * d
    ensures (a + b) * (c - d) == a * c - a * d + b * c - b * d
    ensures (a - b) * (c + d) == a * c + a * d - b * c - b * d
  {
  }

  lemma {:induction false} ProductWithin(x: real, y: real, limitX: real, limitY: real)
    requires Within(x, limitX) && Within(y, limitY)
    ensures Within(x * y, limitX * limitY)
  {
    Expands(limitX, x, limitY, y);
    NonNegative(limitX - x, limitY + y);
    NonNegative(limitX + x, limitY - y);
    NonNegative(limitX - x, limitY - y);
    NonNegative(limitX + x, limitY + y);
  }

  lemma {:induction false} PairWithin(x: real, y: real, limitX: real, limitY: real)
    requires Within(x, limitX) && Within(y, limitY)
    ensures Within(x + y, limitX + limitY)
  {
  }

  lemma {:induction false} SumWithin(x: real, y: real, z: real, limitX: real, limitY: real, limitZ: real)
    requires Within(x, limitX) && Within(y, limitY) && Within(z, limitZ)
    ensures Within(x + y + z, limitX + limitY + limitZ)
  {
  }

  lemma {:induction false} SlopeWithin(slope: real, rest: real, h: real, sizeSlope: real, sizeRest: real)
    requires Within(slope, sizeSlope) && Within(rest, sizeRest) && Within(h, 1.0)
    ensures Within(MeanSlope(slope, rest, h), sizeSlope + sizeRest)
  {
    ProductWithin(h, rest, 1.0, sizeRest);
    PairWithin(slope, h * rest, sizeSlope, sizeRest);
  }

  lemma {:induction false} ProductRestBounded(a: real, slopeA: real, a2: real, b: real, slopeB: real, b2: real,
                                              sizeA: real, sizeSlopeA: real, sizeA2: real, sizeB: real,
                                              sizeSlopeB: real, sizeB2: real)
    requires Within(a, sizeA) && Within(slopeA, sizeSlopeA) && Within(a2, sizeA2)
    requires Within(b, sizeB) && Within(slopeB, sizeSlopeB) && Within(b2, sizeB2)
    ensures Within(ProductRest(a, slopeA, a2, b, slopeB, b2),
                   ProductRest(sizeA, sizeSlopeA, sizeA2, sizeB, sizeSlopeB, sizeB2))
  {
    ProductWithin(slopeA, slopeB, sizeSlopeA, sizeSlopeB);
    ProductWithin(a, b2, sizeA, sizeB2);
    ProductWithin(a2, b, sizeA2, sizeB);
    SumWithin(slopeA * slopeB, a * b2, a2 * b, sizeSlopeA * sizeSlopeB, sizeA * sizeB2, sizeA2 * sizeB);
  }

  lemma {:induction false} SizeBounds(x: real)
    ensures Within(x, Size(x)) && Size(x) >= 0.0
  {
  }

  /** A bound for the remainder of a product from bounds for those of its factors. */
  function LimitOf(l: Expr, r: Expr, env: Env, rules: Rules, boundL: real, boundR: real): real {
    ProductRest(Size(Eval(l, env)), MeanSlope(Size(Eval(D(l, rules), env)), boundL, 1.0), boundL,
                Size(Eval(r, env)), MeanSlope(Size(Eval(D(r, rules), env)), boundR, 1.0), boundR)
  }

  lemma {:induction false} SlopeBounded(slope: real, rest: real, h: real, bound: real)
    requires Within(rest, bound) && Within(h, 1.0)
    ensures Within(MeanSlope(slope, rest, h), MeanSlope(Size(slope), bound, 1.0))
  {
    SizeBounds(slope);
    SlopeWithin(slope, rest, h, Size(slope), bound);
  }

  lemma {:induction false} ProductRestWithin(l: Expr, r: Expr, env: Env, rules: Rules, rest: Env, h: real,
                                             boundL: real, boundR: real)
    requires Within(Rest(l, env, rules, rest, h), boundL) && Within(Rest(r, env, rules, rest, h), boundR)
             && Within(h, 1.0)
    ensures Within(Rest(Mul(l, r), env, rules, rest, h), LimitOf(l, r, env, rules, boundL, boundR))
  {
    var (a, a1, a2) := (Eval(l, env), Eval(D(l, rules), env), Rest(l, env, rules, rest, h));
    var (b, b1, b2) := (Eval(r, env), Eval(D(r, rules), env), Rest(r, env, rules, rest, h));
    RestMul(l, r, env, rules, rest, h);
    SizeBounds(a); SizeBounds(b);
    SlopeBounded(a1, a2, h, boundL);
    SlopeBounded(b1, b2, h, boundR);
    ProductRestBounded(a, MeanSlope(a1, a2, h), a2, b, MeanSlope(b1, b2, h), b2,
                       Size(a), MeanSlope(Size(a1), boundL, 1.0), boundL, Size(b), MeanSlope(Size(b1), boundR, 1.0),
                       boundR);
  }

  lemma {:induction false} WithinSize(x: real, bound: real)
    requires Within(x, bound)
    ensures Within(x, Size(bound))
  {
  }

  /** Over steps of length at most one the remainder is bounded. */
  lemma {:induction false} RestBounded(e: Expr, env: Env, rules: Rules, rest: Env) returns (bound: real)
    ensures bound >= 0.0
    ensures forall h :: Within(h, 1.0) ==> Within(Rest(e, env, rules, rest, h), bound)
  {
    match e
    case Const(_) => bound := 0.0;
    case Var(v) => bound := Size(rest(v));
    case Add(l, r) =>
      var boundL := RestBounded(l, env, rules, rest);
      var boundR := RestBounded(r, env, rules, rest);
      bound := boundL + boundR;
    case Mul(l, r) =>
      var boundL := RestBounded(l, env, rules, rest);
      var boundR := RestBounded(r, env, rules, rest);
      var limit := LimitOf(l, r, env, rules, boundL, boundR);
      bound := Size(limit);
      forall h | Within(h, 1.0)
        ensures Within(Rest(e, env, rules, rest, h), bound)
      {
        ProductRestWithin(l, r, env, rules, rest, h, boundL, boundR);
        WithinSize(Rest(e, env, rules, rest, h), limit);
      }
  }

  ghost predicate SameFunction(e: Expr, f: Expr) { forall env: Env :: Eval(e, env) == Eval(f, env) }

  lemma {:induction false} Divides(h: real, x: real, y: real)
    requires h != 0.0 && h * x == h * y
    ensures x == y
  {
  }

  lemma {:induction false} SlopesDiffer(a1: real, a2: real, b1: real, b2: real, x: real, h: real)
    requires h != 0.0 && x == h * a1 + h * h * a2 && x == h * b1 + h * h * b2
    ensures a1 - b1 == h * (b2 - a2)
  {
    assert h * (a1 - b1) == h * (h * (b2 - a2));
    Divides(h, a1 - b1, h * (b2 - a2));
  }

  lemma {:induction false} SlopesEqual(m: Motion, n: Motion, h: real)
    requires h != 0.0 && Moved(m, h) && Moved(n, h) && m.there == n.there && m.here == n.here
    ensures m.slope - n.slope == Prod(h, n.rest - m.rest)
  {
    SlopesDiffer(m.slope, m.rest, n.slope, n.rest, m.there - m.here, h);
  }

  lemma {:induction false} DifferenceWithin(x: real, y: real, limitX: real, limitY: real)
    requires Within(x, limitX) && Within(y, limitY)
    ensures Within(y - x, limitX + limitY)
  {
  }

  /** Where two expressions agree everywhere, the gap between their slopes is what a step `h` makes of
      the difference of their remainders. */
  lemma {:induction false} GapEquation(e: Expr, f: Expr, env: Env, rules: Rules, rest: Env, h: real)
    requires SameFunction(e, f) && h != 0.0
    ensures var there := Along(env, rules, rest, h);
            var (m, n) := (MotionOf(e, there, env, rules, rest, h), MotionOf(f, there, env, rules, rest, h));
            m.slope - n.slope == Prod(h, n.rest - m.rest)
  {
    var there := Along(env, rules, rest, h);
    DIsDerivative(e, env, rules, rest, h);
    DIsDerivative(f, env, rules, rest, h);
    assert Eval(e, env) == Eval(f, env) && Eval(e, there) == Eval(f, there);
    SlopesEqual(MotionOf(e, there, env, rules, rest, h), MotionOf(f, there, env, rules, rest, h), h);
  }

  predicate Shrinks(gap: real, h: real, limit: real) { Within(gap, Prod(h, limit)) }

  lemma {:induction false} ProductShrinks(gap: real, h: real, diff: real, limit: real)
    requires gap == Prod(h, diff) && 0.0 < h && Within(diff, limit)
    ensures Shrinks(gap, h, limit)
  {
    ProductWithin(h, diff, h, limit);
  }

  lemma {:induction false} SlopesShrink(m: Motion, n: Motion, h: real, boundM: real, boundN: real)
    requires 0.0 < h && m.slope - n.slope == Prod(h, n.rest - m.rest) && Within(m.rest, boundM)
             && Within(n.rest, boundN)
    ensures Shrinks(m.slope - n.slope, h, boundM + boundN)
  {
    DifferenceWithin(m.rest, n.rest, boundM, boundN);
    ProductShrinks(m.slope - n.slope, h, n.rest - m.rest, boundM + boundN);
  }

  lemma {:induction false} GapWithin(e: Expr, f: Expr, env: Env, rules: Rules, rest: Env, h: real, boundE: real,
                                     boundF: real)
    requires SameFunction(e, f) && 0.0 < h
    requires Within(Rest(e, env, rules, rest, h), boundE) && Within(Rest(f, env, rules, rest, h), boundF)
    ensures Shrinks(Eval(D(e, rules), env) - Eval(D(f, rules), env), h, boundE + boundF)
  {
    var there := Along(env, rules, rest, h);
    GapEquation(e, f, env, rules, rest, h);
    SlopesShrink(MotionOf(e, there, env, rules, rest, h), MotionOf(f, there, env, rules, rest, h), h, boundE, boundF);
  }

  lemma {:induction false} Divided(x: real, y: real)
    requires y != 0.0
    ensures x / y * y == x
  {
  }

  /** A step short enough for `NoGap`. */
  lemma {:induction false} HalfStep(size: real, total: real) returns (h: real)
    requires 0.0 <= size < total
    ensures 0.0 < h <= 1.0 && (size > 0.0 ==> h * total == size / 2.0)
  {
    if size == 0.0 {
      h := 1.0;
    } else {
      h := size / (2.0 * total);
      Divided(size, 2.0 * total);
      QuotientBetween(h, total, size / 2.0);
    }
  }

  lemma {:induction false} TooSmall(gap: real, limit: real, total: real, h: real)
    requires Shrinks(gap, h, limit) && 0.0 < h && limit <= total
    requires Size(gap) > 0.0 ==> h * total == Size(gap) / 2.0
    ensures gap == 0.0
  {
    ScaleUp(h, limit, total);
  }

  lemma {:induction false} QuotientBetween(h: real, total: real, product: real)
    requires h * total == product && 0.0 < product < total
    ensures 0.0 < h <= 1.0
  {
    ScaleBy(h, 0.0, total);
    ScaleBy(1.0, h, total);
  }

  /** Order is kept when both sides are scaled by a positive number. */
  lemma {:induction false} ScaleBy(x: real, y: real, total: real)
    requires 0.0 < total
    ensures x <= y <==> x * total <= y * total
  {
    if x <= y {
      ScaleUp(total, x, y);
    } else {
      assert (x - y) * total > 0.0;
    }
  }

  lemma {:induction false} ScaleUp(h: real, limit: real, total: real)
    requires 0.0 < h && limit <= total
    ensures h * limit <= h * total
  {
  }

  lemma {:induction false} NoGap(gap: real, limit: real)
    requires limit >= 0.0
    requires forall h :: 0.0 < h <= 1.0 ==> Shrinks(gap, h, limit)
    ensures gap == 0.0
  {
    var total := limit + Size(gap) + 1.0;
    var h := HalfStep(Size(gap), total);
    assert Shrinks(gap, h, limit);
    TooSmall(gap, limit, total, h);
  }

  /** Two expressions that denote the same function have the same derivative. */
  lemma {:induction false} SameFunctionSameDerivative(e: Expr, f: Expr, env: Env, rules: Rules)
    requires SameFunction(e, f)
    ensures Eval(D(e, rules), env) == Eval(D(f, rules), env)
  {
    var rest: Env := (v: nat) => 0.0;
    var boundE := RestBounded(e, env, rules, rest);
    var boundF := RestBounded(f, env, rules, rest);
    var gap, limit := Eval(D(e, rules), env) - Eval(D(f, rules), env), boundE + boundF;
    forall h: real | 0.0 < h <= 1.0
      ensures Shrinks(gap, h, limit)
    {
      GapWithin(e, f, env, rules, rest, h, boundE, boundF);
    }
    NoGap(gap, limit);
  }

  lemma {:induction false} SameFunctionSameDn(e: Expr, f: Expr, rules: Rules, n: nat, env: Env)
    requires SameFunction(e, f)
    ensures Eval(Dn(e, rules, n), env) == Eval(Dn(f, rules, n), env)
    decreases n
  {
    if n > 0 {
      forall other: Env ensures Eval(D(e, rules), other) == Eval(D(f, rules), other) {
        SameFunctionSameDerivative(e, f, other, rules);
      }
      SameFunctionSameDn(D(e, rules), D(f, rules), rules, n - 1, env);
    }
  }
}
