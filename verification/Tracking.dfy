/** Main results on the control law: exact feedback linearisation, and the differential equations the
    tracking errors obey -- for a consistent reference and for the one the code computes. */
module Tracking {
  import opened Handoff
  import opened Formal
  import opened Reference
  import opened Flight
  import opened Linearisation

  /** The state, the reference and the law's own command, at one instant. */
  ghost predicate Instant(env: Env, p: Vec, r: Jet)
    requires |p| >= NVAR
  {
    var u := ControlLaw(p, r);
    && Holds(env, p, r)
    && env(ACC_THETA) == OverIx(u.u2) && env(ACC_PHI) == OverIy(u.u3) && env(ACC_PSY) == OverIz(u.u4)
  }

  lemma {:induction false} Cancels(q: real, w: real, x: real)
    requires q * w == 0.00623
    ensures OverIx(q * x) * w == x && OverIy(-q * x) * w == -x
  {
    assert q * x * w == 0.00623 * x;
    assert OverIx(q * x) * w == q * x * w / 0.00623;
    assert OverIy(-q * x) * w == -(q * x * w / 0.00623);
  }

  lemma {:induction false} QuotientCancels(w: real, x: real)
    requires w != 0.0
    ensures OverIx(Quotient(0.00623, w) * x) * w == x
    ensures OverIy(-Quotient(0.00623, w) * x) * w == -x
  {
    Cancels(Quotient(0.00623, w), w, x);
  }

  /** The angular accelerations solve for V1 and V2. */
  ghost predicate Accelerates(accTheta: real, accPhi: real, p: Vec, r: Jet)
    requires |p| >= NVAR
  {
    var w := 9.81 + V3(p, r);
    && accTheta * w == V1(p, r) - 2.0 * p[7] * DotV3(p, r) - p[6] * DdotV3(p, r)
    && accPhi * w == -(V2(p, r) + 2.0 * p[9] * DotV3(p, r) + p[8] * DdotV3(p, r))
  }

  /** Where the lift g + V3 is not zero, the commanded angular accelerations do. */
  lemma {:induction false} CommandSolves(env: Env, p: Vec, r: Jet)
    requires |p| >= NVAR && Instant(env, p, r) && 9.81 + V3(p, r) != 0.0
    ensures Accelerates(env(ACC_THETA), env(ACC_PHI), p, r)
  {
    var w := 9.81 + V3(p, r);
    QuotientCancels(w, V1(p, r) - 2.0 * p[7] * DotV3(p, r) - p[6] * DdotV3(p, r));
    QuotientCancels(w, V2(p, r) + 2.0 * p[9] * DotV3(p, r) + p[8] * DdotV3(p, r));
  }

  /** The value, first and second derivative of an expression along the flow. */
  ghost predicate Moves(e: Expr, f: Rules, env: Env, e0: real, e1: real, e2: real) {
    Eval(e, env) == e0 && Eval(D(e, f), env) == e1 && Eval(D(D(e, f), f), env) == e2
  }

  lemma {:induction false} ProductMoves(l: Expr, r: Expr, f: Rules, env: Env, l0: real, l1: real, l2: real,
                                        r0: real, r1: real, r2: real)
    requires Moves(l, f, env, l0, l1, l2) && Moves(r, f, env, r0, r1, r2)
    ensures Moves(Mul(l, r), f, env, Prod(l0, r0), Prod(l1, r0) + Prod(l0, r1),
                  Prod(l2, r0) + 2.0 * Prod(l1, r1) + Prod(l0, r2))
  {
    EvalMul(l, r, env);
    DMul(l, r, f, env);
    DDMul(l, r, f, env);
  }

  lemma {:induction false} NegMoves(e: Expr, f: Rules, env: Env, e0: real, e1: real, e2: real)
    requires Moves(e, f, env, e0, e1, e2)
    ensures Moves(Neg(e), f, env, -e0, -e1, -e2)
  {
    DnOne(e, f);
    DnOne(Scale(-1.0, e), f);
    EvalScale(-1.0, e, env);
    DnScale(-1.0, e, f, 1, env);
    DnScale(-1.0, e, f, 2, env);
  }

  lemma {:induction false} LiftMoves(flip: bool, env: Env, p: Vec, r: Jet)
    requires |p| >= NVAR && Holds(env, p, r)
    ensures Moves(LiftExpr(), Flow(flip), env, 9.81 + V3(p, r), FlowDotV3(flip, p, r), FlowDdotV3(flip, p, r))
  {
    LiftValue(env, p, r);
    LiftRate(flip, env, p, r);
    LiftAcceleration(flip, env, p, r);
  }

  lemma {:induction false} TiltMoves(flip: bool, env: Env, p: Vec, r: Jet)
    requires |p| >= NVAR && Holds(env, p, r)
    ensures Moves(Var(6), Flow(flip), env, p[6], p[7], env(ACC_THETA))
    ensures Moves(Var(8), Flow(flip), env, p[8], p[9], env(ACC_PHI))
  {
    assert env(6) == p[6] && env(7) == p[7] && env(8) == p[8] && env(9) == p[9];
  }

  lemma {:induction false} DnShift(e: Expr, rules: Rules)
    ensures Dn(e, rules, 3) == Dn(D(e, rules), rules, 2) && Dn(e, rules, 4) == Dn(D(e, rules), rules, 3)
  {
  }

  /** Two levels below an expression whose second derivative is `e`. */
  lemma {:induction false} ThroughSecond(position: Expr, rate: Expr, e: Expr, f: Rules)
    requires D(position, f) == rate && D(rate, f) == e
    ensures Dn(position, f, 1) == rate && Dn(position, f, 2) == e
    ensures Dn(position, f, 3) == D(e, f) && Dn(position, f, 4) == D(D(e, f), f)
  {
    DnShift(position, f);
    DnShift(rate, f);
    DnOne(position, f);
    DnOne(rate, f);
    DnOne(e, f);
  }

  /** A value with its first and second derivative. */
  type Three = (real, real, real)

  /** The first four derivatives of an axis with the given tilt and lift. */
  ghost predicate AxisMoves(axis: nat, f: Rules, env: Env, pos: real, rate: real, tilt: Three, lift: Three) {
    && Eval(Dn(Var(axis), f, 0), env) == pos && Eval(Dn(Var(axis), f, 1), env) == rate
    && Eval(Dn(Var(axis), f, 2), env) == Prod(tilt.0, lift.0)
    && Eval(Dn(Var(axis), f, 3), env) == Prod(tilt.1, lift.0) + Prod(tilt.0, lift.1)
    && Eval(Dn(Var(axis), f, 4), env) == Prod(tilt.2, lift.0) + 2.0 * Prod(tilt.1, lift.1) + Prod(tilt.0, lift.2)
  }

  /** The tilt of each horizontal axis, its rate and its commanded acceleration. */
  function XTilt(p: Vec, accTheta: real): Three
    requires |p| >= NVAR
  {
    (p[6], p[7], accTheta)
  }

  function YTilt(p: Vec, accPhi: real): Three
    requires |p| >= NVAR
  {
    (-p[8], -p[9], -accPhi)
  }

  function Lift(flip: bool, p: Vec, r: Jet): Three
    requires |p| >= NVAR
  {
    (9.81 + V3(p, r), FlowDotV3(flip, p, r), FlowDdotV3(flip, p, r))
  }

  lemma {:induction false} AxisFromTilt(axis: nat, tilt: Expr, lift: Expr, f: Rules, env: Env, pos: real, rate: real,
                                        t: Three, w: Three)
    requires D(Var(axis), f) == Var(axis + 1) && D(Var(axis + 1), f) == Mul(tilt, lift)
    requires Moves(tilt, f, env, t.0, t.1, t.2) && Moves(lift, f, env, w.0, w.1, w.2)
    requires env(axis) == pos && env(axis + 1) == rate
    ensures AxisMoves(axis, f, env, pos, rate, t, w)
  {
    ThroughSecond(Var(axis), Var(axis + 1), Mul(tilt, lift), f);
    ProductMoves(tilt, lift, f, env, t.0, t.1, t.2, w.0, w.1, w.2);
  }

  lemma {:induction false} XMoves(flip: bool, env: Env, p: Vec, r: Jet)
    requires |p| >= NVAR && Holds(env, p, r)
    ensures AxisMoves(0, Flow(flip), env, p[0], p[1], XTilt(p, env(ACC_THETA)), Lift(flip, p, r))
  {
    LiftMoves(flip, env, p, r);
    TiltMoves(flip, env, p, r);
    AxisFromTilt(0, Var(6), LiftExpr(), Flow(flip), env, p[0], p[1], XTilt(p, env(ACC_THETA)), Lift(flip, p, r));
  }

  lemma {:induction false} YMoves(flip: bool, env: Env, p: Vec, r: Jet)
    requires |p| >= NVAR && Holds(env, p, r)
    ensures AxisMoves(2, Flow(flip), env, p[2], p[3], YTilt(p, env(ACC_PHI)), Lift(flip, p, r))
  {
    LiftMoves(flip, env, p, r);
    TiltMoves(flip, env, p, r);
    NegMoves(Var(8), Flow(flip), env, p[8], p[9], env(ACC_PHI));
    AxisFromTilt(2, Neg(Var(8)), LiftExpr(), Flow(flip), env, p[2], p[3], YTilt(p, env(ACC_PHI)), Lift(flip, p, r));
  }

  lemma {:induction false} ReferenceRates(flip: bool, env: Env, p: Vec, r: Jet)
    requires |p| >= NVAR && Holds(env, p, r)
    ensures var f := Flow(flip);
            && Eval(Dn(Var(13), f, 1), env) == Turn(flip, r.r2)
            && Eval(Dn(Var(13), f, 2), env) == r.r3
            && Eval(Dn(Var(13), f, 3), env) == r.r4
  {
    var f := Flow(flip);
    V3Rules(flip);
    DnShift(Var(13), f);
    DnOne(Var(13), f);
    TurnedValue(flip, Var(14), f, env);
    TurnedValue(flip, Var(15), f, env);
    TurnedTwice(flip, Var(14), f, env);
    DnOne(Turned(flip, Var(14)), f);
  }

  /** The second derivative of a turned expression, and of one whose derivative turns back. */
  lemma {:induction false} TurnedTwice(flip: bool, e: Expr, f: Rules, env: Env)
    requires D(e, f) == Turned(flip, Var(15)) && D(Var(15), f) == Var(16)
    ensures Eval(D(Turned(flip, e), f), env) == env(15)
    ensures Eval(D(D(Turned(flip, e), f), f), env) == env(16)
  {
    TurnedValue(flip, e, f, env);
    TurnedValue(flip, Var(15), f, env);
    if flip {
      DnOne(Scale(-1.0, e), f);
      DnOne(e, f);
      DnScale(-1.0, e, f, 2, env);
    }
  }

  lemma {:induction false} ReferenceDerivatives(flip: bool, env: Env, p: Vec, r: Jet)
    requires |p| >= NVAR && Holds(env, p, r)
    ensures var f := Flow(flip);
            && Eval(Dn(Var(12), f, 0), env) == r.r0 && Eval(Dn(Var(12), f, 1), env) == r.r1
            && Eval(Dn(Var(12), f, 2), env) == Turn(flip, r.r2)
            && Eval(Dn(Var(12), f, 3), env) == r.r3 && Eval(Dn(Var(12), f, 4), env) == r.r4
  {
    var f := Flow(flip);
    V3Rules(flip);
    DnShift(Var(12), f);
    DnOne(Var(12), f);
    DnOne(Var(13), f);
    ReferenceRates(flip, env, p, r);
  }

  lemma {:induction false} ScaledThrust(tilt: real, rate: real, w: real, d: real)
    ensures OverM(tilt * TimesM(w)) == tilt * w
    ensures OverM(rate * TimesM(w) + tilt * TimesM(d)) == rate * w + tilt * d
  {
    assert tilt * TimesM(w) == TimesM(tilt * w);
    assert rate * TimesM(w) + tilt * TimesM(d) == TimesM(rate * w + tilt * d);
  }

  lemma {:induction false} DemandsInTilts(p: Vec, r: Jet)
    requires |p| >= NVAR
    ensures var w := 9.81 + V3(p, r); var d := DotV3(p, r);
            && V1(p, r) == Demand(r, p[0], p[1], p[6] * w, p[7] * w + p[6] * d)
            && V2(p, r) == Demand(r, p[2], p[3], -p[8] * w, -p[9] * w + -p[8] * d)
  {
    var w, d := 9.81 + V3(p, r), DotV3(p, r);
    ScaledThrust(p[6], p[7], w, d);
    ScaledThrust(p[8], p[9], w, d);
  }

  lemma {:induction false} YawAcceleration(flip: bool, env: Env)
    ensures Eval(D(D(Var(10), Flow(flip)), Flow(flip)), env) == env(ACC_PSY)
  {
    assert D(D(Var(10), Flow(flip)), Flow(flip)) == Var(ACC_PSY);
  }

  /** The tilt equation the commanded angular acceleration solves on each horizontal axis, given the lift
      and what the law takes for its derivatives. */
  ghost predicate Solves(t: Three, law: Three, demand: real) {
    Prod(t.2, law.0) == demand - 2.0 * Prod(t.1, law.1) - Prod(t.0, law.2)
  }

  /** The lift and what the law takes for its derivatives. */
  function LawLift(p: Vec, r: Jet): Three
    requires |p| >= NVAR
  {
    (9.81 + V3(p, r), DotV3(p, r), DdotV3(p, r))
  }

  /** What the outputs' equations need of an instant: the commanded angular accelerations solve the tilt
      equations for V1 and V2, and psy is accelerated by V4. */
  ghost predicate Commanded(env: Env, p: Vec, r: Jet)
    requires |p| >= NVAR
  {
    && Holds(env, p, r)
    && Solves(XTilt(p, env(ACC_THETA)), LawLift(p, r), V1(p, r))
    && Solves(YTilt(p, env(ACC_PHI)), LawLift(p, r), V2(p, r))
    && env(ACC_PSY) == V4(p, r)
  }

  lemma {:induction false} XSolves(acc: real, w: real, demand: real, tilt: real, rate: real, d: real, dd: real)
    requires acc * w == demand - 2.0 * rate * d - tilt * dd
    ensures Solves((tilt, rate, acc), (w, d, dd), demand)
  {
  }

  lemma {:induction false} YSolves(acc: real, w: real, demand: real, tilt: real, rate: real, d: real, dd: real)
    requires acc * w == -(demand + 2.0 * rate * d + tilt * dd)
    ensures Solves((-tilt, -rate, -acc), (w, d, dd), demand)
  {
  }

  lemma {:induction false} XTiltSolves(acc: real, p: Vec, r: Jet)
    requires |p| >= NVAR
    requires acc * (9.81 + V3(p, r)) == V1(p, r) - 2.0 * p[7] * DotV3(p, r) - p[6] * DdotV3(p, r)
    ensures Solves(XTilt(p, acc), LawLift(p, r), V1(p, r))
  {
    XSolves(acc, 9.81 + V3(p, r), V1(p, r), p[6], p[7], DotV3(p, r), DdotV3(p, r));
  }

  lemma {:induction false} YTiltSolves(acc: real, p: Vec, r: Jet)
    requires |p| >= NVAR
    requires acc * (9.81 + V3(p, r)) == -(V2(p, r) + 2.0 * p[9] * DotV3(p, r) + p[8] * DdotV3(p, r))
    ensures Solves(YTilt(p, acc), LawLift(p, r), V2(p, r))
  {
    YSolves(acc, 9.81 + V3(p, r), V2(p, r), p[8], p[9], DotV3(p, r), DdotV3(p, r));
  }

  lemma {:induction false} AccelerationsTilt(accTheta: real, accPhi: real, p: Vec, r: Jet)
    requires |p| >= NVAR && Accelerates(accTheta, accPhi, p, r)
    ensures Solves(XTilt(p, accTheta), LawLift(p, r), V1(p, r))
    ensures Solves(YTilt(p, accPhi), LawLift(p, r), V2(p, r))
  {
    XTiltSolves(accTheta, p, r);
    YTiltSolves(accPhi, p, r);
  }

  lemma {:induction false} LawYaws(env: Env, p: Vec, r: Jet)
    requires |p| >= NVAR && Instant(env, p, r)
    ensures Holds(env, p, r) && env(ACC_PSY) == V4(p, r)
  {
    assert OverIz(TimesIz(V4(p, r))) == V4(p, r);
  }

  lemma {:induction false} LawCommands(env: Env, p: Vec, r: Jet)
    requires |p| >= NVAR && Instant(env, p, r) && 9.81 + V3(p, r) != 0.0
    ensures Commanded(env, p, r)
  {
    CommandSolves(env, p, r);
    AccelerationsTilt(env(ACC_THETA), env(ACC_PHI), p, r);
    LawYaws(env, p, r);
  }

  lemma {:induction false} AxisReachesDemand(axis: nat, f: Rules, env: Env, pos: real, rate: real, t: Three, w: Three,
                                             demand: real)
    requires AxisMoves(axis, f, env, pos, rate, t, w) && Solves(t, w, demand)
    ensures Eval(Dn(Var(axis), f, 4), env) == demand
  {
  }

  lemma {:induction false} ConsistentLift(p: Vec, r: Jet)
    requires |p| >= NVAR
    ensures Lift(false, p, r) == LawLift(p, r)
  {
    LawKnowsDerivatives(false, p, r);
  }

  lemma {:induction false} HorizontalAxesLinear(env: Env, p: Vec, r: Jet)
    requires |p| >= NVAR && Commanded(env, p, r)
    ensures Eval(Dn(Var(0), Flow(false), 4), env) == V1(p, r)
    ensures Eval(Dn(Var(2), Flow(false), 4), env) == V2(p, r)
  {
    ConsistentLift(p, r);
    XMoves(false, env, p, r);
    YMoves(false, env, p, r);
    AxisReachesDemand(0, Flow(false), env, p[0], p[1], XTilt(p, env(ACC_THETA)), Lift(false, p, r), V1(p, r));
    AxisReachesDemand(2, Flow(false), env, p[2], p[3], YTilt(p, env(ACC_PHI)), Lift(false, p, r), V2(p, r));
  }

  /** The vertical and yaw axes, whatever the lift. */
  lemma {:induction false} LawLinearisesZAndPsy(env: Env, p: Vec, r: Jet)
    requires |p| >= NVAR && Instant(env, p, r)
    ensures var f := Flow(false);
            && Eval(Dn(Var(4), f, 2), env) == V3(p, r)
            && Eval(Dn(Var(10), f, 2), env) == V4(p, r)
            && Eval(Dn(V3Expr(), f, 1), env) == DotV3(p, r)
            && Eval(Dn(V3Expr(), f, 2), env) == DdotV3(p, r)
  {
    var f := Flow(false);
    LawYaws(env, p, r);
    DnOne(Var(4), f); DnOne(Var(10), f); DnOne(V3Expr(), f);
    SecondDerivatives(false, env, p, r);
    LiftRate(false, env, p, r);
    LiftAcceleration(false, env, p, r);
    LawKnowsDerivatives(false, p, r);
    YawAcceleration(false, env);
  }

  /** Exact feedback linearisation. Wherever the lift is not zero, and for every reference whose k-th
      entry differentiates to the next one, plant and law together make the second derivative of z be
      V3, that of psy V4, and the fourth derivatives of x and y be V1 and V2; and what the law uses as
      derivatives of V3 are its derivatives along that motion. */
  lemma {:induction false} LawLinearises(env: Env, p: Vec, r: Jet)
    requires |p| >= NVAR && Instant(env, p, r) && 9.81 + V3(p, r) != 0.0
    ensures var f := Flow(false);
            && Eval(Dn(Var(4), f, 2), env) == V3(p, r)
            && Eval(Dn(Var(10), f, 2), env) == V4(p, r)
            && Eval(Dn(Var(0), f, 4), env) == V1(p, r)
            && Eval(Dn(Var(2), f, 4), env) == V2(p, r)
            && Eval(Dn(V3Expr(), f, 1), env) == DotV3(p, r)
            && Eval(Dn(V3Expr(), f, 2), env) == DdotV3(p, r)
  {
    LawCommands(env, p, r);
    LawLinearisesZAndPsy(env, p, r);
    HorizontalAxesLinear(env, p, r);
  }

  // ---- Tracking errors ----

  /** The tracking error of the output stored in variable `v`. */
  function Error(v: nat): Expr { Sub(Var(v), Var(12)) }

  /** (D + 30)^4 applied to an expression. */
  function Relax4(e: Expr, f: Rules): Expr {
    Relax(30.0, Relax(30.0, Relax(30.0, Relax(30.0, e, f), f), f), f)
  }

  /** What keeps the error of a tilted axis from obeying (D + 30)^4 e = 0. */
  function Residual(flip: bool, tilt: real, tiltRate: real, r: Jet): real {
    2.0 * Prod(tiltRate, LateRate(flip, r)) + Prod(tilt, LateAcceleration(flip, r) + 120.0 * LateRate(flip, r))
    + 5400.0 * (r.r2 - Turn(flip, r.r2))
  }

  /** How the lift's derivatives differ from what the law takes for them. */
  ghost predicate Late(w: Three, law: Three, rate: real, acc: real) {
    w.0 == law.0 && w.1 == law.1 + rate && w.2 == law.2 + acc
  }

  lemma {:induction false} LiftLate(flip: bool, p: Vec, r: Jet)
    requires |p| >= NVAR
    ensures Late(Lift(flip, p, r), LawLift(p, r), LateRate(flip, r), LateAcceleration(flip, r))
  {
    LawKnowsDerivatives(flip, p, r);
  }

  lemma {:induction false} Splits(t: real, w: real, law: real, late: real)
    requires w == law + late
    ensures Prod(t, w) == Prod(t, law) + Prod(t, late)
  {
  }

  /** The demanded fourth derivative, written as (D + 30)^4 of the error would have it. */
  ghost predicate Demands(r: Jet, pos: real, rate: real, t: Three, law: Three, demand: real) {
    demand == r.r4 - 810000.0 * (pos - r.r0) - 108000.0 * (rate - r.r1) - 5400.0 * (Prod(t.0, law.0) - r.r2)
              - 120.0 * (Prod(t.1, law.0) + Prod(t.0, law.1) - r.r3)
  }

  lemma {:induction false} ResidualAdds(r: Jet, turned: real, pos: real, rate: real, t: Three, w: Three, law: Three,
                                        a: real, b: real, demand: real)
    requires Late(w, law, a, b) && Solves(t, law, demand) && Demands(r, pos, rate, t, law, demand)
    ensures Relaxed(r, turned, pos, rate, t, w)
            == 2.0 * Prod(t.1, a) + Prod(t.0, b + 120.0 * a) + 5400.0 * (r.r2 - turned)
  {
    Splits(t.1, w.1, law.1, a);
    Splits(t.0, w.1, law.1, a);
    Splits(t.0, w.2, law.2, b);
    Splits(t.0, b + 120.0 * a, b, 120.0 * a);
    assert Prod(t.0, 120.0 * a) == 120.0 * Prod(t.0, a);
  }

  /** (D + 30)^4 of an axis's error from the five derivatives of axis and reference. */
  lemma {:induction false} ErrorRelaxes(axis: nat, f: Rules, env: Env)
    ensures Eval(Relax4(Error(axis), f), env)
            == (Eval(Dn(Var(axis), f, 4), env) - Eval(Dn(Var(12), f, 4), env))
               + 120.0 * (Eval(Dn(Var(axis), f, 3), env) - Eval(Dn(Var(12), f, 3), env))
               + 5400.0 * (Eval(Dn(Var(axis), f, 2), env) - Eval(Dn(Var(12), f, 2), env))
               + 108000.0 * (Eval(Dn(Var(axis), f, 1), env) - Eval(Dn(Var(12), f, 1), env))
               + 810000.0 * (Eval(Dn(Var(axis), f, 0), env) - Eval(Dn(Var(12), f, 0), env))
  {
    DnSub(Var(axis), Var(12), f, 0, env); DnSub(Var(axis), Var(12), f, 1, env); DnSub(Var(axis), Var(12), f, 2, env);
    DnSub(Var(axis), Var(12), f, 3, env); DnSub(Var(axis), Var(12), f, 4, env);
    RelaxedFourTimes(Error(axis), f, env);
  }

  ghost predicate ReferenceMoves(f: Rules, env: Env, r: Jet, turned: real) {
    && Eval(Dn(Var(12), f, 0), env) == r.r0 && Eval(Dn(Var(12), f, 1), env) == r.r1
    && Eval(Dn(Var(12), f, 2), env) == turned
    && Eval(Dn(Var(12), f, 3), env) == r.r3 && Eval(Dn(Var(12), f, 4), env) == r.r4
  }

  /** (D + 30)^4 of an axis's error, where axis and reference move as given. */
  function Relaxed(r: Jet, turned: real, pos: real, rate: real, t: Three, w: Three): real {
    (Prod(t.2, w.0) + 2.0 * Prod(t.1, w.1) + Prod(t.0, w.2) - r.r4) + 120.0 * (Prod(t.1, w.0) + Prod(t.0, w.1) - r.r3)
    + 5400.0 * (Prod(t.0, w.0) - turned) + 108000.0 * (rate - r.r1) + 810000.0 * (pos - r.r0)
  }

  lemma {:induction false} AxisRelaxes(axis: nat, f: Rules, env: Env, r: Jet, turned: real, pos: real, rate: real,
                                       t: Three, w: Three)
    requires AxisMoves(axis, f, env, pos, rate, t, w) && ReferenceMoves(f, env, r, turned)
    ensures Eval(Relax4(Error(axis), f), env) == Relaxed(r, turned, pos, rate, t, w)
  {
    ErrorRelaxes(axis, f, env);
  }

  lemma {:induction false} ReferenceMovesAlong(flip: bool, env: Env, p: Vec, r: Jet)
    requires |p| >= NVAR && Holds(env, p, r)
    ensures ReferenceMoves(Flow(flip), env, r, Turn(flip, r.r2))
  {
    ReferenceDerivatives(flip, env, p, r);
  }

  lemma {:induction false} RelaxedIsResidual(flip: bool, r: Jet, pos: real, rate: real, t: Three, w: Three, law: Three,
                                             demand: real)
    requires Late(w, law, LateRate(flip, r), LateAcceleration(flip, r))
    requires Solves(t, law, demand) && Demands(r, pos, rate, t, law, demand)
    ensures Relaxed(r, Turn(flip, r.r2), pos, rate, t, w) == Residual(flip, t.0, t.1, r)
  {
    ResidualAdds(r, Turn(flip, r.r2), pos, rate, t, w, law, LateRate(flip, r), LateAcceleration(flip, r), demand);
  }

  lemma {:induction false} AxisError(axis: nat, flip: bool, env: Env, r: Jet, pos: real, rate: real, t: Three, w: Three,
                                     law: Three, demand: real)
    requires AxisMoves(axis, Flow(flip), env, pos, rate, t, w)
    requires ReferenceMoves(Flow(flip), env, r, Turn(flip, r.r2))
    requires Late(w, law, LateRate(flip, r), LateAcceleration(flip, r))
    requires Solves(t, law, demand) && Demands(r, pos, rate, t, law, demand)
    ensures Eval(Relax4(Error(axis), Flow(flip)), env) == Residual(flip, t.0, t.1, r)
  {
    RelaxedIsResidual(flip, r, pos, rate, t, w, law, demand);
    AxisRelaxes(axis, Flow(flip), env, r, Turn(flip, r.r2), pos, rate, t, w);
  }

  lemma {:induction false} XDemands(p: Vec, r: Jet, acc: real)
    requires |p| >= NVAR
    ensures Demands(r, p[0], p[1], XTilt(p, acc), LawLift(p, r), V1(p, r))
  {
    DemandsInTilts(p, r);
  }

  lemma {:induction false} YDemands(p: Vec, r: Jet, acc: real)
    requires |p| >= NVAR
    ensures Demands(r, p[2], p[3], YTilt(p, acc), LawLift(p, r), V2(p, r))
  {
    DemandsInTilts(p, r);
  }

  /** The x and y errors obey (D + 30)^4 e = Residual, for either kind of reference. */
  lemma {:induction false} XError(flip: bool, env: Env, p: Vec, r: Jet, t: Three)
    requires |p| >= NVAR && Holds(env, p, r) && t == XTilt(p, env(ACC_THETA)) && Solves(t, LawLift(p, r), V1(p, r))
    ensures Eval(Relax4(Error(0), Flow(flip)), env) == Residual(flip, t.0, t.1, r)
  {
    LiftLate(flip, p, r);
    XDemands(p, r, env(ACC_THETA));
    XMoves(flip, env, p, r);
    ReferenceMovesAlong(flip, env, p, r);
    AxisError(0, flip, env, r, p[0], p[1], t, Lift(flip, p, r), LawLift(p, r), V1(p, r));
  }

  lemma {:induction false} YError(flip: bool, env: Env, p: Vec, r: Jet, t: Three)
    requires |p| >= NVAR && Holds(env, p, r) && t == YTilt(p, env(ACC_PHI)) && Solves(t, LawLift(p, r), V2(p, r))
    ensures Eval(Relax4(Error(2), Flow(flip)), env) == Residual(flip, t.0, t.1, r)
  {
    LiftLate(flip, p, r);
    YDemands(p, r, env(ACC_PHI));
    YMoves(flip, env, p, r);
    ReferenceMovesAlong(flip, env, p, r);
    AxisError(2, flip, env, r, p[2], p[3], t, Lift(flip, p, r), LawLift(p, r), V2(p, r));
  }

  /** e'' + k e' + k e, the left-hand side of the z and psy error equations. */
  function SecondOrder(k: real, e: Expr, f: Rules): Expr {
    Add(D(D(e, f), f), Scale(k, Add(D(e, f), e)))
  }

  lemma {:induction false} SecondOrderValue(k: real, e: Expr, f: Rules, env: Env)
    ensures Eval(SecondOrder(k, e, f), env) == Eval(D(D(e, f), f), env) + k * (Eval(D(e, f), env) + Eval(e, env))
  {
    EvalScale(k, Add(D(e, f), e), env);
  }

  lemma {:induction false} ErrorValues(v: nat, f: Rules, env: Env)
    ensures Eval(Error(v), env) == env(v) - env(12)
    ensures Eval(D(Error(v), f), env) == Eval(D(Var(v), f), env) - Eval(D(Var(12), f), env)
    ensures Eval(D(D(Error(v), f), f), env) == Eval(D(D(Var(v), f), f), env) - Eval(D(D(Var(12), f), f), env)
  {
    DnOne(Error(v), f); DnOne(Var(v), f); DnOne(Var(12), f);
    DSub(Var(v), Var(12), f, env);
    DnSub(Var(v), Var(12), f, 2, env);
    EvalSub(Var(v), Var(12), env);
  }

  /** The z error: e'' + 30 e' + 30 e is zero, or twice the second entry. */
  lemma {:induction false} ZError(flip: bool, env: Env, p: Vec, r: Jet)
    requires |p| >= NVAR && Holds(env, p, r)
    ensures Eval(SecondOrder(30.0, Error(4), Flow(flip)), env) == r.r2 - Turn(flip, r.r2)
  {
    SecondOrderValue(30.0, Error(4), Flow(flip), env);
    ErrorValues(4, Flow(flip), env);
    ReferenceTwice(flip, env, p, r);
    FirstDerivatives(flip, env, p, r);
    SecondDerivatives(flip, env, p, r);
    assert env(4) == p[4];
  }

  lemma {:induction false} ReferenceTwice(flip: bool, env: Env, p: Vec, r: Jet)
    requires |p| >= NVAR && Holds(env, p, r)
    ensures Eval(D(Var(12), Flow(flip)), env) == r.r1
    ensures Eval(D(D(Var(12), Flow(flip)), Flow(flip)), env) == Turn(flip, r.r2)
  {
    ReferenceDerivatives(flip, env, p, r);
    DnOne(Var(12), Flow(flip));
  }

  lemma {:induction false} PsyRate(flip: bool, env: Env)
    ensures Eval(D(Var(10), Flow(flip)), env) == env(11)
  {
    assert D(Var(10), Flow(flip)) == Var(11);
  }

  /** The psy error: e'' + 125 e' + 125 e is zero, or twice the second entry. */
  lemma {:induction false} PsyError(flip: bool, env: Env, p: Vec, r: Jet)
    requires |p| >= NVAR && Holds(env, p, r) && env(ACC_PSY) == V4(p, r)
    ensures Eval(SecondOrder(125.0, Error(10), Flow(flip)), env) == r.r2 - Turn(flip, r.r2)
  {
    SecondOrderValue(125.0, Error(10), Flow(flip), env);
    ErrorValues(10, Flow(flip), env);
    ReferenceTwice(flip, env, p, r);
    PsyRate(flip, env);
    YawAcceleration(flip, env);
    assert env(10) == p[10] && env(11) == p[11];
  }

  /** All four error equations at once. */
  ghost predicate ErrorsObey(flip: bool, env: Env, p: Vec, r: Jet)
    requires |p| >= NVAR
  {
    var f := Flow(flip);
    var (x, y) := (XTilt(p, env(ACC_THETA)), YTilt(p, env(ACC_PHI)));
    && Eval(Relax4(Error(0), f), env) == Residual(flip, x.0, x.1, r)
    && Eval(Relax4(Error(2), f), env) == Residual(flip, y.0, y.1, r)
    && Eval(SecondOrder(30.0, Error(4), f), env) == r.r2 - Turn(flip, r.r2)
    && Eval(SecondOrder(125.0, Error(10), f), env) == r.r2 - Turn(flip, r.r2)
  }

  lemma {:induction false} XCommanded(flip: bool, env: Env, p: Vec, r: Jet)
    requires |p| >= NVAR && Commanded(env, p, r)
    ensures var t := XTilt(p, env(ACC_THETA));
            Eval(Relax4(Error(0), Flow(flip)), env) == Residual(flip, t.0, t.1, r)
  {
    XError(flip, env, p, r, XTilt(p, env(ACC_THETA)));
  }

  lemma {:induction false} YCommanded(flip: bool, env: Env, p: Vec, r: Jet)
    requires |p| >= NVAR && Commanded(env, p, r)
    ensures var t := YTilt(p, env(ACC_PHI));
            Eval(Relax4(Error(2), Flow(flip)), env) == Residual(flip, t.0, t.1, r)
  {
    YError(flip, env, p, r, YTilt(p, env(ACC_PHI)));
  }

  lemma {:induction false} CommandedErrors(flip: bool, env: Env, p: Vec, r: Jet)
    requires |p| >= NVAR && Commanded(env, p, r)
    ensures ErrorsObey(flip, env, p, r)
  {
    XCommanded(flip, env, p, r);
    YCommanded(flip, env, p, r);
    ZError(flip, env, p, r);
    PsyError(flip, env, p, r);
  }

  /** The z and psy error equations, which hold whatever the lift. */
  lemma {:induction false} ZAndPsyErrors(flip: bool, env: Env, p: Vec, r: Jet)
    requires |p| >= NVAR && Instant(env, p, r)
    ensures Eval(SecondOrder(30.0, Error(4), Flow(flip)), env) == r.r2 - Turn(flip, r.r2)
    ensures Eval(SecondOrder(125.0, Error(10), Flow(flip)), env) == r.r2 - Turn(flip, r.r2)
  {
    LawYaws(env, p, r);
    ZError(flip, env, p, r);
    PsyError(flip, env, p, r);
  }

  /** The error equations of plant and law together, for a consistent reference and for the code's. */
  lemma {:induction false} TrackingErrors(flip: bool, env: Env, p: Vec, r: Jet)
    requires |p| >= NVAR && Instant(env, p, r) && 9.81 + V3(p, r) != 0.0
    ensures ErrorsObey(flip, env, p, r)
  {
    LawCommands(env, p, r);
    CommandedErrors(flip, env, p, r);
  }

  lemma {:induction false} NoResidual(tilt: real, tiltRate: real, r: Jet)
    ensures Residual(false, tilt, tiltRate, r) == 0.0
  {
  }

  lemma {:induction false} ConsistentZAndPsyDecay(env: Env, p: Vec, r: Jet)
    requires |p| >= NVAR && Instant(env, p, r)
    ensures Eval(SecondOrder(30.0, Error(4), Flow(false)), env) == 0.0
    ensures Eval(SecondOrder(125.0, Error(10), Flow(false)), env) == 0.0
  {
    ZAndPsyErrors(false, env, p, r);
  }

  /** With a consistent reference every equation is homogeneous: the x and y errors obey
      (D + 30)^4 e = 0, the z error e'' + 30 e' + 30 e = 0, the psy error e'' + 125 e' + 125 e = 0. */
  lemma {:induction false} ConsistentErrorsDecay(env: Env, p: Vec, r: Jet)
    requires |p| >= NVAR && Instant(env, p, r) && 9.81 + V3(p, r) != 0.0
    ensures var f := Flow(false);
            && Eval(Relax4(Error(0), f), env) == 0.0
            && Eval(Relax4(Error(2), f), env) == 0.0
            && Eval(SecondOrder(30.0, Error(4), f), env) == 0.0
            && Eval(SecondOrder(125.0, Error(10), f), env) == 0.0
  {
    TrackingErrors(false, env, p, r);
    var (x, y) := (XTilt(p, env(ACC_THETA)), YTilt(p, env(ACC_PHI)));
    NoResidual(x.0, x.1, r);
    NoResidual(y.0, y.1, r);
  }

  /** With the reference the code computes, whose second entry is the negated second derivative, the z
      and psy equations are homogeneous exactly where that entry is zero. */
  lemma {:induction false} CodeErrorsDriven(env: Env, p: Vec, r: Jet)
    requires |p| >= NVAR && Instant(env, p, r)
    ensures var f := Flow(true);
            && (Eval(SecondOrder(30.0, Error(4), f), env) == 0.0 <==> r.r2 == 0.0)
            && (Eval(SecondOrder(125.0, Error(10), f), env) == 0.0 <==> r.r2 == 0.0)
  {
    ZAndPsyErrors(true, env, p, r);
  }

  /** And its x and y equations are driven by this much, so at zero tilt and tilt rate they too are
      homogeneous exactly where that entry is zero. */
  lemma {:induction false} ResidualForCode(tilt: real, tiltRate: real, r: Jet)
    ensures Residual(true, tilt, tiltRate, r)
            == 10800.0 * r.r2 - 4.0 * (tiltRate * (r.r3 + 30.0 * r.r2))
              - 2.0 * (tilt * (r.r4 + 90.0 * r.r3 + 2730.0 * r.r2))
    ensures tilt == tiltRate == 0.0 ==> (Residual(true, tilt, tiltRate, r) == 0.0 <==> r.r2 == 0.0)
  {
    var (a, b) := (r.r3 + 30.0 * r.r2, r.r4 + 90.0 * r.r3 + 2730.0 * r.r2);
    assert LateRate(true, r) == -2.0 * a && LateAcceleration(true, r) + 120.0 * LateRate(true, r) == -2.0 * b;
    assert Prod(tiltRate, LateRate(true, r)) == -2.0 * (tiltRate * a);
    assert Prod(tilt, LateAcceleration(true, r) + 120.0 * LateRate(true, r)) == -2.0 * (tilt * b);
  }

  lemma {:induction false} FlippedRule(env: Env, p: Vec, r: Jet, k: nat)
    requires |p| >= NVAR && Holds(env, p, r) && k < 4
    ensures Eval(Rule(true, 12 + k), env) == Sign(k) * Component(r, k + 1)
  {
    if k == 1 || k == 2 {
      EvalScale(-1.0, Var(13 + k), env);
    }
  }

  /** `flip` is the code's case: along tanh's differential equation each entry of the reference moves as
      `Flow(true)` moves the variable that holds it. */
  lemma {:induction false} CodeReferenceMoves(k: nat, st: real, low: real, aR: real, phi: Env, env: Env, p: Vec)
    requires |p| >= NVAR && k < 4 && Holds(env, p, JetAt(phi(0), st, low, aR))
    ensures Eval(D(Entry(k, st, low, aR), TanhRules(st)), phi) == Eval(Rule(true, 12 + k), env)
  {
    EntryDifferentiates(k, st, low, aR, phi);
    EntryIsComponent(k + 1, st, low, aR, phi);
    FlippedRule(env, p, JetAt(phi(0), st, low, aR), k);
  }
}
