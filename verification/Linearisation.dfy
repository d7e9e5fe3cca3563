/** The law linearises the plant: derivatives of the outputs along the flow the plant and the law
    produce together. */
module Linearisation {
  import opened Handoff
  import opened Formal
  import opened Reference
  import opened Flight

  // Variables 0-11 are the flight state, 12-17 the reference and its successive entries, 18-20 the
  // three angular accelerations the command produces.
  const ACC_THETA := 18
  const ACC_PHI := 19
  const ACC_PSY := 20

  /** The values of all variables for a payload, a reference jet (with one further entry `r5`) and the
      law's command. */
  function Values(p: Vec, r: Jet, r5: real, u: Command): Env
    requires |p| >= NVAR
  {
    (v: nat) =>
      if v < 12 then p[v]
      else if v == 12 then r.r0 else if v == 13 then r.r1 else if v == 14 then r.r2
      else if v == 15 then r.r3 else if v == 16 then r.r4 else if v == 17 then r5
      else if v == 18 then OverIx(u.u2) else if v == 19 then OverIy(u.u3) else if v == 20 then OverIz(u.u4)
      else 0.0
  }

  /** V3 and g + V3 = U1/m as expressions. */
  function V3Expr(): Expr {
    Sub(Sub(Var(14), Scale(30.0, Sub(Var(4), Var(12)))), Scale(30.0, Sub(Var(5), Var(13))))
  }

  function LiftExpr(): Expr { Add(Const(9.81), V3Expr()) }

  /** The second derivative of the reference is turned round where `flip` says so. */
  function Turned(flip: bool, e: Expr): Expr { if flip then Neg(e) else e }

  function Turn(flip: bool, x: real): real { if flip then -x else x }

  /** How every variable moves. The reference moves from entry to entry; `flip` is false for a consistent
      jet, and true for the one the code computes, whose sign changes on entering and on leaving the
      second derivative. */
  function Rule(flip: bool, v: nat): Expr {
    if v == 1 then Mul(Var(6), LiftExpr())
    else if v == 3 then Mul(Neg(Var(8)), LiftExpr())
    else if v == 5 then Sub(LiftExpr(), Const(9.81))
    else if v == 7 then Var(ACC_THETA)
    else if v == 9 then Var(ACC_PHI)
    else if v == 11 then Var(ACC_PSY)
    else if v == 13 || v == 14 then Turned(flip, Var(v + 1))
    else if v <= 16 then Var(v + 1)
    else Const(0.0)
  }

  function Flow(flip: bool): Rules { (v: nat) => Rule(flip, v) }

  /** `env` holds the state and the reference entries the law looks at. */
  ghost predicate Holds(env: Env, p: Vec, r: Jet)
    requires |p| >= NVAR
  {
    && (forall v: nat :: v < NVAR ==> env(v) == p[v])
    && env(12) == r.r0 && env(13) == r.r1 && env(14) == r.r2 && env(15) == r.r3 && env(16) == r.r4
  }

  lemma {:induction false} ValuesHold(p: Vec, r: Jet, r5: real, u: Command)
    requires |p| >= NVAR
    ensures Holds(Values(p, r, r5, u), p, r)
  {
  }

  lemma {:induction false} ErrorValue(k: real, a: nat, b: nat, env: Env)
    ensures Eval(Scale(k, Sub(Var(a), Var(b))), env) == k * (env(a) - env(b))
  {
    EvalSub(Var(a), Var(b), env);
    EvalScale(k, Sub(Var(a), Var(b)), env);
  }

  lemma {:induction false} LiftValue(env: Env, p: Vec, r: Jet)
    requires |p| >= NVAR && Holds(env, p, r)
    ensures Eval(V3Expr(), env) == V3(p, r)
    ensures Eval(LiftExpr(), env) == 9.81 + V3(p, r)
  {
    var ez, dotEz := Scale(30.0, Sub(Var(4), Var(12))), Scale(30.0, Sub(Var(5), Var(13)));
    ErrorValue(30.0, 4, 12, env);
    ErrorValue(30.0, 5, 13, env);
    EvalSub(Var(14), ez, env);
    EvalSub(Sub(Var(14), ez), dotEz, env);
    assert env(4) == p[4] && env(5) == p[5];
  }

  lemma {:induction false} LiftIsThrust(p: Vec, r: Jet)
    requires |p| >= NVAR
    ensures OverM(U1(p, r)) == 9.81 + V3(p, r)
  {
  }

  lemma {:induction false} TiltedThrust(tilt: real, thrust: real, w: real)
    requires OverM(thrust) == w
    ensures OverM(tilt * thrust) == tilt * w
  {
  }

  /** The three accelerations the thrust causes. */
  lemma {:induction false} ThrustRules(flip: bool, env: Env, p: Vec, r: Jet)
    requires |p| >= NVAR && Holds(env, p, r)
    ensures var w := 9.81 + V3(p, r);
            && Eval(Rule(flip, 1), env) == p[6] * w
            && Eval(Rule(flip, 3), env) == -(p[8] * w)
            && Eval(Rule(flip, 5), env) == V3(p, r)
  {
    LiftValue(env, p, r);
    EvalSub(LiftExpr(), Const(9.81), env);
    EvalSub(Var(8), Var(8), env);
    assert Eval(Mul(Var(6), LiftExpr()), env) == env(6) * Eval(LiftExpr(), env);
    assert Eval(Mul(Neg(Var(8)), LiftExpr()), env) == -env(8) * Eval(LiftExpr(), env);
    assert env(6) == p[6] && env(8) == p[8];
  }

  lemma {:induction false} ThrustInPlant(p: Vec, r: Jet, u: Command)
    requires |p| == NVAR && u.u1 == U1(p, r)
    ensures var w := 9.81 + V3(p, r);
            Rate(p, u, 1) == p[6] * w && Rate(p, u, 3) == -(p[8] * w) && Rate(p, u, 5) == V3(p, r)
  {
    LiftIsThrust(p, r);
    TiltedThrust(p[6], u.u1, 9.81 + V3(p, r));
    TiltedThrust(-p[8], u.u1, 9.81 + V3(p, r));
  }

  lemma {:induction false} ThrustRow(flip: bool, env: Env, p: Vec, r: Jet, u: Command, v: nat)
    requires |p| == NVAR && Holds(env, p, r) && u.u1 == U1(p, r)
    requires v == 1 || v == 3 || v == 5
    ensures Eval(Rule(flip, v), env) == Rate(p, u, v)
  {
    ThrustRules(flip, env, p, r);
    ThrustInPlant(p, r, u);
  }

  /** The variables 18 to 20 hold the angular accelerations under the command. */
  ghost predicate Turns(env: Env, u: Command) {
    env(18) == OverIx(u.u2) && env(19) == OverIy(u.u3) && env(20) == OverIz(u.u4)
  }

  lemma {:induction false} PositionRow(flip: bool, env: Env, p: Vec, r: Jet, u: Command, v: nat)
    requires |p| == NVAR && Holds(env, p, r) && v < NVAR && v % 2 == 0
    ensures Eval(Rule(flip, v), env) == Rate(p, u, v)
  {
    assert Rule(flip, v) == Var(v + 1) && env(v + 1) == p[v + 1];
    assert Rate(p, u, v) == p[v + 1];
  }

  lemma {:induction false} AngularRow(flip: bool, env: Env, p: Vec, u: Command, v: nat)
    requires |p| == NVAR && Turns(env, u) && (v == 7 || v == 9 || v == 11)
    ensures Eval(Rule(flip, v), env) == Rate(p, u, v)
  {
    assert Rule(flip, v) == Var(if v == 7 then 18 else if v == 9 then 19 else 20);
    assert Rate(p, u, v) == if v == 7 then OverIx(u.u2) else if v == 9 then OverIy(u.u3) else OverIz(u.u4);
  }

  /** The rules of the twelve state variables are the plant under any command with the law's thrust. */
  lemma {:induction false} RowIsPlant(flip: bool, env: Env, p: Vec, r: Jet, u: Command, v: nat)
    requires |p| == NVAR && v < NVAR && Holds(env, p, r) && Turns(env, u) && u.u1 == U1(p, r)
    ensures Eval(Rule(flip, v), env) == Rate(p, u, v)
  {
    if v == 1 || v == 3 || v == 5 {
      ThrustRow(flip, env, p, r, u, v);
    } else if v % 2 == 0 {
      PositionRow(flip, env, p, r, u, v);
    } else {
      AngularRow(flip, env, p, u, v);
    }
  }

  /** In particular where all of them are as a payload, a reference and a command say. */
  lemma {:induction false} FlowIsPlant(flip: bool, p: Vec, r: Jet, r5: real, u: Command, v: nat)
    requires |p| == NVAR && v < NVAR && u.u1 == U1(p, r)
    ensures Eval(Rule(flip, v), Values(p, r, r5, u)) == Rate(p, u, v)
  {
    ValuesHold(p, r, r5, u);
    RowIsPlant(flip, Values(p, r, r5, u), p, r, u, v);
  }

  // ---- Vertical motion: V3 and its derivatives along the flow ----

  lemma {:induction false} TurnedValue(flip: bool, e: Expr, rules: Rules, env: Env)
    ensures Eval(Turned(flip, e), env) == Turn(flip, Eval(e, env))
    ensures Eval(D(Turned(flip, e), rules), env) == Turn(flip, Eval(D(e, rules), env))
  {
    EvalScale(-1.0, e, env);
    DScale(-1.0, e, rules, env);
  }

  /** V3 as the law combines the second derivative wanted, the height and its rate, and the
      reference's height and rate; its derivatives combine theirs in the same way. */
  function Combined(wanted: real, height: real, refHeight: real, rate: real, refRate: real): real {
    wanted - 30.0 * (height - refHeight) - 30.0 * (rate - refRate)
  }

  /** The first and second derivative of V3 along the flow. */
  function FlowDotV3(flip: bool, p: Vec, r: Jet): real
    requires |p| >= NVAR
  {
    Combined(Turn(flip, r.r3), p[5], r.r1, V3(p, r), Turn(flip, r.r2))
  }

  function FlowDdotV3(flip: bool, p: Vec, r: Jet): real
    requires |p| >= NVAR
  {
    Combined(Turn(flip, r.r4), V3(p, r), Turn(flip, r.r2), FlowDotV3(flip, p, r), r.r3)
  }

  lemma {:induction false} V3ExprDerivative(flip: bool, n: nat, env: Env)
    ensures var f := Flow(flip);
            Eval(Dn(V3Expr(), f, n), env)
            == Combined(Eval(Dn(Var(14), f, n), env), Eval(Dn(Var(4), f, n), env), Eval(Dn(Var(12), f, n), env),
                        Eval(Dn(Var(5), f, n), env), Eval(Dn(Var(13), f, n), env))
  {
    var f := Flow(flip);
    var ez, dotEz := Sub(Var(4), Var(12)), Sub(Var(5), Var(13));
    DnSub(Var(4), Var(12), f, n, env); DnScale(30.0, ez, f, n, env);
    DnSub(Var(5), Var(13), f, n, env); DnScale(30.0, dotEz, f, n, env);
    DnSub(Var(14), Scale(30.0, ez), f, n, env);
    DnSub(Sub(Var(14), Scale(30.0, ez)), Scale(30.0, dotEz), f, n, env);
  }

  lemma {:induction false} DnOne(e: Expr, rules: Rules)
    ensures Dn(e, rules, 1) == D(e, rules) && Dn(e, rules, 2) == D(D(e, rules), rules)
  {
    assert Dn(e, rules, 1) == Dn(D(e, rules), rules, 0);
    assert Dn(e, rules, 2) == Dn(D(e, rules), rules, 1) == Dn(D(D(e, rules), rules), rules, 0);
  }

  /** What the derivative of each variable of V3 is, as an expression. */
  lemma {:induction false} V3Rules(flip: bool)
    ensures var f := Flow(flip);
            && D(Var(4), f) == Var(5) && D(Var(5), f) == Sub(LiftExpr(), Const(9.81)) && D(Var(12), f) == Var(13)
            && D(Var(13), f) == Turned(flip, Var(14)) && D(Var(14), f) == Turned(flip, Var(15))
            && D(Var(15), f) == Var(16)
  {
  }

  /** First derivatives of the variables V3 is made of. */
  lemma {:induction false} FirstDerivatives(flip: bool, env: Env, p: Vec, r: Jet)
    requires |p| >= NVAR && Holds(env, p, r)
    ensures var f := Flow(flip);
            && Eval(D(Var(4), f), env) == p[5] && Eval(D(Var(5), f), env) == V3(p, r)
            && Eval(D(Var(12), f), env) == r.r1 && Eval(D(Var(13), f), env) == Turn(flip, r.r2)
            && Eval(D(Var(14), f), env) == Turn(flip, r.r3) && Eval(D(Var(15), f), env) == r.r4
  {
    V3Rules(flip);
    LiftValue(env, p, r);
    EvalSub(LiftExpr(), Const(9.81), env);
    TurnedValue(flip, Var(14), Flow(flip), env);
    TurnedValue(flip, Var(15), Flow(flip), env);
    assert env(5) == p[5];
  }

  lemma {:induction false} V3ExprFirst(flip: bool, env: Env)
    ensures var f := Flow(flip);
            Eval(D(V3Expr(), f), env)
            == Combined(Eval(D(Var(14), f), env), Eval(D(Var(4), f), env), Eval(D(Var(12), f), env),
                        Eval(D(Var(5), f), env), Eval(D(Var(13), f), env))
  {
    var f := Flow(flip);
    V3ExprDerivative(flip, 1, env);
    DnOne(V3Expr(), f); DnOne(Var(14), f); DnOne(Var(4), f); DnOne(Var(12), f); DnOne(Var(5), f); DnOne(Var(13), f);
  }

  lemma {:induction false} V3ExprSecond(flip: bool, env: Env)
    ensures var f := Flow(flip);
            Eval(D(D(V3Expr(), f), f), env)
            == Combined(Eval(D(D(Var(14), f), f), env), Eval(D(D(Var(4), f), f), env), Eval(D(D(Var(12), f), f), env),
                        Eval(D(D(Var(5), f), f), env), Eval(D(D(Var(13), f), f), env))
  {
    var f := Flow(flip);
    V3ExprDerivative(flip, 2, env);
    DnOne(V3Expr(), f); DnOne(Var(14), f); DnOne(Var(4), f); DnOne(Var(12), f); DnOne(Var(5), f); DnOne(Var(13), f);
  }

  /** The lift differs from V3 by a constant. */
  lemma {:induction false} LiftDerivatives(f: Rules, env: Env)
    ensures Eval(D(LiftExpr(), f), env) == Eval(D(V3Expr(), f), env)
    ensures Eval(D(D(LiftExpr(), f), f), env) == Eval(D(D(V3Expr(), f), f), env)
  {
    assert D(LiftExpr(), f) == Add(Const(0.0), D(V3Expr(), f));
    assert D(D(LiftExpr(), f), f) == Add(Const(0.0), D(D(V3Expr(), f), f));
    EvalAdd(Const(0.0), D(V3Expr(), f), env);
    EvalAdd(Const(0.0), D(D(V3Expr(), f), f), env);
  }

  lemma {:induction false} LiftRate(flip: bool, env: Env, p: Vec, r: Jet)
    requires |p| >= NVAR && Holds(env, p, r)
    ensures Eval(D(V3Expr(), Flow(flip)), env) == FlowDotV3(flip, p, r)
    ensures Eval(D(LiftExpr(), Flow(flip)), env) == FlowDotV3(flip, p, r)
  {
    V3ExprFirst(flip, env);
    FirstDerivatives(flip, env, p, r);
    LiftDerivatives(Flow(flip), env);
  }

  lemma {:induction false} TurnTwice(flip: bool, x: real)
    ensures Turn(flip, Turn(flip, x)) == x
  {
  }

  /** Second derivatives of the same variables. */
  lemma {:induction false} SecondDerivatives(flip: bool, env: Env, p: Vec, r: Jet)
    requires |p| >= NVAR && Holds(env, p, r)
    ensures var f := Flow(flip);
            && Eval(D(D(Var(4), f), f), env) == V3(p, r)
            && Eval(D(D(Var(5), f), f), env) == FlowDotV3(flip, p, r)
            && Eval(D(D(Var(12), f), f), env) == Turn(flip, r.r2)
            && Eval(D(D(Var(13), f), f), env) == r.r3
            && Eval(D(D(Var(14), f), f), env) == Turn(flip, r.r4)
  {
    var f := Flow(flip);
    V3Rules(flip);
    FirstDerivatives(flip, env, p, r);
    LiftRate(flip, env, p, r);
    DSub(LiftExpr(), Const(9.81), f, env);
    TurnedValue(flip, Var(14), f, env);
    TurnedValue(flip, Var(15), f, env);
    TurnTwice(flip, r.r3);
    assert Eval(D(Const(9.81), f), env) == 0.0;
  }

  lemma {:induction false} LiftAcceleration(flip: bool, env: Env, p: Vec, r: Jet)
    requires |p| >= NVAR && Holds(env, p, r)
    ensures Eval(D(D(V3Expr(), Flow(flip)), Flow(flip)), env) == FlowDdotV3(flip, p, r)
    ensures Eval(D(D(LiftExpr(), Flow(flip)), Flow(flip)), env) == FlowDdotV3(flip, p, r)
  {
    V3ExprSecond(flip, env);
    SecondDerivatives(flip, env, p, r);
    LiftDerivatives(Flow(flip), env);
  }

  lemma {:induction false} LawCombines(p: Vec, r: Jet)
    requires |p| >= NVAR
    ensures DotV3(p, r) == Combined(r.r3, p[5], r.r1, V3(p, r), r.r2)
    ensures DdotV3(p, r) == Combined(r.r4, V3(p, r), r.r2, DotV3(p, r), r.r3)
  {
    LiftIsThrust(p, r);
    assert OverM(TimesM(DotV3(p, r))) == DotV3(p, r);
  }

  /** How far the law's dotV3 and ddotV3 are behind the derivatives of V3: nothing for a consistent
      reference, this much for the one the code computes. */
  function LateRate(flip: bool, r: Jet): real { if flip then -2.0 * r.r3 - 60.0 * r.r2 else 0.0 }

  function LateAcceleration(flip: bool, r: Jet): real {
    if flip then -2.0 * r.r4 + 60.0 * r.r3 + 1740.0 * r.r2 else 0.0
  }

  lemma {:induction false} LawKnowsDerivatives(flip: bool, p: Vec, r: Jet)
    requires |p| >= NVAR
    ensures FlowDotV3(flip, p, r) == DotV3(p, r) + LateRate(flip, r)
    ensures FlowDdotV3(flip, p, r) == DdotV3(p, r) + LateAcceleration(flip, r)
  {
    LawCombines(p, r);
  }

  /** So along the motion, what the law uses as the first and second derivative of V3 are they up to that
      much; for a consistent reference they are they. */
  lemma {:induction false} LawKnowsV3Derivatives(flip: bool, env: Env, p: Vec, r: Jet)
    requires |p| >= NVAR && Holds(env, p, r)
    ensures Eval(D(V3Expr(), Flow(flip)), env) == DotV3(p, r) + LateRate(flip, r)
    ensures Eval(D(D(V3Expr(), Flow(flip)), Flow(flip)), env) == DdotV3(p, r) + LateAcceleration(flip, r)
  {
    LiftRate(flip, env, p, r);
    LiftAcceleration(flip, env, p, r);
    LawKnowsDerivatives(flip, p, r);
  }

  /** With the code's reference, exactly where its entries happen to satisfy these. */
  lemma {:induction false} CodeKnowsV3Derivatives(env: Env, p: Vec, r: Jet)
    requires |p| >= NVAR && Holds(env, p, r)
    ensures Eval(D(V3Expr(), Flow(true)), env) == DotV3(p, r) <==> r.r3 == -30.0 * r.r2
    ensures Eval(D(D(V3Expr(), Flow(true)), Flow(true)), env) == DdotV3(p, r)
            <==> r.r4 == 30.0 * r.r3 + 870.0 * r.r2
  {
    LawKnowsV3Derivatives(true, env, p, r);
  }
}
