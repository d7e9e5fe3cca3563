/** What plant and server do together, in the numbers of a thirteen-number payload: the reference is the one
    at the payload's own time, entry 12. */
module Served {
  import opened Handoff
  import opened Formal
  import opened Reference
  import opened Flight
  import opened Linearisation
  import opened Tracking

  /** The reference's five numbers at a payload's time. */
  function ReferenceOf(tanh: real -> real, p: Vec): Jet
    requires |p| == NVAR + 1
  {
    OwnReference(tanh(p[12] - 5.0))
  }

  lemma {:induction false} ServesLaw(tanh: real -> real, p: Vec)
    requires |p| == 13
    ensures ServerCalculations(tanh, p) == ControlLaw(p, ReferenceOf(tanh, p))
  {
    OwnCall(tanh, p[12]);
  }

  // ---- The command ----

  /** The thrust and the yaw torque for a payload, in its numbers. */
  ghost predicate InNumbers(tanh: real -> real, p: Vec, u1: real, u4: real)
    requires |p| == 13
  {
    var phi := tanh(p[12] - 5.0);
    var q := 1.0 - phi * phi;
    && u1 == 0.53 * (9.81 + 10.0 * (phi * q) - 30.0 * (p[4] - (5.0 + 5.0 * phi)) - 30.0 * (p[5] - 5.0 * q))
    && u4 == 0.012 * (10.0 * (phi * q) - 125.0 * (p[10] - (5.0 + 5.0 * phi)) - 125.0 * (p[11] - 5.0 * q))
  }

  /** Those of every command the server computes. */
  lemma {:induction false} ServedNumbers(tanh: real -> real, p: Vec)
    requires |p| == 13
    ensures InNumbers(tanh, p, ServerCalculations(tanh, p).u1, ServerCalculations(tanh, p).u4)
  {
    ServesLaw(tanh, p);
    LawInNumbers(p, ReferenceOf(tanh, p));
  }

  /** At the middle of the rise. */
  lemma {:induction false} ServedAtFive(tanh: real -> real, p: Vec)
    requires LikeTanh(tanh) && |p| == 13 && p[12] == 5.0
    ensures ServerCalculations(tanh, p).u1 == 0.53 * (9.81 - 30.0 * (p[4] - 5.0) - 30.0 * (p[5] - 5.0))
  {
    ServedNumbers(tanh, p);
    assert tanh(0.0) == 0.0;
    assert tanh(p[12] - 5.0) == 0.0;
  }

  // ---- The closed loop's equations ----

  /** An instant of the flight: the state in the payload, the reference at its time, and the angular
      accelerations under the torques the server computes for it. */
  ghost predicate ServedInstant(env: Env, tanh: real -> real, p: Vec)
    requires |p| == 13
  {
    var phi := tanh(p[12] - 5.0);
    var q, u := 1.0 - phi * phi, ServerCalculations(tanh, p);
    && (forall v: nat :: v < 12 ==> env(v) == p[v])
    && env(12) == 5.0 + 5.0 * phi && env(13) == 5.0 * q && env(14) == 10.0 * (phi * q)
    && env(15) == -10.0 * (q * (1.0 - 3.0 * (phi * phi)))
    && env(16) == 40.0 * (phi * (3.0 * (phi * phi * phi * phi) - 5.0 * (phi * phi) + 2.0))
    && 0.00623 * env(18) == u.u2 && 0.00623 * env(19) == u.u3 && 0.012 * env(20) == u.u4
  }

  lemma {:induction false} Divides(x: real, y: real)
    ensures 0.00623 * x == y ==> x == OverIx(y) && x == OverIy(y)
    ensures 0.012 * x == y ==> x == OverIz(y)
  {
  }

  lemma {:induction false} ServedIsInstant(env: Env, tanh: real -> real, p: Vec)
    requires |p| == 13 && ServedInstant(env, tanh, p)
    ensures Instant(env, p, ReferenceOf(tanh, p))
  {
    ServesLaw(tanh, p);
    var u := ServerCalculations(tanh, p);
    Divides(env(18), u.u2);
    Divides(env(19), u.u3);
    Divides(env(20), u.u4);
  }

  /** Along the flow the derivatives are taken by, each of the twelve state variables moves as the plant does
      under the served command. */
  lemma {:induction false} ServedMoves(flip: bool, env: Env, tanh: real -> real, p: Vec, i: nat)
    requires |p| == 13 && ServedInstant(env, tanh, p) && i < 12
    ensures Eval(Flow(flip)(i), env) == Rate(p[..12], ServerCalculations(tanh, p), i)
  {
    var (r, u, x) := (ReferenceOf(tanh, p), ServerCalculations(tanh, p), p[..12]);
    ServedIsInstant(env, tanh, p);
    ServesLaw(tanh, p);
    RowIsPlant(flip, env, x, r, u, i);
  }

  lemma {:induction false} ServedLift(tanh: real -> real, p: Vec)
    requires |p| == 13
    ensures ServerCalculations(tanh, p).u1 == 0.0 <==> 9.81 + V3(p, ReferenceOf(tanh, p)) == 0.0
  {
    ServesLaw(tanh, p);
  }

  /** Exact feedback linearisation of plant and server: wherever the thrust served is not zero, and for every
      reference that passes through these numbers and whose entries differentiate to one another. */
  lemma {:induction false} ServerLinearises(env: Env, tanh: real -> real, p: Vec)
    requires |p| == 13 && ServedInstant(env, tanh, p) && ServerCalculations(tanh, p).u1 != 0.0
    ensures var (f, r) := (Flow(false), ReferenceOf(tanh, p));
            && Eval(Dn(Var(4), f, 2), env) == env(14) - 30.0 * (p[4] - env(12)) - 30.0 * (p[5] - env(13))
            && Eval(Dn(Var(10), f, 2), env) == env(14) - 125.0 * (p[10] - env(12)) - 125.0 * (p[11] - env(13))
            && Eval(Dn(Var(0), f, 4), env) == V1(p, r) && Eval(Dn(Var(2), f, 4), env) == V2(p, r)
  {
    ServedIsInstant(env, tanh, p);
    ServedLift(tanh, p);
    LawLinearises(env, p, ReferenceOf(tanh, p));
  }

  /** The tracking errors then decay. */
  lemma {:induction false} ServedErrorsDecay(env: Env, tanh: real -> real, p: Vec)
    requires |p| == 13 && ServedInstant(env, tanh, p) && ServerCalculations(tanh, p).u1 != 0.0
    ensures var f := Flow(false);
            && Eval(Relax4(Error(0), f), env) == 0.0 && Eval(Relax4(Error(2), f), env) == 0.0
            && Eval(SecondOrder(30.0, Error(4), f), env) == 0.0 && Eval(SecondOrder(125.0, Error(10), f), env) == 0.0
  {
    ServedIsInstant(env, tanh, p);
    ServedLift(tanh, p);
    ConsistentErrorsDecay(env, p, ReferenceOf(tanh, p));
  }

  lemma {:induction false} TwiceTurned(x: real)
    ensures x - Turn(true, x) == 2.0 * x
  {
  }

  /** But along the motion of the reference the programs compute, whose second entry is the negated second
      derivative, all four are driven, z and psy by twice that entry. */
  lemma {:induction false} ServedErrors(env: Env, tanh: real -> real, p: Vec)
    requires |p| == 13 && ServedInstant(env, tanh, p) && ServerCalculations(tanh, p).u1 != 0.0
    ensures ErrorsObey(true, env, p, ReferenceOf(tanh, p))
  {
    ServedIsInstant(env, tanh, p);
    ServedLift(tanh, p);
    TrackingErrors(true, env, p, ReferenceOf(tanh, p));
  }

  lemma {:induction false} ServedZAndPsyErrors(env: Env, tanh: real -> real, p: Vec)
    requires |p| == 13 && ServedInstant(env, tanh, p)
    ensures Eval(SecondOrder(30.0, Error(4), Flow(true)), env) == 2.0 * env(14)
    ensures Eval(SecondOrder(125.0, Error(10), Flow(true)), env) == 2.0 * env(14)
  {
    ServedIsInstant(env, tanh, p);
    ZAndPsyErrors(true, env, p, ReferenceOf(tanh, p));
    TwiceTurned(env(14));
  }

  /** That flow moves the reference's five numbers as they do move, along phi' = 1 - phi^2. */
  lemma {:induction false} ServedReferenceMoves(k: nat, phi: Env, env: Env, tanh: real -> real, p: Vec)
    requires |p| == 13 && k < 4 && ServedInstant(env, tanh, p) && phi(0) == tanh(p[12] - 5.0)
    ensures Eval(Entry(k, 1.0, 0.0, 5.0), phi) == env(12 + k)
    ensures Eval(D(Entry(k, 1.0, 0.0, 5.0), TanhRules(1.0)), phi) == Eval(Flow(true)(12 + k), env)
  {
    ServedIsInstant(env, tanh, p);
    OwnNumbers(phi(0));
    EntryIsComponent(k, 1.0, 0.0, 5.0, phi);
    CodeReferenceMoves(k, 1.0, 0.0, 5.0, phi, env, p);
  }
}
