/** The plant (client/calculate.c:62-98) and the server's control law (server/calculate.c:52-134),
    over the reals. */
module Flight {
  import opened Handoff
  import opened Reference

  // The constants of the model (client/calculate_structs.c:7-15, server/calculate.c:8-28), each written
  // as the multiplication or division it takes part in, so that the verifier sees a numeral there;
  // g is 9.81 throughout.

  function TimesM(x: real): real { x * 0.53 }

  function OverM(x: real): real { x / 0.53 }

  function OverIx(x: real): real { x / 0.00623 }

  function OverIy(x: real): real { x / 0.00623 }

  function TimesIz(x: real): real { x * 0.012 }

  function OverIz(x: real): real { x / 0.012 }

  /** Number of state variables: x, x', y, y', z, z', theta, theta', phi, phi', psy, psy'. */
  const NVAR := 12

  /** Component `i` of the right-hand side of the flight equations under command `u`. */
  function Rate(x: Vec, u: Command, i: nat): real
    requires |x| >= NVAR && i < NVAR
  {
    if i == 1 then OverM(x[6] * u.u1)
    else if i == 3 then OverM(-x[8] * u.u1)
    else if i == 5 then OverM(u.u1) - 9.81
    else if i == 7 then OverIx(u.u2)
    else if i == 9 then OverIy(u.u3)
    else if i == 11 then OverIz(u.u4)
    else x[i + 1]
  }

  function Derivs(x: Vec, u: Command): (d: Vec)
    requires |x| == NVAR
    ensures |d| == NVAR && forall i :: 0 <= i < NVAR ==> d[i] == Rate(x, u, i)
  {
    seq(NVAR, i requires 0 <= i < NVAR => Rate(x, u, i))
  }

  /** A quotient the law takes. Dividing by zero, the source gets an infinity or a NaN, which the reals
      do not have; zero stands for it here. */
  function Quotient(a: real, b: real): real { if b == 0.0 then 0.0 else a / b }

  // ---- The law, one intermediate quantity of server_calculations at a time ----

  function V3(p: Vec, r: Jet): real
    requires |p| >= NVAR
  {
    r.r2 - 30.0 * (p[4] - r.r0) - 30.0 * (p[5] - r.r1)
  }

  function U1(p: Vec, r: Jet): real
    requires |p| >= NVAR
  {
    TimesM(9.81 + V3(p, r))
  }

  function DotV3(p: Vec, r: Jet): real
    requires |p| >= NVAR
  {
    r.r3 - 30.0 * (p[5] - r.r1) - 30.0 * (-9.81 + OverM(U1(p, r)) - r.r2)
  }

  function DdotV3(p: Vec, r: Jet): real
    requires |p| >= NVAR
  {
    var dotU1 := TimesM(DotV3(p, r));
    r.r4 - 30.0 * (-9.81 + OverM(U1(p, r)) - r.r2) - 30.0 * (OverM(dotU1) - r.r3)
  }

  /** V1 and V2: the fourth derivative asked of a horizontal axis at `pos` with rate `rate`,
      acceleration `acc` and jerk `jerk`. */
  function Demand(r: Jet, pos: real, rate: real, acc: real, jerk: real): real {
    r.r4 - 810000.0 * (pos - r.r0) - 108000.0 * (rate - r.r1) - 5400.0 * (acc - r.r2) - 120.0 * (jerk - r.r3)
  }

  function V1(p: Vec, r: Jet): real
    requires |p| >= NVAR
  {
    var (theta, dotTheta, u1, dotU1) := (p[6], p[7], U1(p, r), TimesM(DotV3(p, r)));
    Demand(r, p[0], p[1], OverM(theta * u1), OverM(dotTheta * u1 + theta * dotU1))
  }

  function V2(p: Vec, r: Jet): real
    requires |p| >= NVAR
  {
    var (phi, dotPhi, u1, dotU1) := (p[8], p[9], U1(p, r), TimesM(DotV3(p, r)));
    Demand(r, p[2], p[3], -OverM(phi * u1), -OverM(dotPhi * u1 + phi * dotU1))
  }

  function V4(p: Vec, r: Jet): real
    requires |p| >= NVAR
  {
    r.r2 - 125.0 * (p[10] - r.r0) - 125.0 * (p[11] - r.r1)
  }

  function ControlLaw(p: Vec, r: Jet): Command
    requires |p| >= NVAR
  {
    var v3 := V3(p, r);
    Command(
      U1(p, r),
      Quotient(0.00623, 9.81 + v3) * (V1(p, r) - 2.0 * p[7] * DotV3(p, r) - p[6] * DdotV3(p, r)),
      -Quotient(0.00623, 9.81 + v3) * (V2(p, r) + 2.0 * p[9] * DotV3(p, r) + p[8] * DdotV3(p, r)),
      TimesIz(V4(p, r)))
  }

  /** server_calculations: the law at the reference of the payload's own time stamp. */
  function ServerCalculations(tanh: real -> real, p: Vec): Command
    requires |p| == NVAR + 1
  {
    ControlLaw(p, TanRh(tanh, p[12], SIGMA, LOW_VAL, HIGH_VAL, T_RAISE))
  }

  // ---- Plant and law in numbers ----

  /** Newton's and Euler's equations of the plant, with the mass and the moments of inertia it is given. */
  lemma {:induction false} PlantObeysNewton(x: Vec, u: Command)
    requires |x| == NVAR
    ensures 0.53 * Rate(x, u, 1) == x[6] * u.u1
    ensures 0.53 * Rate(x, u, 3) == -(x[8] * u.u1)
    ensures 0.53 * Rate(x, u, 5) == u.u1 - 0.53 * 9.81
    ensures 0.00623 * Rate(x, u, 7) == u.u2 && 0.00623 * Rate(x, u, 9) == u.u3 && 0.012 * Rate(x, u, 11) == u.u4
    ensures forall i :: 0 <= i < 12 && i % 2 == 0 ==> Rate(x, u, i) == x[i + 1]
  {
    assert Rate(x, u, 3) == OverM(-x[8] * u.u1);
  }

  /** It keeps its height's rate under exactly one thrust, its weight. */
  lemma {:induction false} LevelFlight(x: Vec, u: Command)
    requires |x| == NVAR
    ensures Rate(x, u, 5) == 0.0 <==> u.u1 == 5.1993
  {
  }

  /** The thrust and the yaw torque the law asks for, with the mass and the moment of inertia it is given. */
  lemma {:induction false} LawInNumbers(p: Vec, r: Jet)
    requires |p| >= NVAR
    ensures ControlLaw(p, r).u1 == 0.53 * (9.81 + r.r2 - 30.0 * (p[4] - r.r0) - 30.0 * (p[5] - r.r1))
    ensures ControlLaw(p, r).u4 == 0.012 * (r.r2 - 125.0 * (p[10] - r.r0) - 125.0 * (p[11] - r.r1))
  {
  }
}
