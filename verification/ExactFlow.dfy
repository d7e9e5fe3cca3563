/** With the command held constant the flight equations have a polynomial solution, and the
    Runge-Kutta step lands on it exactly. */
module ExactFlow {
  import opened Handoff
  import opened Flight
  import opened RungeKutta

  /** What a tilt that itself accelerates adds to a velocity, and to a position, per unit of thrust. */
  function Lean(tilt: real, tiltRate: real, tiltAcc: real, t: real): real {
    tilt * t + tiltRate * (t * t) / 2.0 + tiltAcc * (t * t * t) / 6.0
  }

  function LeanTwice(tilt: real, tiltRate: real, tiltAcc: real, t: real): real {
    tilt * (t * t) / 2.0 + tiltRate * (t * t * t) / 6.0 + tiltAcc * (t * t * t * t) / 24.0
  }

  /** Position of a horizontal axis after time `t`. */
  function AxisAfter(pos: real, rate: real, thrust: real, tilt: real, tiltRate: real, tiltAcc: real, t: real): real {
    pos + t * rate + thrust * LeanTwice(tilt, tiltRate, tiltAcc, t)
  }

  function AxisRateAfter(rate: real, thrust: real, tilt: real, tiltRate: real, tiltAcc: real, t: real): real {
    rate + thrust * Lean(tilt, tiltRate, tiltAcc, t)
  }

  function Grown(rate: real, acc: real, t: real): real { rate + t * acc }

  function LineAfter(pos: real, rate: real, acc: real, t: real): real { pos + t * rate + acc * (t * t) / 2.0 }

  /** The solution from state `s` under constant command `u`, component by component. */
  function After(s: Vec, u: Command, t: real, i: nat): real
    requires |s| == NVAR && i < NVAR
  {
    var (a, b, c) := (OverM(u.u1), OverIx(u.u2), OverIy(u.u3));
    if i == 0 then AxisAfter(s[0], s[1], a, s[6], s[7], b, t)
    else if i == 1 then AxisRateAfter(s[1], a, s[6], s[7], b, t)
    else if i == 2 then AxisAfter(s[2], s[3], a, -s[8], -s[9], -c, t)
    else if i == 3 then AxisRateAfter(s[3], a, -s[8], -s[9], -c, t)
    else if i == 4 then LineAfter(s[4], s[5], a - 9.81, t)
    else if i == 5 then Grown(s[5], a - 9.81, t)
    else if i == 6 then LineAfter(s[6], s[7], b, t)
    else if i == 7 then Grown(s[7], b, t)
    else if i == 8 then LineAfter(s[8], s[9], c, t)
    else if i == 9 then Grown(s[9], c, t)
    else if i == 10 then LineAfter(s[10], s[11], OverIz(u.u4), t)
    else Grown(s[11], OverIz(u.u4), t)
  }

  function Flown(s: Vec, u: Command, t: real): (r: Vec)
    requires |s| == NVAR
    ensures |r| == NVAR && forall i :: 0 <= i < NVAR ==> r[i] == After(s, u, t, i)
  {
    seq(NVAR, i requires 0 <= i < NVAR => After(s, u, t, i))
  }

  function Held(u: Command): Replies { (k: nat) => u }

  // ---- One Runge-Kutta step, coordinate by coordinate ----

  /** The stage states `y` and slopes `k` of a step under constant command. */
  ghost predicate Stages(s: Vec, h: real, u: Command, y: seq<Vec>, k: seq<Vec>) {
    && |s| == NVAR && |y| == |k| == 4 && (forall j :: 0 <= j < 4 ==> |y[j]| == |k[j]| == NVAR)
    && y[0] == s && k[0] == Derivs(s, u)
    && y[1] == AddScaled(s, h * 0.5, k[0]) && k[1] == Derivs(y[1], u)
    && y[2] == AddScaled(s, h * 0.5, k[1]) && k[2] == Derivs(y[2], u)
    && y[3] == AddScaled(s, h, k[2]) && k[3] == Derivs(y[3], u)
  }

  function StageStates(s: Vec, h: real, u: Replies): seq<Vec>
    requires |s| == NVAR
  {
    [Stage(s, h, u, 0), Stage(s, h, u, 1), Stage(s, h, u, 2), Stage(s, h, u, 3)]
  }

  function StageSlopes(s: Vec, h: real, u: Replies): seq<Vec>
    requires |s| == NVAR
  {
    [Slope(s, h, u, 0), Slope(s, h, u, 1), Slope(s, h, u, 2), Slope(s, h, u, 3)]
  }

  lemma {:induction false} HeldStages(s: Vec, h: real, u: Command)
    requires |s| == NVAR
    ensures Stages(s, h, u, StageStates(s, h, Held(u)), StageSlopes(s, h, Held(u)))
  {
  }

  /** The four slopes of coordinate `i`. */
  ghost predicate SlopesAre(k: seq<Vec>, i: nat, k1: real, k2: real, k3: real, k4: real) {
    && |k| == 4 && (forall j :: 0 <= j < 4 ==> |k[j]| > i)
    && k[0][i] == k1 && k[1][i] == k2 && k[2][i] == k3 && k[3][i] == k4
  }

  lemma {:induction false} OddSlopes(s: Vec, h: real, u: Command, y: seq<Vec>, k: seq<Vec>)
    requires Stages(s, h, u, y, k)
    ensures var (a, b, c, e) := (OverM(u.u1) - 9.81, OverIx(u.u2), OverIy(u.u3), OverIz(u.u4));
            && SlopesAre(k, 5, a, a, a, a) && SlopesAre(k, 7, b, b, b, b)
            && SlopesAre(k, 9, c, c, c, c) && SlopesAre(k, 11, e, e, e, e)
  {
  }

  /** A coordinate whose rate is the next one, moving with constant acceleration. */
  ghost predicate LineSlopes(s: Vec, h: real, k: seq<Vec>, i: nat, acc: real)
    requires |s| > i + 1
  {
    SlopesAre(k, i, s[i + 1], Grown(s[i + 1], acc, h * 0.5), Grown(s[i + 1], acc, h * 0.5), Grown(s[i + 1], acc, h))
  }

  lemma {:induction false} ScaledIs(s: Vec, a: real, d: Vec, i: nat, v: real)
    requires |s| == |d| == NVAR && i < NVAR && d[i] == v
    ensures AddScaled(s, a, d)[i] == Grown(s[i], v, a)
  {
  }

  /** The rate at stage `j` is coordinate `i + 1` of its state, which grows steadily. */
  lemma {:induction false} SteadyLine(s: Vec, h: real, u: Command, y: seq<Vec>, k: seq<Vec>, i: nat, acc: real)
    requires Stages(s, h, u, y, k) && (i == 4 || i == 6 || i == 8 || i == 10) && SlopesAre(k, i + 1, acc, acc, acc, acc)
    ensures LineSlopes(s, h, k, i, acc)
  {
    ScaledIs(s, h * 0.5, k[0], i + 1, acc);
    ScaledIs(s, h * 0.5, k[1], i + 1, acc);
    ScaledIs(s, h, k[2], i + 1, acc);
  }

  lemma {:induction false} LiftAndYawSlopes(s: Vec, h: real, u: Command, y: seq<Vec>, k: seq<Vec>)
    requires Stages(s, h, u, y, k)
    ensures LineSlopes(s, h, k, 4, OverM(u.u1) - 9.81) && LineSlopes(s, h, k, 10, OverIz(u.u4))
  {
    OddSlopes(s, h, u, y, k);
    SteadyLine(s, h, u, y, k, 4, OverM(u.u1) - 9.81);
    SteadyLine(s, h, u, y, k, 10, OverIz(u.u4));
  }

  lemma {:induction false} ThetaSlopes(s: Vec, h: real, u: Command, y: seq<Vec>, k: seq<Vec>)
    requires Stages(s, h, u, y, k)
    ensures LineSlopes(s, h, k, 6, OverIx(u.u2))
  {
    OddSlopes(s, h, u, y, k);
    SteadyLine(s, h, u, y, k, 6, OverIx(u.u2));
  }

  lemma {:induction false} PhiSlopes(s: Vec, h: real, u: Command, y: seq<Vec>, k: seq<Vec>)
    requires Stages(s, h, u, y, k)
    ensures LineSlopes(s, h, k, 8, OverIy(u.u3))
  {
    OddSlopes(s, h, u, y, k);
    SteadyLine(s, h, u, y, k, 8, OverIy(u.u3));
  }

  /** A tilt at the four stages. */
  ghost predicate Tilts(h: real, tilt: real, tiltRate: real, tiltAcc: real, q: (real, real, real, real)) {
    && q.0 == tilt && q.1 == Grown(tilt, tiltRate, h * 0.5)
    && q.2 == Grown(tilt, Grown(tiltRate, tiltAcc, h * 0.5), h * 0.5)
    && q.3 == Grown(tilt, Grown(tiltRate, tiltAcc, h * 0.5), h)
  }

  function Column(y: seq<Vec>, i: nat): (real, real, real, real)
    requires |y| == 4 && forall j :: 0 <= j < 4 ==> |y[j]| > i
  {
    (y[0][i], y[1][i], y[2][i], y[3][i])
  }

  function Opposite(q: (real, real, real, real)): (real, real, real, real) { (-q.0, -q.1, -q.2, -q.3) }

  /** Tilt number `i` is 6 or 8. */
  lemma {:induction false} TiltColumn(s: Vec, h: real, u: Command, y: seq<Vec>, k: seq<Vec>, i: nat, acc: real)
    requires Stages(s, h, u, y, k) && i < NVAR - 1 && LineSlopes(s, h, k, i, acc)
    ensures Tilts(h, s[i], s[i + 1], acc, Column(y, i))
  {
    ScaledIs(s, h * 0.5, k[0], i, s[i + 1]);
    ScaledIs(s, h * 0.5, k[1], i, Grown(s[i + 1], acc, h * 0.5));
    ScaledIs(s, h, k[2], i, Grown(s[i + 1], acc, h * 0.5));
  }

  lemma {:induction false} OppositeGrown(rate: real, acc: real, t: real)
    ensures Grown(-rate, -acc, t) == -Grown(rate, acc, t)
  {
  }

  lemma {:induction false} OppositeTilts(h: real, tilt: real, tiltRate: real, tiltAcc: real,
                                         q: (real, real, real, real))
    requires Tilts(h, tilt, tiltRate, tiltAcc, q)
    ensures Tilts(h, -tilt, -tiltRate, -tiltAcc, Opposite(q))
  {
    var g := Grown(tiltRate, tiltAcc, h * 0.5);
    OppositeGrown(tiltRate, tiltAcc, h * 0.5);
    OppositeGrown(tilt, tiltRate, h * 0.5);
    OppositeGrown(tilt, g, h * 0.5);
    OppositeGrown(tilt, g, h);
  }

  /** Slopes of a velocity: thrust times the tilt at each stage. */
  ghost predicate TiltedSlopes(k: seq<Vec>, i: nat, thrust: real, q: (real, real, real, real)) {
    SlopesAre(k, i, thrust * q.0, thrust * q.1, thrust * q.2, thrust * q.3)
  }

  /** The horizontal accelerations at one stage. */
  ghost predicate Tilted(u: Command, x: Vec, d: Vec) {
    |x| == |d| == NVAR && d[1] == OverM(u.u1) * x[6] && d[3] == OverM(u.u1) * -x[8]
  }

  lemma {:induction false} RatesOf(x: Vec, u: Command)
    requires |x| == NVAR
    ensures Tilted(u, x, Derivs(x, u))
  {
    ThrustTimes(x[6], u.u1);
    ThrustTimes(x[8], u.u1);
  }

  lemma {:induction false} StagesTilted(s: Vec, h: real, u: Command, y: seq<Vec>, k: seq<Vec>)
    requires Stages(s, h, u, y, k)
    ensures Tilted(u, y[0], k[0]) && Tilted(u, y[1], k[1]) && Tilted(u, y[2], k[2]) && Tilted(u, y[3], k[3])
  {
    RatesOf(y[0], u);
    RatesOf(y[1], u);
    RatesOf(y[2], u);
    RatesOf(y[3], u);
  }

  lemma {:induction false} RateSlopes(u: Command, y: seq<Vec>, k: seq<Vec>)
    requires |y| == |k| == 4
    requires Tilted(u, y[0], k[0]) && Tilted(u, y[1], k[1]) && Tilted(u, y[2], k[2]) && Tilted(u, y[3], k[3])
    ensures TiltedSlopes(k, 1, OverM(u.u1), Column(y, 6))
    ensures TiltedSlopes(k, 3, OverM(u.u1), Opposite(Column(y, 8)))
  {
  }

  /** A position's slopes are its velocity at each stage, which has gone by the velocity's slopes. */
  lemma {:induction false} PositionSlopes(s: Vec, h: real, u: Command, y: seq<Vec>, k: seq<Vec>, i: nat, r1: real,
                                          r2: real, r3: real, r4: real)
    requires Stages(s, h, u, y, k) && (i == 0 || i == 2) && SlopesAre(k, i + 1, r1, r2, r3, r4)
    ensures SlopesAre(k, i, s[i + 1], Grown(s[i + 1], r1, h * 0.5), Grown(s[i + 1], r2, h * 0.5),
                      Grown(s[i + 1], r3, h))
  {
    ScaledIs(s, h * 0.5, k[0], i + 1, r1);
    ScaledIs(s, h * 0.5, k[1], i + 1, r2);
    ScaledIs(s, h, k[2], i + 1, r3);
  }

  lemma {:induction false} ThrustTimes(tilt: real, u1: real)
    ensures OverM(tilt * u1) == OverM(u1) * tilt
    ensures OverM(-tilt * u1) == OverM(u1) * -tilt
  {
  }

  // ---- The weighted mean lands on the polynomial ----

  lemma {:induction false} ConstantCombines(pos: real, acc: real, h: real)
    ensures Combine(h, pos, acc, acc, acc, acc) == Grown(pos, acc, h)
  {
    assert h / 6.0 * (6.0 * acc) == h * acc;
  }

  lemma {:induction false} LineCombines(pos: real, rate: real, acc: real, h: real)
    ensures Combine(h, pos, rate, Grown(rate, acc, h * 0.5), Grown(rate, acc, h * 0.5), Grown(rate, acc, h))
            == LineAfter(pos, rate, acc, h)
  {
    assert rate + 2.0 * Grown(rate, acc, h * 0.5) + 2.0 * Grown(rate, acc, h * 0.5) + Grown(rate, acc, h)
           == 6.0 * rate + 3.0 * (h * acc);
    assert h / 6.0 * (6.0 * rate + 3.0 * (h * acc)) == h * rate + acc * (h * h) / 2.0;
  }

  /** The mean tilt of the four stages. */
  lemma {:induction false} MeanTilt(tilt: real, tiltRate: real, tiltAcc: real, h: real, q: (real, real, real, real))
    requires Tilts(h, tilt, tiltRate, tiltAcc, q)
    ensures h / 6.0 * (q.0 + 2.0 * q.1 + 2.0 * q.2 + q.3) == Lean(tilt, tiltRate, tiltAcc, h)
    ensures h * h / 6.0 * (q.0 + q.1 + q.2) == LeanTwice(tilt, tiltRate, tiltAcc, h)
  {
    assert q.0 + 2.0 * q.1 + 2.0 * q.2 + q.3 == 6.0 * tilt + 3.0 * (h * tiltRate) + h * h * tiltAcc;
    assert q.0 + q.1 + q.2 == 3.0 * tilt + h * tiltRate + h * h * tiltAcc / 4.0;
    MeanOfFour(tilt, tiltRate, tiltAcc, h);
    MeanOfThree(tilt, tiltRate, tiltAcc, h);
  }

  lemma {:induction false} MeanOfFour(tilt: real, tiltRate: real, tiltAcc: real, h: real)
    ensures h / 6.0 * (6.0 * tilt + 3.0 * (h * tiltRate) + h * h * tiltAcc) == Lean(tilt, tiltRate, tiltAcc, h)
  {
  }

  lemma {:induction false} MeanOfThree(tilt: real, tiltRate: real, tiltAcc: real, h: real)
    ensures h * h / 6.0 * (3.0 * tilt + h * tiltRate + h * h * tiltAcc / 4.0) == LeanTwice(tilt, tiltRate, tiltAcc, h)
  {
  }

  lemma {:induction false} RateMean(h: real, rate: real, thrust: real, q: (real, real, real, real), mean: real)
    requires h / 6.0 * (q.0 + 2.0 * q.1 + 2.0 * q.2 + q.3) == mean
    ensures Combine(h, rate, thrust * q.0, thrust * q.1, thrust * q.2, thrust * q.3) == rate + thrust * mean
  {
    assert thrust * mean == thrust * (h / 6.0 * (q.0 + 2.0 * q.1 + 2.0 * q.2 + q.3));
  }

  lemma {:induction false} RateCombines(rate: real, thrust: real, tilt: real, tiltRate: real, tiltAcc: real, h: real,
                                        q: (real, real, real, real))
    requires Tilts(h, tilt, tiltRate, tiltAcc, q)
    ensures Combine(h, rate, thrust * q.0, thrust * q.1, thrust * q.2, thrust * q.3)
            == AxisRateAfter(rate, thrust, tilt, tiltRate, tiltAcc, h)
  {
    MeanTilt(tilt, tiltRate, tiltAcc, h, q);
    RateMean(h, rate, thrust, q, Lean(tilt, tiltRate, tiltAcc, h));
  }

  lemma {:induction false} PositionMean(h: real, pos: real, rate: real, r1: real, r2: real, r3: real)
    ensures Combine(h, pos, rate, Grown(rate, r1, h * 0.5), Grown(rate, r2, h * 0.5), Grown(rate, r3, h))
            == pos + h * rate + h * h / 6.0 * (r1 + r2 + r3)
  {
    assert rate + 2.0 * Grown(rate, r1, h * 0.5) + 2.0 * Grown(rate, r2, h * 0.5) + Grown(rate, r3, h)
           == 6.0 * rate + h * (r1 + r2 + r3);
  }

  lemma {:induction false} ThrustSum(thrust: real, a: real, b: real, c: real, r1: real, r2: real, r3: real)
    requires r1 == thrust * a && r2 == thrust * b && r3 == thrust * c
    ensures r1 + r2 + r3 == thrust * (a + b + c)
  {
  }

  lemma {:induction false} ThrustMean(h: real, thrust: real, sum: real, mean: real, thrusts: real)
    requires h * h / 6.0 * sum == mean && thrusts == thrust * sum
    ensures h * h / 6.0 * thrusts == thrust * mean
  {
    assert thrust * mean == thrust * (h * h / 6.0 * sum);
  }

  lemma {:induction false} PositionIs(pos: real, rate: real, thrust: real, tilt: real, tiltRate: real, tiltAcc: real,
                                      h: real, lean: real)
    requires lean == thrust * LeanTwice(tilt, tiltRate, tiltAcc, h)
    ensures AxisAfter(pos, rate, thrust, tilt, tiltRate, tiltAcc, h) == pos + h * rate + lean
  {
  }

  lemma {:induction false} PositionCombines(pos: real, rate: real, thrust: real, tilt: real, tiltRate: real,
                                            tiltAcc: real, h: real,
                                            q: (real, real, real, real), r1: real, r2: real, r3: real)
    requires Tilts(h, tilt, tiltRate, tiltAcc, q) && r1 + r2 + r3 == thrust * (q.0 + q.1 + q.2)
    ensures Combine(h, pos, rate, Grown(rate, r1, h * 0.5), Grown(rate, r2, h * 0.5), Grown(rate, r3, h))
            == AxisAfter(pos, rate, thrust, tilt, tiltRate, tiltAcc, h)
  {
    var lean := h * h / 6.0 * (r1 + r2 + r3);
    MeanTilt(tilt, tiltRate, tiltAcc, h, q);
    ThrustMean(h, thrust, q.0 + q.1 + q.2, LeanTwice(tilt, tiltRate, tiltAcc, h), r1 + r2 + r3);
    PositionIs(pos, rate, thrust, tilt, tiltRate, tiltAcc, h, lean);
    PositionMean(h, pos, rate, r1, r2, r3);
  }

  /** The weighted mean of the slopes `k` takes coordinate `i` onto the solution. */
  ghost predicate Lands(s: Vec, h: real, u: Command, k: seq<Vec>, i: nat) {
    && |s| == NVAR && i < NVAR && |k| == 4 && (forall j :: 0 <= j < 4 ==> |k[j]| == NVAR)
    && Combine(h, s[i], k[0][i], k[1][i], k[2][i], k[3][i]) == After(s, u, h, i)
  }

  lemma {:induction false} LineLands(s: Vec, h: real, u: Command, k: seq<Vec>, i: nat, acc: real)
    requires |s| == NVAR && i < NVAR - 1 && |k| == 4 && (forall j :: 0 <= j < 4 ==> |k[j]| == NVAR)
    requires LineSlopes(s, h, k, i, acc) && After(s, u, h, i) == LineAfter(s[i], s[i + 1], acc, h)
    ensures Lands(s, h, u, k, i)
  {
    LineCombines(s[i], s[i + 1], acc, h);
  }

  lemma {:induction false} ConstantLands(s: Vec, h: real, u: Command, k: seq<Vec>, i: nat, acc: real)
    requires |s| == NVAR && i < NVAR && |k| == 4 && (forall j :: 0 <= j < 4 ==> |k[j]| == NVAR)
    requires SlopesAre(k, i, acc, acc, acc, acc) && After(s, u, h, i) == Grown(s[i], acc, h)
    ensures Lands(s, h, u, k, i)
  {
    ConstantCombines(s[i], acc, h);
  }

  lemma {:induction false} RateLands(s: Vec, h: real, u: Command, k: seq<Vec>, i: nat, thrust: real, tilt: real,
                                     tiltRate: real, tiltAcc: real,
                                     q: (real, real, real, real))
    requires |s| == NVAR && i < NVAR && |k| == 4 && (forall j :: 0 <= j < 4 ==> |k[j]| == NVAR)
    requires TiltedSlopes(k, i, thrust, q) && Tilts(h, tilt, tiltRate, tiltAcc, q)
    requires After(s, u, h, i) == AxisRateAfter(s[i], thrust, tilt, tiltRate, tiltAcc, h)
    ensures Lands(s, h, u, k, i)
  {
    RateCombines(s[i], thrust, tilt, tiltRate, tiltAcc, h, q);
  }

  lemma {:induction false} PositionLands(s: Vec, h: real, u: Command, k: seq<Vec>, i: nat, thrust: real, tilt: real,
                                         tiltRate: real, tiltAcc: real,
                                         q: (real, real, real, real), r1: real, r2: real, r3: real)
    requires |s| == NVAR && i < NVAR - 1 && |k| == 4 && (forall j :: 0 <= j < 4 ==> |k[j]| == NVAR)
    requires SlopesAre(k, i, s[i + 1], Grown(s[i + 1], r1, h * 0.5), Grown(s[i + 1], r2, h * 0.5),
                       Grown(s[i + 1], r3, h))
    requires Tilts(h, tilt, tiltRate, tiltAcc, q) && r1 == thrust * q.0 && r2 == thrust * q.1 && r3 == thrust * q.2
    requires After(s, u, h, i) == AxisAfter(s[i], s[i + 1], thrust, tilt, tiltRate, tiltAcc, h)
    ensures Lands(s, h, u, k, i)
  {
    ThrustSum(thrust, q.0, q.1, q.2, r1, r2, r3);
    PositionCombines(s[i], s[i + 1], thrust, tilt, tiltRate, tiltAcc, h, q, r1, r2, r3);
  }

  /** A horizontal axis: its velocity first, then its position. */
  lemma {:induction false} AxisLands(s: Vec, h: real, u: Command, y: seq<Vec>, k: seq<Vec>, i: nat, thrust: real,
                                     tilt: real, tiltRate: real, tiltAcc: real,
                                     q: (real, real, real, real))
    requires Stages(s, h, u, y, k) && (i == 0 || i == 2)
    requires TiltedSlopes(k, i + 1, thrust, q) && Tilts(h, tilt, tiltRate, tiltAcc, q)
    requires After(s, u, h, i) == AxisAfter(s[i], s[i + 1], thrust, tilt, tiltRate, tiltAcc, h)
    requires After(s, u, h, i + 1) == AxisRateAfter(s[i + 1], thrust, tilt, tiltRate, tiltAcc, h)
    ensures Lands(s, h, u, k, i) && Lands(s, h, u, k, i + 1)
  {
    var (r1, r2, r3, r4) := (thrust * q.0, thrust * q.1, thrust * q.2, thrust * q.3);
    RateLands(s, h, u, k, i + 1, thrust, tilt, tiltRate, tiltAcc, q);
    PositionSlopes(s, h, u, y, k, i, r1, r2, r3, r4);
    PositionLands(s, h, u, k, i, thrust, tilt, tiltRate, tiltAcc, q, r1, r2, r3);
  }

  lemma {:induction false} XLands(s: Vec, h: real, u: Command, y: seq<Vec>, k: seq<Vec>)
    requires Stages(s, h, u, y, k)
    ensures Lands(s, h, u, k, 0) && Lands(s, h, u, k, 1)
  {
    ThetaSlopes(s, h, u, y, k);
    TiltColumn(s, h, u, y, k, 6, OverIx(u.u2));
    StagesTilted(s, h, u, y, k);
    RateSlopes(u, y, k);
    AxisLands(s, h, u, y, k, 0, OverM(u.u1), s[6], s[7], OverIx(u.u2), Column(y, 6));
  }

  lemma {:induction false} YLands(s: Vec, h: real, u: Command, y: seq<Vec>, k: seq<Vec>)
    requires Stages(s, h, u, y, k)
    ensures Lands(s, h, u, k, 2) && Lands(s, h, u, k, 3)
  {
    var c := OverIy(u.u3);
    PhiSlopes(s, h, u, y, k);
    TiltColumn(s, h, u, y, k, 8, c);
    OppositeTilts(h, s[8], s[9], c, Column(y, 8));
    StagesTilted(s, h, u, y, k);
    RateSlopes(u, y, k);
    AxisLands(s, h, u, y, k, 2, OverM(u.u1), -s[8], -s[9], -c, Opposite(Column(y, 8)));
  }

  lemma {:induction false} LinesLand(s: Vec, h: real, u: Command, y: seq<Vec>, k: seq<Vec>)
    requires Stages(s, h, u, y, k)
    ensures Lands(s, h, u, k, 4) && Lands(s, h, u, k, 6) && Lands(s, h, u, k, 8) && Lands(s, h, u, k, 10)
  {
    LiftAndYawSlopes(s, h, u, y, k);
    ThetaSlopes(s, h, u, y, k);
    PhiSlopes(s, h, u, y, k);
    LineLands(s, h, u, k, 4, OverM(u.u1) - 9.81);
    LineLands(s, h, u, k, 6, OverIx(u.u2));
    LineLands(s, h, u, k, 8, OverIy(u.u3));
    LineLands(s, h, u, k, 10, OverIz(u.u4));
  }

  lemma {:induction false} ConstantsLand(s: Vec, h: real, u: Command, y: seq<Vec>, k: seq<Vec>)
    requires Stages(s, h, u, y, k)
    ensures Lands(s, h, u, k, 5) && Lands(s, h, u, k, 7) && Lands(s, h, u, k, 9) && Lands(s, h, u, k, 11)
  {
    OddSlopes(s, h, u, y, k);
    ConstantLands(s, h, u, k, 5, OverM(u.u1) - 9.81);
    ConstantLands(s, h, u, k, 7, OverIx(u.u2));
    ConstantLands(s, h, u, k, 9, OverIy(u.u3));
    ConstantLands(s, h, u, k, 11, OverIz(u.u4));
  }

  lemma {:induction false} AllLand(s: Vec, h: real, u: Command, y: seq<Vec>, k: seq<Vec>, i: nat)
    requires Stages(s, h, u, y, k) && i < NVAR
    ensures Lands(s, h, u, k, i)
  {
    XLands(s, h, u, y, k);
    YLands(s, h, u, y, k);
    LinesLand(s, h, u, y, k);
    ConstantsLand(s, h, u, y, k);
  }

  // ---- Main results ----

  /** One Runge-Kutta step under a command that its four stages share is the exact solution. */
  lemma {:induction false} StepIsExact(s: Vec, h: real, u: Command)
    requires |s| == NVAR
    ensures Rk4(s, h, Held(u)) == Flown(s, u, h)
  {
    HeldStages(s, h, u);
    forall i | 0 <= i < NVAR
      ensures Rk4(s, h, Held(u))[i] == Flown(s, u, h)[i]
    {
      AllLand(s, h, u, StageStates(s, h, Held(u)), StageSlopes(s, h, Held(u)), i);
    }
  }

  // ---- The solution is a flow of the flight equations ----

  lemma {:induction false} LeanJoins(tilt: real, tiltRate: real, acc: real, a: real, b: real)
    ensures Lean(tilt, tiltRate, acc, a) + Lean(LineAfter(tilt, tiltRate, acc, a), Grown(tiltRate, acc, a), acc, b)
            == Lean(tilt, tiltRate, acc, a + b)
  {
  }

  lemma {:induction false} LeanTwiceJoins(tilt: real, tiltRate: real, acc: real, a: real, b: real)
    ensures LeanTwice(tilt, tiltRate, acc, a) + b * Lean(tilt, tiltRate, acc, a)
            + LeanTwice(LineAfter(tilt, tiltRate, acc, a), Grown(tiltRate, acc, a), acc, b)
            == LeanTwice(tilt, tiltRate, acc, a + b)
  {
  }

  lemma {:induction false} ThrustJoins(x: real, y: real, pos: real, rate: real, thrust: real, a: real, b: real, p: real,
                                       q: real, r: real, w: real)
    requires x == pos + a * rate + thrust * p && y == rate + thrust * q && p + b * q + r == w
    ensures x + b * y + thrust * r == pos + (a + b) * rate + thrust * w
  {
    assert b * y == b * rate + thrust * (b * q);
    assert thrust * w == thrust * p + thrust * (b * q) + thrust * r;
  }

  lemma {:induction false} AxisFlows(pos: real, rate: real, thrust: real, tilt: real, tiltRate: real, acc: real,
                                     a: real, b: real)
    ensures AxisAfter(AxisAfter(pos, rate, thrust, tilt, tiltRate, acc, a),
                      AxisRateAfter(rate, thrust, tilt, tiltRate, acc, a),
                      thrust, LineAfter(tilt, tiltRate, acc, a), Grown(tiltRate, acc, a), acc, b)
            == AxisAfter(pos, rate, thrust, tilt, tiltRate, acc, a + b)
  {
    LeanTwiceJoins(tilt, tiltRate, acc, a, b);
    ThrustJoins(AxisAfter(pos, rate, thrust, tilt, tiltRate, acc, a),
                AxisRateAfter(rate, thrust, tilt, tiltRate, acc, a),
                pos, rate, thrust, a, b, LeanTwice(tilt, tiltRate, acc, a), Lean(tilt, tiltRate, acc, a),
                LeanTwice(LineAfter(tilt, tiltRate, acc, a), Grown(tiltRate, acc, a), acc, b),
                LeanTwice(tilt, tiltRate, acc, a + b));
  }

  lemma {:induction false} RateJoins(rate: real, thrust: real, q: real, r: real, w: real)
    requires q + r == w
    ensures rate + thrust * q + thrust * r == rate + thrust * w
  {
  }

  lemma {:induction false} AxisRateFlows(rate: real, thrust: real, tilt: real, tiltRate: real, acc: real, a: real,
                                         b: real)
    ensures AxisRateAfter(AxisRateAfter(rate, thrust, tilt, tiltRate, acc, a),
                          thrust, LineAfter(tilt, tiltRate, acc, a), Grown(tiltRate, acc, a), acc, b)
            == AxisRateAfter(rate, thrust, tilt, tiltRate, acc, a + b)
  {
    LeanJoins(tilt, tiltRate, acc, a, b);
    RateJoins(rate, thrust, Lean(tilt, tiltRate, acc, a),
              Lean(LineAfter(tilt, tiltRate, acc, a), Grown(tiltRate, acc, a), acc, b),
              Lean(tilt, tiltRate, acc, a + b));
  }

  lemma {:induction false} LineFlows(pos: real, rate: real, acc: real, a: real, b: real)
    ensures LineAfter(LineAfter(pos, rate, acc, a), Grown(rate, acc, a), acc, b) == LineAfter(pos, rate, acc, a + b)
    ensures Grown(Grown(rate, acc, a), acc, b) == Grown(rate, acc, a + b)
  {
  }

  lemma {:induction false} LineNegates(pos: real, rate: real, acc: real, t: real)
    ensures LineAfter(-pos, -rate, -acc, t) == -LineAfter(pos, rate, acc, t)
    ensures Grown(-rate, -acc, t) == -Grown(rate, acc, t)
  {
  }

  /** A horizontal axis of the state `m` reached from `s`. */
  lemma {:induction false} AxisJoins(axis: nat, s: Vec, m: Vec, u: Command, a: real, b: real,
                                     tilt: (real, real), later: (real, real), acc: real)
    requires |s| == |m| == NVAR && (axis == 0 || axis == 2)
    requires var k := OverM(u.u1);
             && m[axis] == AxisAfter(s[axis], s[axis + 1], k, tilt.0, tilt.1, acc, a)
             && m[axis + 1] == AxisRateAfter(s[axis + 1], k, tilt.0, tilt.1, acc, a)
             && After(m, u, b, axis) == AxisAfter(m[axis], m[axis + 1], k, later.0, later.1, acc, b)
             && After(m, u, b, axis + 1) == AxisRateAfter(m[axis + 1], k, later.0, later.1, acc, b)
             && After(s, u, a + b, axis) == AxisAfter(s[axis], s[axis + 1], k, tilt.0, tilt.1, acc, a + b)
             && After(s, u, a + b, axis + 1) == AxisRateAfter(s[axis + 1], k, tilt.0, tilt.1, acc, a + b)
    requires later.0 == LineAfter(tilt.0, tilt.1, acc, a) && later.1 == Grown(tilt.1, acc, a)
    ensures After(m, u, b, axis) == After(s, u, a + b, axis)
    ensures After(m, u, b, axis + 1) == After(s, u, a + b, axis + 1)
  {
    AxisFlows(s[axis], s[axis + 1], OverM(u.u1), tilt.0, tilt.1, acc, a, b);
    AxisRateFlows(s[axis + 1], OverM(u.u1), tilt.0, tilt.1, acc, a, b);
  }

  lemma {:induction false} XFlows(s: Vec, u: Command, a: real, b: real)
    requires |s| == NVAR
    ensures After(Flown(s, u, a), u, b, 0) == After(s, u, a + b, 0)
    ensures After(Flown(s, u, a), u, b, 1) == After(s, u, a + b, 1)
  {
    var m := Flown(s, u, a);
    AxisJoins(0, s, m, u, a, b, (s[6], s[7]), (m[6], m[7]), OverIx(u.u2));
  }

  lemma {:induction false} YFlows(s: Vec, u: Command, a: real, b: real)
    requires |s| == NVAR
    ensures After(Flown(s, u, a), u, b, 2) == After(s, u, a + b, 2)
    ensures After(Flown(s, u, a), u, b, 3) == After(s, u, a + b, 3)
  {
    var m, c := Flown(s, u, a), OverIy(u.u3);
    LineNegates(s[8], s[9], c, a);
    AxisJoins(2, s, m, u, a, b, (-s[8], -s[9]), (-m[8], -m[9]), -c);
  }

  /** Two neighbouring coordinates, the second growing steadily and the first following it. */
  lemma {:induction false} LineJoins(i: nat, s: Vec, m: Vec, u: Command, a: real, b: real, acc: real)
    requires |s| == |m| == NVAR && i < NVAR - 1
    requires m[i] == LineAfter(s[i], s[i + 1], acc, a) && m[i + 1] == Grown(s[i + 1], acc, a)
    requires After(m, u, b, i) == LineAfter(m[i], m[i + 1], acc, b) && After(m, u, b, i + 1) == Grown(m[i + 1], acc, b)
    requires After(s, u, a + b, i) == LineAfter(s[i], s[i + 1], acc, a + b)
             && After(s, u, a + b, i + 1) == Grown(s[i + 1], acc, a + b)
    ensures After(m, u, b, i) == After(s, u, a + b, i) && After(m, u, b, i + 1) == After(s, u, a + b, i + 1)
  {
    LineFlows(s[i], s[i + 1], acc, a, b);
  }

  lemma {:induction false} LinesFlow(s: Vec, u: Command, a: real, b: real, i: nat)
    requires |s| == NVAR && 4 <= i < NVAR
    ensures After(Flown(s, u, a), u, b, i) == After(s, u, a + b, i)
  {
    var m := Flown(s, u, a);
    if i < 6 {
      LineJoins(4, s, m, u, a, b, OverM(u.u1) - 9.81);
    } else if i < 8 {
      LineJoins(6, s, m, u, a, b, OverIx(u.u2));
    } else if i < 10 {
      LineJoins(8, s, m, u, a, b, OverIy(u.u3));
    } else {
      LineJoins(10, s, m, u, a, b, OverIz(u.u4));
    }
  }

  /** Flying for `a` and then for `b` is flying for their sum. */
  lemma {:induction false} FlownJoins(s: Vec, u: Command, a: real, b: real)
    requires |s| == NVAR
    ensures Flown(Flown(s, u, a), u, b) == Flown(s, u, a + b)
  {
    XFlows(s, u, a, b);
    YFlows(s, u, a, b);
    forall i | 0 <= i < NVAR
      ensures Flown(Flown(s, u, a), u, b)[i] == Flown(s, u, a + b)[i]
    {
      if i >= 4 { LinesFlow(s, u, a, b, i); }
    }
  }

  /** What `Lean` and `LeanTwice` have beyond first order, divided by t*t. */
  function LeanRest(tiltRate: real, tiltAcc: real, t: real): real { tiltRate / 2.0 + tiltAcc * t / 6.0 }

  function LeanTwiceRest(tilt: real, tiltRate: real, tiltAcc: real, t: real): real {
    tilt / 2.0 + tiltRate * t / 6.0 + tiltAcc * (t * t) / 24.0
  }

  /** What component `i` of the solution has beyond first order after time `d`, divided by d*d. */
  function Bend(s: Vec, u: Command, d: real, i: nat): real
    requires |s| == NVAR && i < NVAR
  {
    var (a, b, c) := (OverM(u.u1), OverIx(u.u2), OverIy(u.u3));
    if i == 0 then a * LeanTwiceRest(s[6], s[7], b, d)
    else if i == 1 then a * LeanRest(s[7], b, d)
    else if i == 2 then a * LeanTwiceRest(-s[8], -s[9], -c, d)
    else if i == 3 then a * LeanRest(-s[9], -c, d)
    else if i % 2 == 0 then Rate(s, u, i + 1) / 2.0
    else 0.0
  }

  lemma {:induction false} LeanExpands(tilt: real, tiltRate: real, acc: real, d: real)
    ensures LeanTwice(tilt, tiltRate, acc, d) == d * d * LeanTwiceRest(tilt, tiltRate, acc, d)
    ensures Lean(tilt, tiltRate, acc, d) == d * tilt + d * d * LeanRest(tiltRate, acc, d)
  {
  }

  lemma {:induction false} Distributes(thrust: real, lean: real, d: real, tilt: real, rest: real)
    requires lean == d * tilt + d * d * rest
    ensures thrust * lean == d * (thrust * tilt) + d * d * (thrust * rest)
  {
    assert thrust * lean == thrust * (d * tilt + d * d * rest);
  }

  lemma {:induction false} DistributesTwice(thrust: real, lean: real, d: real, rest: real)
    requires lean == d * d * rest
    ensures thrust * lean == d * d * (thrust * rest)
  {
    assert thrust * lean == thrust * (d * d * rest);
  }

  lemma {:induction false} AxisBends(pos: real, rate: real, thrust: real, tilt: real, tiltRate: real, acc: real,
                                     d: real)
    ensures AxisAfter(pos, rate, thrust, tilt, tiltRate, acc, d)
            == pos + d * rate + d * d * (thrust * LeanTwiceRest(tilt, tiltRate, acc, d))
  {
    LeanExpands(tilt, tiltRate, acc, d);
    DistributesTwice(thrust, LeanTwice(tilt, tiltRate, acc, d), d, LeanTwiceRest(tilt, tiltRate, acc, d));
  }

  lemma {:induction false} AxisRateBends(rate: real, thrust: real, tilt: real, tiltRate: real, acc: real, d: real)
    ensures AxisRateAfter(rate, thrust, tilt, tiltRate, acc, d)
            == rate + d * (thrust * tilt) + d * d * (thrust * LeanRest(tiltRate, acc, d))
  {
    LeanExpands(tilt, tiltRate, acc, d);
    Distributes(thrust, Lean(tilt, tiltRate, acc, d), d, tilt, LeanRest(tiltRate, acc, d));
  }

  /** After a further time `d`, component `i` has changed by d times its rate, up to d*d times an
      explicit polynomial. */
  ghost predicate Bends(s: Vec, u: Command, d: real, i: nat)
    requires |s| == NVAR && i < NVAR
  {
    Flown(s, u, d)[i] == Expanded(s[i], Derivs(s, u)[i], Bend(s, u, d, i), d)
  }

  function Expanded(x: real, rate: real, bend: real, d: real): real { x + d * rate + d * d * bend }

  lemma {:induction false} BendsFrom(s: Vec, u: Command, d: real, i: nat, rate: real)
    requires |s| == NVAR && i < NVAR && Derivs(s, u)[i] == rate
    requires Flown(s, u, d)[i] == Expanded(s[i], rate, Bend(s, u, d, i), d)
    ensures Bends(s, u, d, i)
  {
  }

  lemma {:induction false} XBends(s: Vec, u: Command, d: real)
    requires |s| == NVAR
    ensures Bends(s, u, d, 0) && Bends(s, u, d, 1)
  {
    AxisBends(s[0], s[1], OverM(u.u1), s[6], s[7], OverIx(u.u2), d);
    AxisRateBends(s[1], OverM(u.u1), s[6], s[7], OverIx(u.u2), d);
    RatesOf(s, u);
    BendsFrom(s, u, d, 0, s[1]);
    BendsFrom(s, u, d, 1, OverM(u.u1) * s[6]);
  }

  lemma {:induction false} YBends(s: Vec, u: Command, d: real)
    requires |s| == NVAR
    ensures Bends(s, u, d, 2) && Bends(s, u, d, 3)
  {
    AxisBends(s[2], s[3], OverM(u.u1), -s[8], -s[9], -OverIy(u.u3), d);
    AxisRateBends(s[3], OverM(u.u1), -s[8], -s[9], -OverIy(u.u3), d);
    RatesOf(s, u);
    BendsFrom(s, u, d, 2, s[3]);
    BendsFrom(s, u, d, 3, OverM(u.u1) * -s[8]);
  }

  lemma {:induction false} LineBends(pos: real, rate: real, acc: real, d: real)
    ensures LineAfter(pos, rate, acc, d) == Expanded(pos, rate, acc / 2.0, d)
    ensures Grown(rate, acc, d) == Expanded(rate, acc, 0.0, d)
  {
  }

  /** Coordinate `i` follows coordinate `i + 1`, which grows steadily. */
  lemma {:induction false} LinePairBends(s: Vec, u: Command, d: real, i: nat, acc: real)
    requires |s| == NVAR && 4 <= i < NVAR - 1 && i % 2 == 0 && Derivs(s, u)[i + 1] == acc == Rate(s, u, i + 1)
    requires Flown(s, u, d)[i] == LineAfter(s[i], s[i + 1], acc, d) && Flown(s, u, d)[i + 1] == Grown(s[i + 1], acc, d)
    ensures Bends(s, u, d, i) && Bends(s, u, d, i + 1)
  {
    LineBends(s[i], s[i + 1], acc, d);
    BendsFrom(s, u, d, i, s[i + 1]);
    BendsFrom(s, u, d, i + 1, acc);
  }

  lemma {:induction false} LinesBend(s: Vec, u: Command, d: real)
    requires |s| == NVAR
    ensures Bends(s, u, d, 4) && Bends(s, u, d, 5) && Bends(s, u, d, 6) && Bends(s, u, d, 7)
  {
    LinePairBends(s, u, d, 4, OverM(u.u1) - 9.81);
    LinePairBends(s, u, d, 6, OverIx(u.u2));
  }

  lemma {:induction false} MoreLinesBend(s: Vec, u: Command, d: real)
    requires |s| == NVAR
    ensures Bends(s, u, d, 8) && Bends(s, u, d, 9) && Bends(s, u, d, 10) && Bends(s, u, d, 11)
  {
    LinePairBends(s, u, d, 8, OverIy(u.u3));
    LinePairBends(s, u, d, 10, OverIz(u.u4));
  }

  lemma {:induction false} AllBend(s: Vec, u: Command, d: real, i: nat)
    requires |s| == NVAR && i < NVAR
    ensures Bends(s, u, d, i)
  {
    XBends(s, u, d);
    YBends(s, u, d);
    LinesBend(s, u, d);
    MoreLinesBend(s, u, d);
  }

  /** At every moment the solution moves as the flight equations say. */
  lemma {:induction false} FlownObeysDerivs(s: Vec, u: Command, t: real, d: real, i: nat)
    requires |s| == NVAR && i < NVAR
    ensures Flown(s, u, t + d) == Flown(Flown(s, u, t), u, d)
    ensures Bends(Flown(s, u, t), u, d, i)
  {
    FlownJoins(s, u, t, d);
    AllBend(Flown(s, u, t), u, d, i);
  }

  lemma {:induction false} FlownNowhere(s: Vec, u: Command)
    requires |s| == NVAR
    ensures Flown(s, u, 0.0) == s
  {
  }

  lemma {:induction false} OneMoreStep(s: Vec, h: real, u: Command, n: nat)
    requires |s| == NVAR
    ensures StateAfter(s, h, Held(u), n + 1) == Flown(StateAfter(s, h, Held(u), n), u, h)
  {
    var before, shifted := StateAfter(s, h, Held(u), n), Shift(Held(u), 4 * n);
    assert Agree(shifted, Held(u), 4);
    Rk4Local(before, h, shifted, Held(u));
    StepIsExact(before, h, u);
  }

  lemma {:induction false} OneMoreExact(s: Vec, h: real, u: Command, n: nat, t: real)
    requires |s| == NVAR && StateAfter(s, h, Held(u), n) == Flown(s, u, t)
    ensures StateAfter(s, h, Held(u), n + 1) == Flown(s, u, t + h)
  {
    OneMoreStep(s, h, u, n);
    FlownJoins(s, u, t, h);
  }

  function Elapsed(n: nat, h: real): real { n as real * h }

  lemma {:induction false} ElapsedNext(n: nat, h: real)
    ensures Elapsed(0, h) == 0.0 && Elapsed(n, h) + h == Elapsed(n + 1, h)
  {
  }

  ghost predicate Exact(s: Vec, h: real, u: Command, n: nat)
    requires |s| == NVAR
  {
    StateAfter(s, h, Held(u), n) == Flown(s, u, Elapsed(n, h))
  }

  lemma {:induction false} ExactAtStart(s: Vec, h: real, u: Command)
    requires |s| == NVAR
    ensures Exact(s, h, u, 0)
  {
    ElapsedNext(0, h);
    FlownNowhere(s, u);
  }

  lemma {:induction false} ExactNext(s: Vec, h: real, u: Command, n: nat)
    requires |s| == NVAR && Exact(s, h, u, n)
    ensures Exact(s, h, u, n + 1)
  {
    ElapsedNext(n, h);
    OneMoreExact(s, h, u, n, Elapsed(n, h));
  }

  lemma {:induction false} ExactAlways(s: Vec, h: real, u: Command, n: nat)
    requires |s| == NVAR
    ensures Exact(s, h, u, n)
    decreases n
  {
    if n == 0 {
      ExactAtStart(s, h, u);
    } else {
      ExactAlways(s, h, u, n - 1);
      ExactNext(s, h, u, n - 1);
    }
  }

  /** Any number of steps with the same command throughout is the exact flight over their total time. */
  lemma {:induction false} StepsAreExact(s: Vec, h: real, u: Command, n: nat)
    requires |s| == NVAR
    ensures StateAfter(s, h, Held(u), n) == Flown(s, u, Elapsed(n, h))
  {
    ExactAlways(s, h, u, n);
  }
}
