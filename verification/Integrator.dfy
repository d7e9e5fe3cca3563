/** The client's integrator as it is written (client/main.c:329-339, 380-448 and 481-488,
    client/calculate.c:42-98, client/calculate_structs.c:22-103): arrays overwritten stage by stage. */
module Integrator {
  import opened Handoff
  import opened Reference
  import opened Flight
  import opened RungeKutta

  /** Number of steps the simulated interval is divided into. */
  const NSTEP := 10

  /** A `vector(1, NVAR)`: indices 1 to NVAR are used, index 0 is spare. */
  predicate IsVector(a: array<real>) { a.Length == NVAR + 1 }

  lemma {:induction false} DerivsAre(x: Vec, u: Command, d: Vec)
    requires |x| == |d| == NVAR
    requires d[0] == x[1] && d[2] == x[3] && d[4] == x[5] && d[6] == x[7] && d[8] == x[9] && d[10] == x[11]
    requires d[1] == OverM(x[6] * u.u1) && d[3] == OverM(-x[8] * u.u1) && d[5] == OverM(u.u1) - 9.81
    requires d[7] == OverIx(u.u2) && d[9] == OverIy(u.u3) && d[11] == OverIz(u.u4)
    ensures d == Flight.Derivs(x, u)
  {
    forall i | 0 <= i < NVAR
      ensures d[i] == Rate(x, u, i)
    {
    }
  }

  lemma {:induction false} DerivsObeyNewton(x: Vec, u: Command, d: Vec)
    requires |x| == NVAR && d == Flight.Derivs(x, u)
    ensures 0.53 * d[5] == u.u1 - 0.53 * 9.81 && 0.53 * d[1] == x[6] * u.u1 && 0.53 * d[3] == -(x[8] * u.u1)
    ensures 0.00623 * d[7] == u.u2 && 0.00623 * d[9] == u.u3 && 0.012 * d[11] == u.u4
  {
    PlantObeysNewton(x, u);
  }

  lemma {:induction false} AddScaledIs(y: Vec, h: real, d: Vec, r: Vec)
    requires |y| == |d| == |r| == NVAR && forall k :: 0 <= k < NVAR ==> r[k] == y[k] + h * d[k]
    ensures r == AddScaled(y, h, d)
  {
  }

  /** `get_u` as the integrator sees it: call number k is answered by `replies(k)`; `asked` is the
      history of payloads. `ClosedLoop` says what the replies can be. */
  class Link {
    const replies: Replies
    var asked: seq<Vec>

    constructor (replies: Replies)
      ensures this.replies == replies && asked == []
    {
      this.replies := replies;
      asked := [];
    }

    method GetU(payload: array<real>) returns (u: array<real>)
      modifies this
      ensures asked == old(asked) + [payload[..]]
      ensures fresh(u) && u[..] == replies(|old(asked)|).Floats()
    {
      var c := replies(|asked|);
      asked := asked + [payload[..]];
      u := new real[][c.u1, c.u2, c.u3, c.u4];
    }
  }

  /** The globals U1 to U4 and the flight equations that read them. */
  class Plant {
    var u1: real
    var u2: real
    var u3: real
    var u4: real

    function Current(): Command
      reads this
    {
      Command(u1, u2, u3, u4)
    }

    constructor ()
      ensures Current() == Command(0.0, 0.0, 0.0, 0.0)
    {
      u1, u2, u3, u4 := 0.0, 0.0, 0.0, 0.0;
    }

    method SetU(u: array<real>)
      requires u.Length == 4
      modifies this
      ensures Current() == Command(u[0], u[1], u[2], u[3])
    {
      u1, u2, u3, u4 := u[0], u[1], u[2], u[3];
    }

    method Derivs(x: array<real>, dxdt: array<real>, u: array<real>)
      requires IsVector(x) && IsVector(dxdt) && u.Length == 4 && x != dxdt && u != dxdt
      modifies this, dxdt
      ensures Current() == Command(u[0], u[1], u[2], u[3])
      ensures dxdt[1..] == Flight.Derivs(x[1..], Current())
      ensures 0.53 * dxdt[6] == u[0] - 0.53 * 9.81 && 0.53 * dxdt[2] == x[7] * u[0] && 0.53 * dxdt[4] == -(x[9] * u[0])
      ensures 0.00623 * dxdt[8] == u[1] && 0.00623 * dxdt[10] == u[2] && 0.012 * dxdt[12] == u[3]
    {
      SetU(u);
      var (theta, phi) := (x[7], x[9]);
      dxdt[1] := x[2];
      dxdt[2] := OverM(theta * u1);
      dxdt[3] := x[4];
      dxdt[4] := OverM(-phi * u1);
      dxdt[5] := x[6];
      dxdt[6] := OverM(u1) - 9.81;
      dxdt[7] := x[8];
      dxdt[8] := OverIx(u2);
      dxdt[9] := x[10];
      dxdt[10] := OverIy(u3);
      dxdt[11] := x[12];
      dxdt[12] := OverIz(u4);
      DerivsAre(x[1..], Current(), dxdt[1..]);
      DerivsObeyNewton(x[1..], Current(), dxdt[1..]);
    }
  }

  class CalculatorData {
    var timeStart: real
    var timeEnd: real
    var step: real
    var currTime: real
    var x: real
    var dotX: real
    var y: real
    var dotY: real
    var z: real
    var dotZ: real
    var theta: real
    var dotTheta: real
    var phi: real
    var dotPhi: real
    var psy: real
    var dotPsy: real

    function State(): (s: Vec)
      reads this
      ensures |s| == NVAR
    {
      [x, dotX, y, dotY, z, dotZ, theta, dotTheta, phi, dotPhi, psy, dotPsy]
    }

    constructor (timeStart: real, timeEnd: real)
      ensures this.timeStart == currTime == timeStart && this.timeEnd == timeEnd
      ensures step == (timeEnd - timeStart) / NSTEP as real
      ensures forall i :: 0 <= i < NVAR ==> State()[i] == 0.0
    {
      this.timeStart, this.timeEnd, currTime := timeStart, timeEnd, timeStart;
      step := (timeEnd - timeStart) / NSTEP as real;
      x, dotX, y, dotY, z, dotZ := 0.0, 0.0, 0.0, 0.0, 0.0, 0.0;
      theta, dotTheta, phi, dotPhi, psy, dotPsy := 0.0, 0.0, 0.0, 0.0, 0.0, 0.0;
    }

    method GetPayload() returns (payload: array<real>)
      ensures fresh(payload) && payload[..] == State() + [currTime]
    {
      payload := new real[][x, dotX, y, dotY, z, dotZ, theta, dotTheta, phi, dotPhi, psy, dotPsy, currTime];
    }

    method GetState() returns (v: array<real>)
      ensures fresh(v) && IsVector(v) && v[1..] == State()
    {
      v := new real[][0.0, x, dotX, y, dotY, z, dotZ, theta, dotTheta, phi, dotPhi, psy, dotPsy];
    }

    method SetCalcData(v: array<real>)
      requires IsVector(v)
      modifies this`x, this`dotX, this`y, this`dotY, this`z, this`dotZ
      modifies this`theta, this`dotTheta, this`phi, this`dotPhi, this`psy, this`dotPsy
      ensures State() == v[1..]
    {
      ghost var s := v[1..];
      x := v[1];
      dotX := v[2];
      y := v[3];
      dotY := v[4];
      z := v[5];
      dotZ := v[6];
      theta := v[7];
      dotTheta := v[8];
      phi := v[9];
      dotPhi := v[10];
      psy := v[11];
      dotPsy := v[12];
      StateIs(s);
    }

    lemma {:induction false} StateIs(v: Vec)
      requires |v| == NVAR
      requires x == v[0] && dotX == v[1] && y == v[2] && dotY == v[3] && z == v[4] && dotZ == v[5]
      requires theta == v[6] && dotTheta == v[7] && phi == v[8] && dotPhi == v[9] && psy == v[10] && dotPsy == v[11]
      ensures State() == v
    {
    }
  }

  method NormalizeVector(v: array<real>, currTime: real) returns (r: array<real>)
    requires IsVector(v)
    ensures fresh(r) && r[..] == v[1..] + [currTime]
  {
    r := new real[NVAR + 1];
    for i := 0 to NVAR
      invariant forall k :: 0 <= k < i ==> r[k] == v[k + 1]
    {
      r[i] := v[i + 1];
    }
    r[NVAR] := currTime;
  }

  /** The loop before the second and the third stage. */
  method Advance(y: array<real>, h: real, d: array<real>, yt: array<real>)
    requires IsVector(y) && IsVector(d) && IsVector(yt) && yt != y && yt != d
    modifies yt
    ensures yt[1..] == AddScaled(y[1..], h, d[1..])
  {
    for i := 1 to NVAR + 1
      invariant forall k :: 1 <= k < i ==> yt[k] == y[k] + h * d[k]
    {
      yt[i] := y[i] + h * d[i];
    }
    AddScaledIs(y[1..], h, d[1..], yt[1..]);
  }

  function Plus(a: Vec, b: Vec): (r: Vec)
    requires |a| == |b| == NVAR
    ensures |r| == NVAR && forall i :: 0 <= i < NVAR ==> r[i] == a[i] + b[i]
  {
    seq(NVAR, i requires 0 <= i < NVAR => a[i] + b[i])
  }

  lemma {:induction false} PlusIs(a: Vec, b: Vec, r: Vec)
    requires |a| == |b| == |r| == NVAR && forall k :: 0 <= k < NVAR ==> r[k] == a[k] + b[k]
    ensures r == Plus(a, b)
  {
  }

  /** The loop before the fourth stage, which also leaves k3 + k2 in `dym`. */
  method AdvanceAndSum(y: array<real>, h: real, dym: array<real>, dyt: array<real>, yt: array<real>)
    requires IsVector(y) && IsVector(dym) && IsVector(dyt) && IsVector(yt)
    requires yt != y && yt != dym && yt != dyt && dym != y && dym != dyt
    modifies yt, dym
    ensures yt[1..] == AddScaled(y[1..], h, old(dym[1..]))
    ensures dym[1..] == Plus(old(dym[1..]), dyt[1..])
  {
    for i := 1 to NVAR + 1
      invariant forall k :: 1 <= k < i ==> yt[k] == y[k] + h * old(dym[k])
      invariant forall k :: 1 <= k < i ==> dym[k] == old(dym[k]) + dyt[k]
      invariant forall k :: i <= k <= NVAR ==> dym[k] == old(dym[k])
    {
      yt[i] := y[i] + h * dym[i];
      assert yt[i] == y[i] + h * old(dym[i]);
      dym[i] := dym[i] + dyt[i];
    }
    AddScaledIs(y[1..], h, old(dym[1..]), yt[1..]);
    PlusIs(old(dym[1..]), dyt[1..], dym[1..]);
  }

  function Weighed(y: real, h6: real, k1: real, k4: real, sum: real): real { y + h6 * (k1 + k4 + 2.0 * sum) }

  function WeighedVector(y: Vec, h6: real, k1: Vec, k4: Vec, sum: Vec): (r: Vec)
    requires |y| == |k1| == |k4| == |sum| == NVAR
    ensures |r| == NVAR
  {
    seq(NVAR, i requires 0 <= i < NVAR => Weighed(y[i], h6, k1[i], k4[i], sum[i]))
  }

  lemma {:induction false} WeighedIs(y: Vec, h6: real, k1: Vec, k4: Vec, sum: Vec, r: Vec)
    requires |y| == |k1| == |k4| == |sum| == |r| == NVAR
    requires forall i :: 0 <= i < NVAR ==> r[i] == Weighed(y[i], h6, k1[i], k4[i], sum[i])
    ensures r == WeighedVector(y, h6, k1, k4, sum)
  {
  }

  /** The last loop. */
  method Finish(y: array<real>, h6: real, dydx: array<real>, dyt: array<real>, dym: array<real>, yout: array<real>)
    requires IsVector(y) && IsVector(dydx) && IsVector(dyt) && IsVector(dym) && IsVector(yout)
    requires yout != y && yout != dydx && yout != dyt && yout != dym
    modifies yout
    ensures yout[1..] == WeighedVector(y[1..], h6, dydx[1..], dyt[1..], dym[1..])
  {
    for i := 1 to NVAR + 1
      invariant forall k :: 1 <= k < i ==> yout[k] == Weighed(y[k], h6, dydx[k], dyt[k], dym[k])
    {
      yout[i] := y[i] + h6 * (dydx[i] + dyt[i] + 2.0 * dym[i]);
    }
    WeighedIs(y[1..], h6, dydx[1..], dyt[1..], dym[1..], yout[1..]);
  }

  /** The weights as the code applies them, with k3 + k2 already summed. */
  lemma {:induction false} WeighedCombines(h: real, y: real, k1: real, k2: real, k3: real, k4: real, sum: real)
    requires sum == k3 + k2
    ensures Weighed(y, h / 6.0, k1, k4, sum) == Combine(h, y, k1, k2, k3, k4)
  {
    assert k1 + k4 + 2.0 * sum == k1 + 2.0 * k2 + 2.0 * k3 + k4;
  }

  lemma {:induction false} FinishIsRk4(s: Vec, h: real, u: Replies)
    requires |s| == NVAR
    ensures WeighedVector(s, h / 6.0, Slope(s, h, u, 0), Slope(s, h, u, 3), Plus(Slope(s, h, u, 2), Slope(s, h, u, 1)))
            == Rk4(s, h, u)
  {
    var (k1, k2, k3, k4) := (Slope(s, h, u, 0), Slope(s, h, u, 1), Slope(s, h, u, 2), Slope(s, h, u, 3));
    var sum := Plus(k3, k2);
    var whole := Rk4(s, h, u);
    forall i | 0 <= i < NVAR
      ensures WeighedVector(s, h / 6.0, k1, k4, sum)[i] == whole[i]
    {
      WeighedCombines(h, s[i], k1[i], k2[i], k3[i], k4[i], sum[i]);
    }
  }

  /** The payloads of the four stages of a step. */
  function StepPayloads(s: Vec, t: real, h: real, u: Replies): (r: seq<Vec>)
    requires |s| == NVAR
    ensures |r| == 4 && forall j :: 0 <= j < 4 ==> r[j] == StagePayload(s, t, h, u, j)
  {
    seq(4, j requires 0 <= j < 4 => StagePayload(s, t, h, u, j))
  }

  /** Ask for the command at `payload`, and put the derivatives of `v` under it into `d`. */
  method AskAndDerive(plant: Plant, link: Link, payload: array<real>, v: array<real>, d: array<real>)
    requires IsVector(v) && IsVector(d) && v != d
    modifies plant, link, d
    ensures link.asked == old(link.asked) + [old(payload[..])]
    ensures plant.Current() == link.replies(|old(link.asked)|)
    ensures d[1..] == Flight.Derivs(v[1..], plant.Current())
  {
    var u := link.GetU(payload);
    assert u[..] == link.replies(|old(link.asked)|).Floats();
    plant.Derivs(v, d, u);
  }

  /** Stage `j` from the state already in `yt`. */
  method LaterStage(plant: Plant, link: Link, yt: array<real>, time: real, d: array<real>,
                    ghost s: Vec, ghost t: real, ghost h: real, ghost u: Replies, ghost j: nat)
    requires IsVector(yt) && IsVector(d) && yt != d && |s| == NVAR
    requires yt[1..] == Stage(s, h, u, j) && time == t + Ahead(h, j)
    requires u(j) == link.replies(|link.asked|)
    modifies plant, link, d
    ensures link.asked == old(link.asked) + [StagePayload(s, t, h, u, j)]
    ensures d[1..] == Slope(s, h, u, j)
    ensures plant.Current() == u(j)
  {
    var payload := NormalizeVector(yt, time);
    AskAndDerive(plant, link, payload, yt, d);
  }

  /** The two middle stages: on return `dyt` holds k2 and `dym` holds k3. */
  method MiddleStages(plant: Plant, link: Link, y: array<real>, x: real, h: real, dydx: array<real>,
                      dym: array<real>, dyt: array<real>, yt: array<real>, ghost u: Replies)
    requires IsVector(y) && IsVector(dydx) && IsVector(dym) && IsVector(dyt) && IsVector(yt)
    requires yt != y && yt != dydx && yt != dym && yt != dyt && dym != dyt
    requires dym != y && dyt != y
    requires dydx[1..] == Slope(y[1..], h, u, 0)
    requires u(1) == link.replies(|link.asked|) && u(2) == link.replies(|link.asked| + 1)
    modifies plant, link, dym, dyt, yt
    ensures dyt[1..] == Slope(y[1..], h, u, 1) && dym[1..] == Slope(y[1..], h, u, 2)
    ensures link.asked == old(link.asked) + [StagePayload(y[1..], x, h, u, 1)] + [StagePayload(y[1..], x, h, u, 2)]
  {
    ghost var s := y[1..];
    var hh := h * 0.5;
    var xh := x + hh;
    Advance(y, hh, dydx, yt);
    LaterStage(plant, link, yt, xh, dyt, s, x, h, u, 1);
    Advance(y, hh, dyt, yt);
    LaterStage(plant, link, yt, xh, dym, s, x, h, u, 2);
  }

  /** The last stage: on return `dym` holds k3 + k2 and `dyt` holds k4. */
  method FourthStage(plant: Plant, link: Link, y: array<real>, x: real, h: real,
                     dym: array<real>, dyt: array<real>, yt: array<real>, ghost u: Replies)
    requires IsVector(y) && IsVector(dym) && IsVector(dyt) && IsVector(yt)
    requires yt != y && yt != dym && yt != dyt && dym != y && dym != dyt && dyt != y
    requires dyt[1..] == Slope(y[1..], h, u, 1) && dym[1..] == Slope(y[1..], h, u, 2)
    requires u(3) == link.replies(|link.asked|)
    modifies plant, link, dym, dyt, yt
    ensures dym[1..] == Plus(Slope(y[1..], h, u, 2), Slope(y[1..], h, u, 1)) && dyt[1..] == Slope(y[1..], h, u, 3)
    ensures link.asked == old(link.asked) + [StagePayload(y[1..], x, h, u, 3)]
    ensures plant.Current() == u(3)
  {
    ghost var s := y[1..];
    AdvanceAndSum(y, h, dym, dyt, yt);
    LaterStage(plant, link, yt, x + h, dyt, s, x, h, u, 3);
  }

  /** The weighted sum. */
  method Combination(y: array<real>, h: real, dydx: array<real>, dym: array<real>, dyt: array<real>, yout: array<real>,
                     ghost u: Replies)
    requires IsVector(y) && IsVector(dydx) && IsVector(dym) && IsVector(dyt) && IsVector(yout)
    requires yout != y && yout != dydx && yout != dyt && yout != dym
    requires dydx[1..] == Slope(y[1..], h, u, 0) && dyt[1..] == Slope(y[1..], h, u, 3)
    requires dym[1..] == Plus(Slope(y[1..], h, u, 2), Slope(y[1..], h, u, 1))
    modifies yout
    ensures yout[1..] == Rk4(y[1..], h, u)
  {
    ghost var s := y[1..];
    var h6 := h / 6.0;
    Finish(y, h6, dydx, dyt, dym, yout);
    FinishIsRk4(s, h, u);
  }

  /** The first stage, whose payload comes from the calculator data instead of from `y`. */
  method FirstStage(plant: Plant, link: Link, payload: array<real>, y: array<real>, dydx: array<real>,
                    ghost x: real, ghost h: real, ghost u: Replies)
    requires IsVector(y) && IsVector(dydx) && y != dydx
    requires payload[..] == y[1..] + [x] && u(0) == link.replies(|link.asked|)
    modifies plant, link, dydx
    ensures dydx[1..] == Slope(y[1..], h, u, 0)
    ensures link.asked == old(link.asked) + [StagePayload(y[1..], x, h, u, 0)]
  {
    assert x == x + Ahead(h, 0);
    AskAndDerive(plant, link, payload, y, dydx);
  }

  lemma {:induction false} FourAsked(before: seq<Vec>, s: Vec, t: real, h: real, u: Replies)
    requires |s| == NVAR
    ensures before + [StagePayload(s, t, h, u, 0)] + [StagePayload(s, t, h, u, 1)] + [StagePayload(s, t, h, u, 2)]
            + [StagePayload(s, t, h, u, 3)]
            == before + StepPayloads(s, t, h, u)
  {
  }

  /** `u` lists the replies the next four calls will get. */
  ghost predicate NextReplies(link: Link, u: Replies)
    reads link
  {
    Agree(u, Shift(link.replies, |link.asked|), 4)
  }

  /** The four stages in order, with the work arrays they share. */
  method RungeKuttaStep(plant: Plant, link: Link, payload: array<real>, y: array<real>, x: real, h: real,
                        ghost u: Replies)
    returns (yout: array<real>)
    requires IsVector(y) && payload[..] == y[1..] + [x] && NextReplies(link, u)
    modifies plant, link
    ensures fresh(yout) && IsVector(yout)
    ensures yout[1..] == Rk4(y[1..], h, u)
    ensures link.asked == old(link.asked) + StepPayloads(y[1..], x, h, u)
    ensures plant.Current() == u(3)
  {
    assert u(0) == link.replies(|link.asked|) && u(1) == link.replies(|link.asked| + 1);
    assert u(2) == link.replies(|link.asked| + 2) && u(3) == link.replies(|link.asked| + 3);
    var dydx := new real[NVAR + 1];
    FirstStage(plant, link, payload, y, dydx, x, h, u);
    var dym, dyt, yt := new real[NVAR + 1], new real[NVAR + 1], new real[NVAR + 1];
    MiddleStages(plant, link, y, x, h, dydx, dym, dyt, yt, u);
    FourthStage(plant, link, y, x, h, dym, dyt, yt, u);
    yout := new real[NVAR + 1];
    Combination(y, h, dydx, dym, dyt, yout, u);
    FourAsked(old(link.asked), y[1..], x, h, u);
  }

  /** Thirteen numbers each, the last of them the time of the payload's step and stage. */
  ghost predicate Stamped(asked: seq<Vec>, t: real, h: real) {
    forall k :: 0 <= k < |asked| ==> |asked[k]| == 13 && asked[k][12] == Stamp(t, h, k)
  }

  lemma {:induction false} StepIsStamped(s: Vec, t: real, h: real, u: Replies)
    requires |s| == NVAR
    ensures Stamped(StepPayloads(s, t, h, u), t, h) && StepPayloads(s, t, h, u)[0][..12] == s
  {
    forall j | 0 <= j < 4
      ensures |StepPayloads(s, t, h, u)[j]| == 13 && StepPayloads(s, t, h, u)[j][12] == Stamp(t, h, j)
    {
      assert j / 4 == 0 && j % 4 == j;
    }
  }

  /** get_next_step: one Runge-Kutta step of the calculator data, each stage under its own command. */
  method GetNextStep(data: CalculatorData, plant: Plant, link: Link, ghost u: Replies)
    requires NextReplies(link, u)
    modifies data, plant, link
    ensures unchanged(data`timeStart, data`timeEnd, data`step, data`currTime)
    ensures data.State() == Rk4(old(data.State()), data.step, u)
    ensures link.asked == old(link.asked) + StepPayloads(old(data.State()), data.currTime, data.step, u)
    ensures var asked := link.asked[|old(link.asked)|..];
            |asked| == 4 && Stamped(asked, data.currTime, data.step) && asked[0][..12] == old(data.State())
    ensures plant.Current() == u(3)
  {
    StepIsStamped(data.State(), data.currTime, data.step, u);
    var y := data.GetState();
    var payload := data.GetPayload();
    var yout := RungeKuttaStep(plant, link, payload, y, data.currTime, data.step, u);
    data.SetCalcData(yout);
  }

  // ---- The whole simulation ----

  /** The payloads of the first `n` steps, step by step. */
  function Requests(s: Vec, t: real, h: real, u: Replies, n: nat): (r: seq<Vec>)
    requires |s| == NVAR
    ensures |r| == 4 * n
  {
    if n == 0 then []
    else Requests(s, t, h, u, n - 1)
         + StepPayloads(StateAfter(s, h, u, n - 1), TimeAfter(t, h, n - 1), h, Shift(u, 4 * (n - 1)))
  }

  lemma {:induction false} LastRequest(s: Vec, t: real, h: real, u: Replies, m: nat, j: nat, k: nat, last: seq<Vec>)
    requires |s| == NVAR && j < 4 && k == 4 * m + j && |last| == 4
    requires last[j] == StagePayload(StateAfter(s, h, u, m), TimeAfter(t, h, m), h, Shift(u, 4 * m), j)
    ensures last[j] == Request(s, t, h, u, k)
  {
    Quarters(m, j);
    RequestParts(s, t, h, u, k, m, j);
  }

  /** Payload number `k` of a simulation is `Request` number `k`. */
  lemma {:induction false} RequestsAre(s: Vec, t: real, h: real, u: Replies, n: nat, k: nat)
    requires |s| == NVAR && k < 4 * n
    ensures Requests(s, t, h, u, n)[k] == Request(s, t, h, u, k)
    decreases n
  {
    var m := n - 1;
    var front := Requests(s, t, h, u, m);
    var last := StepPayloads(StateAfter(s, h, u, m), TimeAfter(t, h, m), h, Shift(u, 4 * m));
    assert Requests(s, t, h, u, n) == front + last;
    if k < 4 * m {
      RequestsAre(s, t, h, u, m, k);
    } else {
      LastRequest(s, t, h, u, m, k - 4 * m, k, last);
    }
  }

  lemma {:induction false} RequestsAreStamped(s: Vec, t: real, h: real, u: Replies, n: nat)
    requires |s| == NVAR
    ensures Stamped(Requests(s, t, h, u, n), t, h)
  {
    forall k | 0 <= k < 4 * n
      ensures |Requests(s, t, h, u, n)[k]| == 13 && Requests(s, t, h, u, n)[k][12] == Stamp(t, h, k)
    {
      RequestsAre(s, t, h, u, n, k);
      RequestLayout(s, t, h, u, k);
    }
  }

  /** Steps left at time `t`: a bound for the loop. */
  ghost function StepsLeft(t: real, end: real, h: real): int
    requires h > 0.0
  {
    ((end - t) / h).Floor
  }

  lemma {:induction false} FewerLeft(t: real, end: real, h: real)
    requires h > 0.0 && t <= end
    ensures StepsLeft(t, end, h) >= 0 && StepsLeft(t + h, end, h) < StepsLeft(t, end, h)
  {
    var q, r := (end - t) / h, (end - (t + h)) / h;
    assert q * h == end - t && r * h == end - (t + h);
    assert (q - r - 1.0) * h == 0.0;
    ZeroProduct(q - r - 1.0, h);
  }

  /** The simulation has taken `n` steps from state `s` and time `t`. */
  ghost predicate Simulated(data: CalculatorData, link: Link, before: seq<Vec>, s: Vec, t: real, u: Replies, n: nat)
    reads data, link
  {
    && |s| == NVAR
    && data.currTime == TimeAfter(t, data.step, n)
    && data.State() == StateAfter(s, data.step, u, n)
    && link.asked == before + Requests(s, t, data.step, u, n)
  }

  /** The body of the loop: a step, and the clock moved on. */
  method SimulateStep(data: CalculatorData, plant: Plant, link: Link,
                      ghost before: seq<Vec>, ghost s: Vec, ghost t: real, ghost u: Replies, ghost n: nat)
    requires Simulated(data, link, before, s, t, u, n)
    requires NextReplies(link, Shift(u, 4 * n))
    modifies data, plant, link
    ensures unchanged(data`timeStart, data`timeEnd, data`step)
    ensures data.currTime == old(data.currTime) + data.step
    ensures Simulated(data, link, before, s, t, u, n + 1)
  {
    GetNextStep(data, plant, link, Shift(u, 4 * n));
    RequestsNext(s, t, data.step, u, n);
    StepAfter(s, data.step, u, n);
    TimeNext(t, data.step, n);
    data.currTime := data.currTime + data.step;
  }

  lemma {:induction false} RequestsNext(s: Vec, t: real, h: real, u: Replies, n: nat)
    requires |s| == NVAR
    ensures Requests(s, t, h, u, n + 1)
            == Requests(s, t, h, u, n) + StepPayloads(StateAfter(s, h, u, n), TimeAfter(t, h, n), h, Shift(u, 4 * n))
  {
  }

  lemma {:induction false} TimeNext(t: real, h: real, n: nat)
    ensures TimeAfter(t, h, n + 1) == TimeAfter(t, h, n) + h
  {
  }

  /** The two condition packs between integrator and printer (client/main.c:154-155). `answers` says whether
      the printer thread raises `fromSignal` for the next print; run_printer never does
      (client/run_printer.c:47-63), so for the source it is false. */
  class Printer {
    const answers: bool
    var fromSignal: bool
    var toSignal: bool

    constructor (answers: bool)
      ensures this.answers == answers && fromSignal && !toSignal
    {
      this.answers := answers;
      fromSignal, toSignal := true, false;
    }

    /** print_calc_data: it never returns if its flag is down. */
    method PrintCalcData() returns (returned: bool)
      modifies this
      ensures returned == old(fromSignal)
      ensures fromSignal == (returned && answers) && (returned ==> toSignal == !answers)
    {
      returned := fromSignal;
      if returned {
        fromSignal, toSignal := answers, !answers;
      }
    }
  }

  /** After `n` prints begun with the flag `up`: a printer that answers never blocks them; one that does
      not lets the first return if the flag was up, and blocks the next. */
  ghost predicate Prints(answers: bool, up: bool, fromSignal: bool, n: nat, blocked: bool) {
    if answers && up then fromSignal && !blocked
    else n <= Bit(up) + 1 && (blocked <==> n == Bit(up) + 1) && (fromSignal <==> n < Bit(up))
  }

  /** do_client_calculations. Unless a print blocks it for ever, it takes the steps that start no later than
      the end time; with a printer that answers it then ends only if the step is positive or there is
      nothing to do. Its steps are taken in order, and it has asked for exactly their payloads. */
  method DoClientCalculations(data: CalculatorData, plant: Plant, link: Link, printer: Printer)
    returns (n: nat, blocked: bool)
    requires printer.answers ==> data.step > 0.0 || data.timeEnd < data.currTime
    modifies data, plant, link, printer
    ensures unchanged(data`timeStart, data`timeEnd, data`step)
    ensures n > 0 ==> data.currTime - data.step <= data.timeEnd && old(data.currTime) <= data.timeEnd
    ensures !blocked ==> data.timeEnd < data.currTime
    ensures Prints(printer.answers, old(printer.fromSignal), printer.fromSignal, n, blocked)
    ensures Simulated(data, link, old(link.asked), old(data.State()), old(data.currTime),
                      Shift(link.replies, |old(link.asked)|), n)
    ensures var asked := link.asked[|old(link.asked)|..];
            |asked| == 4 * n && Stamped(asked, old(data.currTime), data.step)
  {
    ghost var s, t, u, before := data.State(), data.currTime, Shift(link.replies, |link.asked|), link.asked;
    ghost var h, end, up := data.step, data.timeEnd, printer.fromSignal;
    n, blocked := 0, false;
    while data.currTime <= data.timeEnd && !blocked
      invariant unchanged(data`timeStart, data`timeEnd, data`step)
      invariant printer.answers ==> h > 0.0 || end < data.currTime
      invariant n > 0 ==> data.currTime - h <= end && t <= end
      invariant Prints(printer.answers, up, printer.fromSignal, n, blocked)
      invariant Simulated(data, link, before, s, t, u, n)
      decreases !blocked, if printer.answers && data.currTime <= end then 1 + StepsLeft(data.currTime, end, h) else 0,
                printer.fromSignal
    {
      if printer.answers {
        FewerLeft(data.currTime, end, h);
      }
      SimulateStep(data, plant, link, before, s, t, u, n);
      n := n + 1;
      var returned := printer.PrintCalcData();
      blocked := !returned;
    }
    RequestsAreStamped(s, t, data.step, u, n);
    assert link.asked[|before|..] == Requests(s, t, data.step, u, n);
  }

  lemma {:induction false} ElevenSteps(start: real, end: real, h: real, n: nat)
    requires start < end && h == (end - start) / 10.0
    requires end < TimeAfter(start, h, n) && (n > 0 ==> TimeAfter(start, h, n) - h <= end)
    ensures n == 11
  {
    assert 0.0 < h && end == start + 10.0 * h;
    ScaledOrder(n as real, 10.0, h);
    ScaledOrder(11.0, n as real - 1.0, h);
  }

  lemma {:induction false} ScaledOrder(a: real, b: real, h: real)
    requires 0.0 < h
    ensures a <= b ==> a * h <= b * h
  {
  }

  /** How many steps the simulation from `start` to `end` takes, the last print of which may block. */
  function StepsTaken(start: real, end: real, answers: bool): nat {
    if end < start then 0 else if answers then NSTEP + 1 else 2
  }

  lemma {:induction false} TwoSteps(start: real, end: real, h: real, n: nat)
    requires h == (end - start) / 10.0 && n <= 2 && (n < 2 ==> end < TimeAfter(start, h, n))
    requires n > 0 ==> TimeAfter(start, h, n) - h <= end
    ensures n == if end < start then 0 else 2
  {
    assert end == start + 10.0 * h;
    assert TimeAfter(start, h, 0) == start && TimeAfter(start, h, 1) == start + h
           && TimeAfter(start, h, 2) == start + 2.0 * h;
  }

  lemma {:induction false} CountSteps(start: real, end: real, h: real, n: nat, answers: bool, up: bool, blocked: bool)
    requires h == (end - start) / 10.0 && (answers ==> start != end)
    requires Prints(answers, true, up, n, blocked)
    requires !blocked ==> end < TimeAfter(start, h, n)
    requires n > 0 ==> TimeAfter(start, h, n) - h <= end && start <= end
    ensures n == StepsTaken(start, end, answers)
    ensures blocked <==> !answers && start <= end
  {
    if !answers {
      TwoSteps(start, end, h, n);
    } else if start < end {
      ElevenSteps(start, end, h, n);
    }
  }

  /** A simulation from the zero state. With the source's printer it waits for ever in its second print:
      eight calls of `get_u`, whatever the interval, unless that ends before it starts. With one that
      answers, a forward interval takes in exact arithmetic one step more than NSTEP, because the loop's
      comparison includes the end time: 44 calls; an interval of length zero then makes the step zero
      and the loop endless. */
  method Simulate(start: real, end: real, replies: Replies, answers: bool)
    returns (data: CalculatorData, link: Link, blocked: bool)
    requires answers ==> start != end
    ensures data.step == (end - start) / NSTEP as real && link.replies == replies
    ensures blocked <==> !answers && start <= end
    ensures |link.asked| == if end < start then 0 else if answers then 44 else 8
    ensures Stamped(link.asked, start, data.step)
    ensures var n := StepsTaken(start, end, answers);
            && data.State() == StateAfter(Zero(), data.step, replies, n)
            && link.asked == Requests(Zero(), start, data.step, replies, n)
  {
    data := new CalculatorData(start, end);
    link := new Link(replies);
    var plant := new Plant();
    var printer := new Printer(answers);
    assert data.State() == Zero();
    var n;
    n, blocked := DoClientCalculations(data, plant, link, printer);
    CountSteps(start, end, data.step, n, answers, printer.fromSignal, blocked);
    FromFirstCall(Zero(), start, data.step, replies, n);
    RequestsAreStamped(Zero(), start, data.step, replies, n);
  }

  lemma {:induction false} RequestsLocal(s: Vec, t: real, h: real, u: Replies, v: Replies, n: nat)
    requires |s| == NVAR && Agree(u, v, 4 * n)
    ensures Requests(s, t, h, u, n) == Requests(s, t, h, v, n)
  {
    forall k | 0 <= k < 4 * n
      ensures Requests(s, t, h, u, n)[k] == Requests(s, t, h, v, n)[k]
    {
      RequestsAre(s, t, h, u, n, k);
      RequestsAre(s, t, h, v, n, k);
      RequestLocal(s, t, h, u, v, k);
    }
  }

  lemma {:induction false} FromFirstCall(s: Vec, t: real, h: real, u: Replies, n: nat)
    requires |s| == NVAR
    ensures StateAfter(s, h, Shift(u, 0), n) == StateAfter(s, h, u, n)
    ensures Requests(s, t, h, Shift(u, 0), n) == Requests(s, t, h, u, n)
  {
    StateLocal(s, h, Shift(u, 0), u, n);
    RequestsLocal(s, t, h, Shift(u, 0), u, n);
  }
}
