/** The client's Runge-Kutta step and the payloads it asks commands for (client/main.c:380-448 and
    481-488), as functions; `Integrator` holds the in-place code. */
module RungeKutta {
  import opened Handoff
  import opened Flight

  /** The command each call of `get_u` returns, by the number of the call. */
  type Replies = nat -> Command

  function AddScaled(y: Vec, h: real, d: Vec): (r: Vec)
    requires |y| == |d| == NVAR
    ensures |r| == NVAR && forall i :: 0 <= i < NVAR ==> r[i] == y[i] + h * d[i]
  {
    seq(NVAR, i requires 0 <= i < NVAR => y[i] + h * d[i])
  }

  /** How far ahead of the step's start stage `j` is evaluated. */
  function Ahead(h: real, j: nat): real { if j == 0 then 0.0 else if j < 3 then h * 0.5 else h }

  /** The state stage `j` is evaluated at, each stage having its own command. */
  function Stage(s: Vec, h: real, u: Replies, j: nat): (r: Vec)
    requires |s| == NVAR
    ensures |r| == NVAR
    decreases j, 0
  {
    if j == 0 then s else AddScaled(s, Ahead(h, j), Slope(s, h, u, j - 1))
  }

  /** k1 to k4: the derivatives at each stage under its command. */
  function Slope(s: Vec, h: real, u: Replies, j: nat): (r: Vec)
    requires |s| == NVAR
    ensures |r| == NVAR
    decreases j, 1
  {
    Derivs(Stage(s, h, u, j), u(j))
  }

  function Combine(h: real, y: real, k1: real, k2: real, k3: real, k4: real): real {
    y + h / 6.0 * (k1 + 2.0 * k2 + 2.0 * k3 + k4)
  }

  function Rk4(s: Vec, h: real, u: Replies): (r: Vec)
    requires |s| == NVAR
    ensures |r| == NVAR
    ensures forall i :: 0 <= i < NVAR ==>
              r[i] == Combine(h, s[i], Slope(s, h, u, 0)[i], Slope(s, h, u, 1)[i], Slope(s, h, u, 2)[i],
                              Slope(s, h, u, 3)[i])
  {
    seq(NVAR, i requires 0 <= i < NVAR =>
      Combine(h, s[i], Slope(s, h, u, 0)[i], Slope(s, h, u, 1)[i], Slope(s, h, u, 2)[i], Slope(s, h, u, 3)[i]))
  }

  /** The payload of stage `j`: the twelve state variables and the stage's time. */
  function StagePayload(s: Vec, t: real, h: real, u: Replies, j: nat): (r: Vec)
    requires |s| == NVAR
    ensures |r| == NVAR + 1
  {
    Stage(s, h, u, j) + [t + Ahead(h, j)]
  }

  /** The state a simulation starts in. */
  function Zero(): (z: Vec)
    ensures |z| == NVAR && forall i :: 0 <= i < NVAR ==> z[i] == 0.0
  {
    seq(NVAR, i => 0.0)
  }

  // ---- Whole simulations: four calls of get_u per step ----

  function Shift(u: Replies, k: nat): Replies { (j: nat) => u(k + j) }

  function StateAfter(s: Vec, h: real, u: Replies, n: nat): (r: Vec)
    requires |s| == NVAR
    ensures |r| == NVAR
  {
    if n == 0 then s else Rk4(StateAfter(s, h, u, n - 1), h, Shift(u, 4 * (n - 1)))
  }

  /** The payload of call `k` of a simulation that starts at state `s` and time `t`. */
  function Request(s: Vec, t: real, h: real, u: Replies, k: nat): (r: Vec)
    requires |s| == NVAR
    ensures |r| == NVAR + 1
  {
    var n := k / 4;
    StagePayload(StateAfter(s, h, u, n), t + n as real * h, h, Shift(u, 4 * n), k % 4)
  }

  // ---- A request depends only on the replies that came before it ----

  ghost predicate Agree(u: Replies, v: Replies, k: nat) { forall j: nat :: j < k ==> u(j) == v(j) }

  lemma {:induction false} StageLocal(s: Vec, h: real, u: Replies, v: Replies, j: nat)
    requires |s| == NVAR && Agree(u, v, j)
    ensures Stage(s, h, u, j) == Stage(s, h, v, j)
    decreases j
  {
    if j > 0 {
      StageLocal(s, h, u, v, j - 1);
      assert Slope(s, h, u, j - 1) == Slope(s, h, v, j - 1);
    }
  }

  lemma {:induction false} Rk4Local(s: Vec, h: real, u: Replies, v: Replies)
    requires |s| == NVAR && Agree(u, v, 4)
    ensures Rk4(s, h, u) == Rk4(s, h, v)
  {
    StageLocal(s, h, u, v, 0); StageLocal(s, h, u, v, 1); StageLocal(s, h, u, v, 2); StageLocal(s, h, u, v, 3);
    assert u(0) == v(0) && u(1) == v(1) && u(2) == v(2) && u(3) == v(3);
    assert Slope(s, h, u, 0) == Slope(s, h, v, 0) && Slope(s, h, u, 1) == Slope(s, h, v, 1);
    assert Slope(s, h, u, 2) == Slope(s, h, v, 2) && Slope(s, h, u, 3) == Slope(s, h, v, 3);
  }

  lemma {:induction false} StateLocal(s: Vec, h: real, u: Replies, v: Replies, n: nat)
    requires |s| == NVAR && Agree(u, v, 4 * n)
    ensures StateAfter(s, h, u, n) == StateAfter(s, h, v, n)
    decreases n
  {
    if n > 0 {
      StateLocal(s, h, u, v, n - 1);
      var k := 4 * (n - 1);
      assert Agree(Shift(u, k), Shift(v, k), 4);
      Rk4Local(StateAfter(s, h, u, n - 1), h, Shift(u, k), Shift(v, k));
    }
  }

  lemma {:induction false} RequestLocal(s: Vec, t: real, h: real, u: Replies, v: Replies, k: nat)
    requires |s| == NVAR && Agree(u, v, k)
    ensures Request(s, t, h, u, k) == Request(s, t, h, v, k)
  {
    var n := k / 4;
    StateLocal(s, h, u, v, n);
    assert Agree(Shift(u, 4 * n), Shift(v, 4 * n), k % 4);
    StageLocal(StateAfter(s, h, u, n), h, Shift(u, 4 * n), Shift(v, 4 * n), k % 4);
  }

  // ---- The payloads in numbers ----

  /** The time a payload carries: its step's, and half a step or a whole one ahead for the later stages. */
  function Stamp(t: real, h: real, k: nat): real {
    t + (k / 4) as real * h + if k % 4 == 0 then 0.0 else if k % 4 == 3 then h else h / 2.0
  }

  /** Payload `k` has thirteen numbers: the state of its stage, and its time last. */
  lemma {:induction false} RequestLayout(s: Vec, t: real, h: real, u: Replies, k: nat)
    requires |s| == 12
    ensures var p := Request(s, t, h, u, k);
            && |p| == 13
            && p[12] == t + (k / 4) as real * h + (if k % 4 == 0 then 0.0 else if k % 4 == 3 then h else h / 2.0)
            && p[..12] == Stage(StateAfter(s, h, u, k / 4), h, Shift(u, 4 * (k / 4)), k % 4)
  {
  }

  /** The plant's rates at each of a step's four payloads, under the reply to it. */
  function RatesAt(p: seq<Vec>, u: Replies): (d: seq<Vec>)
    requires |p| == 4 && forall j :: 0 <= j < 4 ==> |p[j]| == 13
    ensures |d| == 4 && forall j :: 0 <= j < 4 ==> d[j] == Derivs(p[j][..12], u(j))
  {
    seq(4, j requires 0 <= j < 4 => Derivs(p[j][..12], u(j)))
  }

  /** The first payload of a step carries its state, each later one that state moved ahead, half a step or a
      whole one, along the rates at the payload before. */
  ghost predicate MovesAhead(s: Vec, h: real, p: seq<Vec>, d: seq<Vec>) {
    && |s| == 12 && |p| == |d| == 4 && (forall j :: 0 <= j < 4 ==> |p[j]| == 13 && |d[j]| == 12)
    && p[0][..12] == s
    && p[1][..12] == AddScaled(s, h / 2.0, d[0])
    && p[2][..12] == AddScaled(s, h / 2.0, d[1])
    && p[3][..12] == AddScaled(s, h, d[2])
  }

  /** A step ends where its four rates take it. */
  ghost predicate EndsAt(s: Vec, h: real, d: seq<Vec>, s': Vec) {
    && |s| == |s'| == 12 && |d| == 4 && (forall j :: 0 <= j < 4 ==> |d[j]| == 12)
    && forall i :: 0 <= i < 12 ==> s'[i] == Combine(h, s[i], d[0][i], d[1][i], d[2][i], d[3][i])
  }

  lemma {:induction false} EndsInNumbers(s: Vec, h: real, d: seq<Vec>, s': Vec, i: nat)
    requires EndsAt(s, h, d, s') && i < 12
    ensures s'[i] == s[i] + h / 6.0 * (d[0][i] + 2.0 * d[1][i] + 2.0 * d[2][i] + d[3][i])
  {
  }

  lemma {:induction false} StagesMoveAhead(s: Vec, t: real, h: real, u: Replies, p: seq<Vec>)
    requires |s| == 12 && |p| == 4 && forall j :: 0 <= j < 4 ==> |p[j]| == 13 && p[j] == StagePayload(s, t, h, u, j)
    ensures MovesAhead(s, h, p, RatesAt(p, u))
    ensures forall j :: 0 <= j < 4 ==> RatesAt(p, u)[j] == Slope(s, h, u, j)
  {
    assert p[0][..12] == Stage(s, h, u, 0) && p[1][..12] == Stage(s, h, u, 1);
    assert p[2][..12] == Stage(s, h, u, 2) && p[3][..12] == Stage(s, h, u, 3);
    assert Ahead(h, 1) == Ahead(h, 2) == h / 2.0 && Ahead(h, 3) == h;
  }

  lemma {:induction false} SlopesEnd(s: Vec, h: real, u: Replies, d: seq<Vec>)
    requires |s| == 12 && |d| == 4 && forall j :: 0 <= j < 4 ==> d[j] == Slope(s, h, u, j)
    ensures EndsAt(s, h, d, Rk4(s, h, u))
  {
  }

  lemma {:induction false} PayloadsObeyPlant(s: Vec, t: real, h: real, u: Replies, p: seq<Vec>)
    requires |s| == 12 && |p| == 4 && forall j :: 0 <= j < 4 ==> |p[j]| == 13 && p[j] == StagePayload(s, t, h, u, j)
    ensures MovesAhead(s, h, p, RatesAt(p, u)) && EndsAt(s, h, RatesAt(p, u), Rk4(s, h, u))
  {
    StagesMoveAhead(s, t, h, u, p);
    SlopesEnd(s, h, u, RatesAt(p, u));
  }

  function TimeAfter(t: real, h: real, n: nat): real { t + n as real * h }

  lemma {:induction false} RequestParts(s: Vec, t: real, h: real, u: Replies, k: nat, n: nat, j: nat)
    requires |s| == NVAR && n == k / 4 && j == k % 4
    ensures Request(s, t, h, u, k) == StagePayload(StateAfter(s, h, u, n), TimeAfter(t, h, n), h, Shift(u, 4 * n), j)
  {
  }

  lemma {:induction false} Quarters(n: nat, j: nat)
    requires j < 4
    ensures (4 * n + j) / 4 == n && (4 * n + j) % 4 == j
  {
  }

  lemma {:induction false} StepAfter(s: Vec, h: real, u: Replies, n: nat)
    requires |s| == 12
    ensures StateAfter(s, h, u, n + 1) == Rk4(StateAfter(s, h, u, n), h, Shift(u, 4 * n))
  {
  }

  lemma {:induction false} PayloadsOfStep(s: Vec, t: real, h: real, u: Replies, n: nat, p: seq<Vec>)
    requires |s| == 12 && |p| == 4 && forall j :: 0 <= j < 4 ==> p[j] == Request(s, t, h, u, 4 * n + j)
    ensures forall j :: 0 <= j < 4 ==> p[j] == StagePayload(StateAfter(s, h, u, n), TimeAfter(t, h, n), h,
                                                            Shift(u, 4 * n), j)
  {
    forall j | 0 <= j < 4
      ensures p[j] == StagePayload(StateAfter(s, h, u, n), TimeAfter(t, h, n), h, Shift(u, 4 * n), j)
    {
      Quarters(n, j);
      RequestParts(s, t, h, u, 4 * n + j, n, j);
    }
  }

  /** So payloads 4n to 4n + 3 of a simulation and its states before and after that step obey the plant under
      replies 4n to 4n + 3. */
  lemma {:induction false} RequestsObeyPlant(s: Vec, t: real, h: real, u: Replies, n: nat, p: seq<Vec>)
    requires |s| == 12 && |p| == 4 && forall j :: 0 <= j < 4 ==> |p[j]| == 13 && p[j] == Request(s, t, h, u, 4 * n + j)
    ensures var d := RatesAt(p, Shift(u, 4 * n));
            && MovesAhead(StateAfter(s, h, u, n), h, p, d)
            && EndsAt(StateAfter(s, h, u, n), h, d, StateAfter(s, h, u, n + 1))
  {
    PayloadsOfStep(s, t, h, u, n, p);
    StepAfter(s, h, u, n);
    PayloadsObeyPlant(StateAfter(s, h, u, n), TimeAfter(t, h, n), h, Shift(u, 4 * n), p);
  }

  // ---- Momentum ----

  /** What the replies to the first `n` steps amount to in one of their numbers, each weighed as its stage is. */
  function Impulse(number: Command -> real, u: Replies, n: nat): real {
    if n == 0 then 0.0
    else
      Impulse(number, u, n - 1) + number(u(4 * n - 4)) + 2.0 * number(u(4 * n - 3)) + 2.0 * number(u(4 * n - 2))
      + number(u(4 * n - 1))
  }

  function Weighed4(number: Command -> real, u: Replies): real {
    number(u(0)) + 2.0 * number(u(1)) + 2.0 * number(u(2)) + number(u(3))
  }

  function Thrust(c: Command): real { c.u1 }

  function Yaw(c: Command): real { c.u4 }

  lemma {:induction false} SlopesOfHeightAndYaw(s: Vec, h: real, u: Replies, j: nat)
    requires |s| == 12
    ensures Slope(s, h, u, j)[5] == OverM(u(j).u1) - 9.81 && Slope(s, h, u, j)[11] == OverIz(u(j).u4)
  {
  }

  lemma {:induction false} CombinedThrust(h: real, y: real, k1: real, k2: real, k3: real, k4: real,
                                          a: real, b: real, c: real, d: real)
    requires k1 == OverM(a) - 9.81 && k2 == OverM(b) - 9.81 && k3 == OverM(c) - 9.81 && k4 == OverM(d) - 9.81
    ensures 0.53 * (Combine(h, y, k1, k2, k3, k4) - y) == h / 6.0 * (a + 2.0 * b + 2.0 * c + d) - 0.53 * 9.81 * h
  {
    assert 0.53 * (k1 + 2.0 * k2 + 2.0 * k3 + k4) == a + 2.0 * b + 2.0 * c + d - 6.0 * (0.53 * 9.81);
    Scaled(h / 6.0, 0.53, k1 + 2.0 * k2 + 2.0 * k3 + k4, a + 2.0 * b + 2.0 * c + d - 6.0 * (0.53 * 9.81));
  }

  lemma {:induction false} CombinedTorque(h: real, y: real, k1: real, k2: real, k3: real, k4: real,
                                          a: real, b: real, c: real, d: real)
    requires k1 == OverIz(a) && k2 == OverIz(b) && k3 == OverIz(c) && k4 == OverIz(d)
    ensures 0.012 * (Combine(h, y, k1, k2, k3, k4) - y) == h / 6.0 * (a + 2.0 * b + 2.0 * c + d)
  {
    assert 0.012 * (k1 + 2.0 * k2 + 2.0 * k3 + k4) == a + 2.0 * b + 2.0 * c + d;
    Scaled(h / 6.0, 0.012, k1 + 2.0 * k2 + 2.0 * k3 + k4, a + 2.0 * b + 2.0 * c + d);
  }

  lemma {:induction false} Scaled(x: real, m: real, k: real, a: real)
    requires m * k == a
    ensures m * (x * k) == x * a
  {
  }

  lemma {:induction false} StepThrust(s: Vec, h: real, u: Replies)
    requires |s| == 12
    ensures 0.53 * (Rk4(s, h, u)[5] - s[5]) == h / 6.0 * Weighed4(Thrust, u) - 0.53 * 9.81 * h
  {
    SlopesOfHeightAndYaw(s, h, u, 0); SlopesOfHeightAndYaw(s, h, u, 1);
    SlopesOfHeightAndYaw(s, h, u, 2); SlopesOfHeightAndYaw(s, h, u, 3);
    CombinedThrust(h, s[5], Slope(s, h, u, 0)[5], Slope(s, h, u, 1)[5], Slope(s, h, u, 2)[5], Slope(s, h, u, 3)[5],
                   u(0).u1, u(1).u1, u(2).u1, u(3).u1);
  }

  lemma {:induction false} StepTorque(s: Vec, h: real, u: Replies)
    requires |s| == 12
    ensures 0.012 * (Rk4(s, h, u)[11] - s[11]) == h / 6.0 * Weighed4(Yaw, u)
  {
    SlopesOfHeightAndYaw(s, h, u, 0); SlopesOfHeightAndYaw(s, h, u, 1);
    SlopesOfHeightAndYaw(s, h, u, 2); SlopesOfHeightAndYaw(s, h, u, 3);
    CombinedTorque(h, s[11], Slope(s, h, u, 0)[11], Slope(s, h, u, 1)[11], Slope(s, h, u, 2)[11], Slope(s, h, u, 3)[11],
                   u(0).u4, u(1).u4, u(2).u4, u(3).u4);
  }

  lemma {:induction false} ImpulseNext(number: Command -> real, u: Replies, n: nat)
    ensures Impulse(number, u, n + 1) == Impulse(number, u, n) + Weighed4(number, Shift(u, 4 * n))
  {
  }

  lemma {:induction false} ThrustAdds(start: real, now: real, next: real, h: real, n: real, impulse: real, more: real)
    requires 0.53 * (now - start) == h / 6.0 * impulse - 0.53 * 9.81 * (n * h)
    requires 0.53 * (next - now) == h / 6.0 * more - 0.53 * 9.81 * h
    ensures 0.53 * (next - start) == h / 6.0 * (impulse + more) - 0.53 * 9.81 * ((n + 1.0) * h)
  {
    assert h / 6.0 * (impulse + more) == h / 6.0 * impulse + h / 6.0 * more;
    assert (n + 1.0) * h == n * h + h;
  }

  lemma {:induction false} TorqueAdds(start: real, now: real, next: real, h: real, impulse: real, more: real)
    requires 0.012 * (now - start) == h / 6.0 * impulse && 0.012 * (next - now) == h / 6.0 * more
    ensures 0.012 * (next - start) == h / 6.0 * (impulse + more)
  {
  }

  /** The momenta gained between two states against the impulses of `n` steps' thrusts and yaw torques. */
  ghost predicate Balances(s: Vec, s': Vec, h: real, n: real, thrusts: real, torques: real)
    requires |s| == |s'| == 12
  {
    && 0.53 * (s'[5] - s[5]) == h / 6.0 * thrusts - 0.53 * 9.81 * (n * h)
    && 0.012 * (s'[11] - s[11]) == h / 6.0 * torques
  }

  lemma {:induction false} BalanceAtStart(s: Vec, h: real)
    requires |s| == 12
    ensures Balances(s, s, h, 0.0, 0.0, 0.0)
  {
  }

  lemma {:induction false} BalanceNext(s: Vec, s': Vec, h: real, v: Replies, n: real, thrusts: real, torques: real)
    requires |s| == |s'| == 12 && Balances(s, s', h, n, thrusts, torques)
    ensures Balances(s, Rk4(s', h, v), h, n + 1.0, thrusts + Weighed4(Thrust, v), torques + Weighed4(Yaw, v))
  {
    var s'' := Rk4(s', h, v);
    StepThrust(s', h, v);
    StepTorque(s', h, v);
    ThrustAdds(s[5], s'[5], s''[5], h, n, thrusts, Weighed4(Thrust, v));
    TorqueAdds(s[11], s'[11], s''[11], h, torques, Weighed4(Yaw, v));
  }

  lemma {:induction false} BalanceCarries(s: Vec, s': Vec, s'': Vec, h: real, v: Replies, n: real, n': real,
                                          a: real, a': real, b: real, b': real)
    requires |s| == |s'| == 12 && Balances(s, s', h, n, a, b)
    requires s'' == Rk4(s', h, v) && n' == n + 1.0 && a' == a + Weighed4(Thrust, v) && b' == b + Weighed4(Yaw, v)
    ensures Balances(s, s'', h, n', a', b')
  {
    BalanceNext(s, s', h, v, n, a, b);
  }

  lemma {:induction false} BalanceAfter(s: Vec, h: real, u: Replies, n: nat)
    requires |s| == 12
    requires Balances(s, StateAfter(s, h, u, n), h, n as real, Impulse(Thrust, u, n), Impulse(Yaw, u, n))
    ensures Balances(s, StateAfter(s, h, u, n + 1), h, (n + 1) as real, Impulse(Thrust, u, n + 1),
                     Impulse(Yaw, u, n + 1))
  {
    StepAfter(s, h, u, n);
    ImpulseNext(Thrust, u, n);
    ImpulseNext(Yaw, u, n);
    BalanceCarries(s, StateAfter(s, h, u, n), StateAfter(s, h, u, n + 1), h, Shift(u, 4 * n), n as real,
                   (n + 1) as real,
                   Impulse(Thrust, u, n), Impulse(Thrust, u, n + 1), Impulse(Yaw, u, n), Impulse(Yaw, u, n + 1));
  }

  /** Accounts of a whole simulation: what the height's rate has gained, times the mass, is the impulse of the
      thrusts replied less the weight's, and what the yaw rate has gained, times the moment of inertia, the
      impulse of the yaw torques -- each reply of each step counted once, with its weight. */
  lemma {:induction false} MomentumIsImpulse(s: Vec, h: real, u: Replies, n: nat)
    requires |s| == 12
    ensures Balances(s, StateAfter(s, h, u, n), h, n as real, Impulse(Thrust, u, n), Impulse(Yaw, u, n))
    decreases n
  {
    if n == 0 {
      BalanceAtStart(s, h);
    } else {
      MomentumIsImpulse(s, h, u, n - 1);
      BalanceAfter(s, h, u, n - 1);
    }
  }
}
