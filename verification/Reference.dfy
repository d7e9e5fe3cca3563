/** The reference trajectory (server/nrutil.c:114-136, the same text in client/nrutil.c): a raised
    hyperbolic tangent and four further entries meant as its derivatives. */
module Reference {
  import opened Formal

  /** Entries res[1] to res[5]. */
  datatype Jet = Jet(r0: real, r1: real, r2: real, r3: real, r4: real)

  /** The five entries from phi = tanh(st * (t - tRaise)) and aR = (highVal - lowVal) / 2. */
  function JetAt(phi: real, st: real, low: real, aR: real): Jet {
    var phi2_1 := 1.0 - phi * phi;
    var st2 := st * st;
    var st3 := st2 * st;
    var st4 := st3 * st;
    Jet(
      aR * (1.0 + phi) + low,
      aR * st * phi2_1,
      2.0 * aR * st2 * phi * phi2_1,
      -2.0 * aR * st3 * phi2_1 * (1.0 - 3.0 * phi * phi),
      8.0 * aR * st4 * phi * (3.0 * (phi * phi * phi * phi) - 5.0 * phi * phi + 2.0))
  }

  function TanRh(tanh: real -> real, t: real, st: real, low: real, high: real, tRaise: real): Jet {
    JetAt(tanh(st * (t - tRaise)), st, low, (high - low) / 2.0)
  }

  // ---- The entries as polynomials in phi ----

  const PHI := Var(0)
  const PHI2 := Mul(PHI, PHI)

  function OneMinus(e: Expr): Expr { Sub(Const(1.0), e) }

  /** phi' = st * (1 - phi^2), the differential equation of tanh(st * (t - tRaise)). */
  function TanhRules(st: real): Rules {
    (v: nat) => if v == 0 then Scale(st, OneMinus(PHI2)) else Const(0.0)
  }

  function E0(aR: real, low: real): Expr { Add(Scale(aR, Add(Const(1.0), PHI)), Const(low)) }

  function E1(k: real): Expr { Scale(k, OneMinus(PHI2)) }

  function E2(k: real): Expr { Scale(k, Mul(PHI, OneMinus(PHI2))) }

  function E3(k: real): Expr { Scale(k, Mul(OneMinus(PHI2), OneMinus(Scale(3.0, PHI2)))) }

  function E4(k: real): Expr {
    Scale(k, Mul(PHI, Add(Sub(Scale(3.0, Mul(PHI2, PHI2)), Scale(5.0, PHI2)), Const(2.0))))
  }

  /** The factor in front of entry `k`. */
  function Gain(k: nat, st: real, aR: real): real {
    if k == 0 then aR
    else if k == 1 then aR * st
    else if k == 2 then 2.0 * aR * (st * st)
    else if k == 3 then -2.0 * aR * (st * st * st)
    else 8.0 * aR * (st * st * st * st)
  }

  function Entry(k: nat, st: real, low: real, aR: real): Expr {
    var gain := Gain(k, st, aR);
    if k == 0 then E0(gain, low)
    else if k == 1 then E1(gain)
    else if k == 2 then E2(gain)
    else if k == 3 then E3(gain)
    else E4(gain)
  }

  /** The value of entry `k` as the polynomials above have it. */
  function EntryValue(k: nat, gain: real, low: real, p: real): real {
    if k == 0 then gain * (1.0 + p) + low
    else if k == 1 then gain * (1.0 - p * p)
    else if k == 2 then gain * (p * (1.0 - p * p))
    else if k == 3 then gain * ((1.0 - p * p) * (1.0 - 3.0 * (p * p)))
    else gain * (p * (3.0 * ((p * p) * (p * p)) - 5.0 * (p * p) + 2.0))
  }

  function Component(j: Jet, k: nat): real
    requires k < 5
  {
    match k case 0 => j.r0 case 1 => j.r1 case 2 => j.r2 case 3 => j.r3 case _ => j.r4
  }

  lemma {:induction false} EvalPhi2(env: Env)
    ensures Eval(PHI2, env) == env(0) * env(0)
    ensures Eval(OneMinus(PHI2), env) == 1.0 - env(0) * env(0)
  {
    assert Eval(PHI, env) == env(0);
    EvalSub(Const(1.0), PHI2, env);
  }

  lemma {:induction false} DPhi2(st: real, env: Env)
    ensures var p := env(0); var d := st * (1.0 - p * p);
            && Eval(D(PHI, TanhRules(st)), env) == d
            && Eval(D(PHI2, TanhRules(st)), env) == 2.0 * p * d
            && Eval(D(OneMinus(PHI2), TanhRules(st)), env) == -2.0 * p * d
  {
    var rules := TanhRules(st);
    EvalPhi2(env);
    EvalScale(st, OneMinus(PHI2), env);
    assert D(PHI, rules) == rules(0);
    DMul(PHI, PHI, rules, env);
    DSub(Const(1.0), PHI2, rules, env);
    assert Eval(D(Const(1.0), rules), env) == 0.0;
  }

  lemma {:induction false} E1Chain(k: real, st: real, env: Env)
    ensures var p := env(0);
            && Eval(E1(k), env) == k * (1.0 - p * p)
            && Eval(D(E1(k), TanhRules(st)), env) == -2.0 * (k * (p * (st * (1.0 - p * p))))
  {
    EvalPhi2(env);
    DPhi2(st, env);
    EvalScale(k, OneMinus(PHI2), env);
    DScale(k, OneMinus(PHI2), TanhRules(st), env);
  }

  lemma {:induction false} E2Chain(k: real, st: real, env: Env)
    ensures var p := env(0); var d := st * (1.0 - p * p);
            && Eval(E2(k), env) == k * (p * (1.0 - p * p))
            && Eval(D(E2(k), TanhRules(st)), env) == k * (d * (1.0 - p * p) + p * (-2.0 * p * d))
  {
    var e := Mul(PHI, OneMinus(PHI2));
    EvalPhi2(env);
    DPhi2(st, env);
    EvalScale(k, e, env);
    DScale(k, e, TanhRules(st), env);
    DMul(PHI, OneMinus(PHI2), TanhRules(st), env);
  }

  lemma {:induction false} E3Chain(k: real, st: real, env: Env)
    ensures var p := env(0); var d := st * (1.0 - p * p);
            && Eval(E3(k), env) == k * ((1.0 - p * p) * (1.0 - 3.0 * (p * p)))
            && Eval(D(E3(k), TanhRules(st)), env)
               == k * ((-2.0 * p * d) * (1.0 - 3.0 * (p * p)) + (1.0 - p * p) * (-3.0 * (2.0 * p * d)))
  {
    var rules := TanhRules(st);
    var f := Scale(3.0, PHI2);
    EvalPhi2(env);
    DPhi2(st, env);
    EvalScale(3.0, PHI2, env); DScale(3.0, PHI2, rules, env);
    EvalSub(Const(1.0), f, env); DSub(Const(1.0), f, rules, env);
    assert Eval(D(Const(1.0), rules), env) == 0.0;
    var e := Mul(OneMinus(PHI2), OneMinus(f));
    EvalScale(k, e, env); DScale(k, e, rules, env);
    DMul(OneMinus(PHI2), OneMinus(f), rules, env);
  }

  lemma {:induction false} E0Value(k: real, low: real, env: Env)
    ensures Eval(E0(k, low), env) == EntryValue(0, k, low, env(0))
  {
    EvalScale(k, Add(Const(1.0), PHI), env);
  }

  lemma {:induction false} E1Value(k: real, env: Env)
    ensures Eval(E1(k), env) == EntryValue(1, k, 0.0, env(0))
  {
    EvalPhi2(env);
    EvalScale(k, OneMinus(PHI2), env);
  }

  lemma {:induction false} E2Value(k: real, env: Env)
    ensures Eval(E2(k), env) == EntryValue(2, k, 0.0, env(0))
  {
    EvalPhi2(env);
    EvalMul(PHI, OneMinus(PHI2), env);
    EvalScale(k, Mul(PHI, OneMinus(PHI2)), env);
  }

  lemma {:induction false} E3Value(k: real, env: Env)
    ensures Eval(E3(k), env) == EntryValue(3, k, 0.0, env(0))
  {
    EvalPhi2(env);
    EvalScale(3.0, PHI2, env);
    EvalSub(Const(1.0), Scale(3.0, PHI2), env);
    EvalMul(OneMinus(PHI2), OneMinus(Scale(3.0, PHI2)), env);
    EvalScale(k, Mul(OneMinus(PHI2), OneMinus(Scale(3.0, PHI2))), env);
  }

  lemma {:induction false} E4Value(k: real, env: Env)
    ensures var p := env(0);
            Eval(E4(k), env) == k * (p * (3.0 * ((p * p) * (p * p)) - 5.0 * (p * p) + 2.0))
  {
    EvalPhi2(env);
    var quartic, square := Mul(PHI2, PHI2), Scale(5.0, PHI2);
    EvalScale(3.0, quartic, env);
    EvalScale(5.0, PHI2, env);
    EvalSub(Scale(3.0, quartic), square, env);
    EvalScale(k, Mul(PHI, Add(Sub(Scale(3.0, quartic), square), Const(2.0))), env);
  }

  lemma {:induction false} EntryEvaluates(k: nat, st: real, low: real, aR: real, env: Env)
    requires k < 5
    ensures Eval(Entry(k, st, low, aR), env) == EntryValue(k, Gain(k, st, aR), low, env(0))
  {
    var gain := Gain(k, st, aR);
    if k == 0 {
      E0Value(gain, low, env);
    } else if k == 1 {
      E1Value(gain, env);
    } else if k == 2 {
      E2Value(gain, env);
    } else if k == 3 {
      E3Value(gain, env);
    } else {
      E4Value(gain, env);
    }
  }

  // Entries 3 and 4: as the code multiplies them out, regrouped, and as `EntryValue` has them.

  lemma {:induction false} Code3(st: real, low: real, aR: real, p: real)
    ensures JetAt(p, st, low, aR).r3 == -2.0 * aR * (st * st * st) * (1.0 - p * p) * (1.0 - 3.0 * p * p)
  {
  }

  lemma {:induction false} Regrouped3(st: real, aR: real, p: real)
    ensures -2.0 * aR * (st * st * st) * (1.0 - p * p) * (1.0 - 3.0 * p * p)
            == -2.0 * aR * (st * st * st) * ((1.0 - p * p) * (1.0 - 3.0 * (p * p)))
  {
  }

  lemma {:induction false} Value3(st: real, low: real, aR: real, p: real)
    ensures EntryValue(3, Gain(3, st, aR), low, p)
            == -2.0 * aR * (st * st * st) * ((1.0 - p * p) * (1.0 - 3.0 * (p * p)))
  {
  }

  lemma {:induction false} Code4(st: real, low: real, aR: real, p: real)
    ensures JetAt(p, st, low, aR).r4
            == 8.0 * aR * (st * st * st * st) * p * (3.0 * (p * p * p * p) - 5.0 * p * p + 2.0)
  {
  }

  lemma {:induction false} Regrouped4(st: real, aR: real, p: real)
    ensures 8.0 * aR * (st * st * st * st) * p * (3.0 * (p * p * p * p) - 5.0 * p * p + 2.0)
            == 8.0 * aR * (st * st * st * st) * (p * (3.0 * ((p * p) * (p * p)) - 5.0 * (p * p) + 2.0))
  {
  }

  lemma {:induction false} Value4(st: real, low: real, aR: real, p: real)
    ensures EntryValue(4, Gain(4, st, aR), low, p)
            == 8.0 * aR * (st * st * st * st) * (p * (3.0 * ((p * p) * (p * p)) - 5.0 * (p * p) + 2.0))
  {
  }

  lemma {:induction false} LowComponents(st: real, low: real, aR: real, p: real)
    ensures EntryValue(0, Gain(0, st, aR), low, p) == JetAt(p, st, low, aR).r0
    ensures EntryValue(1, Gain(1, st, aR), low, p) == JetAt(p, st, low, aR).r1
    ensures EntryValue(2, Gain(2, st, aR), low, p) == JetAt(p, st, low, aR).r2
  {
  }

  lemma {:induction false} ComponentIs(k: nat, st: real, low: real, aR: real, p: real)
    requires k < 5
    ensures EntryValue(k, Gain(k, st, aR), low, p) == Component(JetAt(p, st, low, aR), k)
  {
    if k == 3 {
      Code3(st, low, aR, p);
      Regrouped3(st, aR, p);
      Value3(st, low, aR, p);
    } else if k == 4 {
      Code4(st, low, aR, p);
      Regrouped4(st, aR, p);
      Value4(st, low, aR, p);
    } else {
      LowComponents(st, low, aR, p);
    }
  }

  /** The expressions denote the code's entries. */
  lemma {:induction false} EntryIsComponent(k: nat, st: real, low: real, aR: real, env: Env)
    requires k < 5
    ensures Eval(Entry(k, st, low, aR), env) == Component(JetAt(env(0), st, low, aR), k)
  {
    EntryEvaluates(k, st, low, aR, env);
    ComponentIs(k, st, low, aR, env(0));
  }

  lemma {:induction false} E0Chain(aR: real, low: real, st: real, env: Env)
    ensures var p := env(0);
            && Eval(E0(aR, low), env) == aR * (1.0 + p) + low
            && Eval(D(E0(aR, low), TanhRules(st)), env) == aR * (st * (1.0 - p * p))
  {
    var rules := TanhRules(st);
    var f := Add(Const(1.0), PHI);
    DPhi2(st, env);
    EvalScale(aR, f, env); DScale(aR, f, rules, env);
    DAdd(Const(1.0), PHI, rules, env);
    DAdd(Scale(aR, f), Const(low), rules, env);
    assert Eval(D(Const(1.0), rules), env) == 0.0 && Eval(D(Const(low), rules), env) == 0.0;
  }

  lemma {:induction false} SecondStep(aR: real, st: real, p: real)
    ensures -2.0 * (aR * st * (p * (st * (1.0 - p * p)))) == -(2.0 * aR * (st * st) * (p * (1.0 - p * p)))
  {
  }

  lemma {:induction false} ThirdStep(aR: real, st: real, p: real)
    ensures var d := st * (1.0 - p * p);
            2.0 * aR * (st * st) * (d * (1.0 - p * p) + p * (-2.0 * p * d))
            == -(-2.0 * aR * (st * st * st) * ((1.0 - p * p) * (1.0 - 3.0 * (p * p))))
  {
    var d := st * (1.0 - p * p);
    assert d * (1.0 - p * p) + p * (-2.0 * p * d) == d * (1.0 - 3.0 * (p * p));
  }

  lemma {:induction false} FourthStep(aR: real, st: real, p: real)
    ensures var d := st * (1.0 - p * p);
            -2.0 * aR * (st * st * st) * ((-2.0 * p * d) * (1.0 - 3.0 * (p * p))
                                          + (1.0 - p * p) * (-3.0 * (2.0 * p * d)))
            == 8.0 * aR * (st * st * st * st) * (p * (3.0 * ((p * p) * (p * p)) - 5.0 * (p * p) + 2.0))
  {
    var d := st * (1.0 - p * p);
    assert (-2.0 * p * d) * (1.0 - 3.0 * (p * p)) + (1.0 - p * p) * (-3.0 * (2.0 * p * d))
           == p * d * (12.0 * (p * p) - 8.0);
    assert (1.0 - p * p) * (12.0 * (p * p) - 8.0) == -4.0 * (3.0 * ((p * p) * (p * p)) - 5.0 * (p * p) + 2.0);
  }

  /** Each entry differentiates to the next one, except that the sign flips on entering and leaving
      entry 2, which is the negated second derivative. */
  function Sign(k: nat): real { if k == 1 || k == 2 then -1.0 else 1.0 }

  lemma {:induction false} Entry0Differentiates(st: real, low: real, aR: real, env: Env)
    ensures Eval(D(E0(aR, low), TanhRules(st)), env) == Eval(E1(aR * st), env)
  {
    E0Chain(aR, low, st, env);
    E1Chain(aR * st, st, env);
  }

  lemma {:induction false} Entry1Differentiates(st: real, aR: real, env: Env)
    ensures Eval(D(E1(aR * st), TanhRules(st)), env) == -Eval(E2(2.0 * aR * (st * st)), env)
  {
    E1Chain(aR * st, st, env);
    E2Chain(2.0 * aR * (st * st), st, env);
    SecondStep(aR, st, env(0));
  }

  lemma {:induction false} Entry2Differentiates(st: real, aR: real, env: Env)
    ensures Eval(D(E2(2.0 * aR * (st * st)), TanhRules(st)), env) == -Eval(E3(-2.0 * aR * (st * st * st)), env)
  {
    E2Chain(2.0 * aR * (st * st), st, env);
    E3Chain(-2.0 * aR * (st * st * st), st, env);
    ThirdStep(aR, st, env(0));
  }

  lemma {:induction false} Entry3Differentiates(st: real, aR: real, env: Env)
    ensures Eval(D(E3(-2.0 * aR * (st * st * st)), TanhRules(st)), env)
            == Eval(E4(8.0 * aR * (st * st * st * st)), env)
  {
    E3Chain(-2.0 * aR * (st * st * st), st, env);
    E4Value(8.0 * aR * (st * st * st * st), env);
    FourthStep(aR, st, env(0));
  }

  lemma {:induction false} EntryDifferentiates(k: nat, st: real, low: real, aR: real, env: Env)
    requires k < 4
    ensures Eval(D(Entry(k, st, low, aR), TanhRules(st)), env)
            == Sign(k) * Eval(Entry(k + 1, st, low, aR), env)
  {
    if k == 0 {
      Entry0Differentiates(st, low, aR, env);
    } else if k == 1 {
      Entry1Differentiates(st, aR, env);
    } else if k == 2 {
      Entry2Differentiates(st, aR, env);
    } else {
      Entry3Differentiates(st, aR, env);
    }
  }

  /** Entry `k` as a k-th derivative of entry 0: only the second is turned round. */
  function Oriented(k: nat, x: real): real { if k == 2 then -x else x }

  lemma {:induction false} OrientedNext(j: nat, x: real, y: real)
    requires j < 4 && y == Sign(j) * x
    ensures Oriented(j, y) == Oriented(j + 1, x)
  {
  }

  /** One entry down: the derivatives of entry `j` are those of the next one, up to `Sign(j)`. */
  lemma {:induction false} EntryShifts(j: nat, n: nat, st: real, low: real, aR: real, env: Env)
    requires j < 4 && n > 0
    ensures Eval(Dn(Entry(j, st, low, aR), TanhRules(st), n), env)
            == Sign(j) * Eval(Dn(Entry(j + 1, st, low, aR), TanhRules(st), n - 1), env)
  {
    var rules := TanhRules(st);
    var e, f := D(Entry(j, st, low, aR), rules), Scale(Sign(j), Entry(j + 1, st, low, aR));
    forall other: Env ensures Eval(e, other) == Eval(f, other) {
      EntryDifferentiates(j, st, low, aR, other);
      EvalScale(Sign(j), Entry(j + 1, st, low, aR), other);
    }
    SameFunctionSameDn(e, f, rules, n - 1, env);
    DnScale(Sign(j), Entry(j + 1, st, low, aR), rules, n - 1, env);
  }

  lemma {:induction false} EntryDerivativeFrom(j: nat, n: nat, st: real, low: real, aR: real, env: Env)
    requires j + n < 5
    ensures Oriented(j, Eval(Dn(Entry(j, st, low, aR), TanhRules(st), n), env))
            == Oriented(j + n, Eval(Entry(j + n, st, low, aR), env))
    decreases n
  {
    if n > 0 {
      var rules := TanhRules(st);
      EntryShifts(j, n, st, low, aR, env);
      EntryDerivativeFrom(j + 1, n - 1, st, low, aR, env);
      OrientedNext(j, Eval(Dn(Entry(j + 1, st, low, aR), rules, n - 1), env),
                   Eval(Dn(Entry(j, st, low, aR), rules, n), env));
    }
  }

  /** The code's five entries against the true derivatives of the first: entries 1, 3 and 4 are the
      first, third and fourth derivative, and entry 2 is the second derivative with the wrong sign. */
  lemma {:induction false} JetAgainstDerivatives(k: nat, st: real, low: real, high: real, env: Env)
    requires k < 5
    ensures var aR := (high - low) / 2.0;
            Eval(Dn(Entry(0, st, low, aR), TanhRules(st), k), env)
            == Oriented(k, Component(JetAt(env(0), st, low, aR), k))
  {
    var aR := (high - low) / 2.0;
    EntryDerivativeFrom(0, k, st, low, aR, env);
    EntryIsComponent(k, st, low, aR, env);
  }

  /** So the second entry is the second derivative exactly where that derivative vanishes. */
  lemma {:induction false} SecondEntryRightOnlyAtZero(st: real, low: real, high: real, env: Env)
    ensures var aR := (high - low) / 2.0; var p := env(0);
            Eval(Dn(Entry(0, st, low, aR), TanhRules(st), 2), env) == JetAt(p, st, low, aR).r2
            <==> (high == low || st == 0.0 || p == 0.0 || p == 1.0 || p == -1.0)
  {
    JetAgainstDerivatives(2, st, low, high, env);
    var aR, p := (high - low) / 2.0, env(0);
    var r2 := JetAt(p, st, low, aR).r2;
    assert Component(JetAt(p, st, low, aR), 2) == r2;
    ProductVanishes(aR, st, p);
  }

  lemma {:induction false} ProductVanishes(aR: real, st: real, p: real)
    ensures 2.0 * aR * (st * st) * p * (1.0 - p * p) == 0.0
            <==> (aR == 0.0 || st == 0.0 || p == 0.0 || p == 1.0 || p == -1.0)
  {
    ZeroProduct(st, st);
    ZeroProduct(aR, st * st);
    ZeroProduct(1.0 - p, 1.0 + p);
    ZeroProduct(p, 1.0 - p * p);
    ZeroProduct(aR * (st * st), p * (1.0 - p * p));
    assert 2.0 * aR * (st * st) * p * (1.0 - p * p) == 2.0 * ((aR * (st * st)) * (p * (1.0 - p * p)));
  }

  lemma {:induction false} ZeroProduct(x: real, y: real)
    ensures x * y == 0.0 <==> x == 0.0 || y == 0.0
  {
    if x != 0.0 && y != 0.0 {
      assert x * y / y == x;
    }
  }

  // ---- In terms of the call ----

  /** What is used of tanh: its bounds and its only zero. */
  ghost predicate LikeTanh(tanh: real -> real) {
    forall x: real :: -1.0 < tanh(x) < 1.0 && (tanh(x) == 0.0 <==> x == 0.0)
  }

  /** Entry 2 returned by a call is the second derivative of its entry 0 there. */
  ghost predicate SecondEntryRight(tanh: real -> real, t: real, st: real, low: real, high: real, tRaise: real, env: Env)
    requires env(0) == tanh(st * (t - tRaise))
  {
    Eval(Dn(Entry(0, st, low, (high - low) / 2.0), TanhRules(st), 2), env) == TanRh(tanh, t, st, low, high, tRaise).r2
  }

  /** Which calls get the second entry right: constant references, and any reference at the middle of its
      rise. */
  lemma {:induction false} SecondEntryRightExactly(
    tanh: real -> real, t: real, st: real, low: real, high: real, tRaise: real, env: Env)
    requires LikeTanh(tanh) && env(0) == tanh(st * (t - tRaise))
    ensures SecondEntryRight(tanh, t, st, low, high, tRaise, env) <==> high == low || st == 0.0 || t == tRaise
  {
    var x := st * (t - tRaise);
    assert -1.0 < tanh(x) < 1.0 && (tanh(x) == 0.0 <==> x == 0.0);
    ZeroProduct(st, t - tRaise);
    SecondEntryRightOnlyAtZero(st, low, high, env);
  }

  // The arguments of both programs' calls (server/calculate.c:14-17).
  const SIGMA := 1.0
  const LOW_VAL := 0.0
  const HIGH_VAL := 10.0
  const T_RAISE := 5.0

  /** The programs' own call has the second derivative's sign wrong at every time but one. */
  lemma {:induction false} SecondEntryRightOnlyAtFive(tanh: real -> real, t: real, env: Env)
    requires LikeTanh(tanh) && env(0) == tanh(SIGMA * (t - T_RAISE))
    ensures SecondEntryRight(tanh, t, SIGMA, LOW_VAL, HIGH_VAL, T_RAISE, env) <==> t == T_RAISE
  {
    SecondEntryRightExactly(tanh, t, SIGMA, LOW_VAL, HIGH_VAL, T_RAISE, env);
  }

  // ---- Every entry of a call ----

  /** The trajectory a call is meant to follow, in phi. */
  function Rise(low: real, high: real): Expr {
    Add(Const(low), Scale((high - low) / 2.0, Add(Const(1.0), PHI)))
  }

  lemma {:induction false} RiseIsEntry0(st: real, low: real, high: real, k: nat, env: Env)
    ensures Eval(Dn(Rise(low, high), TanhRules(st), k), env)
            == Eval(Dn(Entry(0, st, low, (high - low) / 2.0), TanhRules(st), k), env)
  {
    var aR := (high - low) / 2.0;
    var e, f := Rise(low, high), Entry(0, st, low, aR);
    forall other: Env ensures Eval(e, other) == Eval(f, other) {
      EvalScale(aR, Add(Const(1.0), PHI), other);
    }
    SameFunctionSameDn(e, f, TanhRules(st), k, env);
  }

  /** All five entries of a call, against the derivatives of low + (high - low)/2 * (1 + phi) along
      phi' = st * (1 - phi^2) at phi = tanh(st * (t - tRaise)): the second alone has the wrong sign. */
  lemma {:induction false} CallAgainstDerivatives(
    tanh: real -> real, t: real, st: real, low: real, high: real, tRaise: real, k: nat, env: Env)
    requires k < 5 && env(0) == tanh(st * (t - tRaise))
    ensures Eval(Rise(low, high), env) == low + (high - low) / 2.0 * (1.0 + env(0))
    ensures Eval(TanhRules(st)(0), env) == st * (1.0 - env(0) * env(0))
    ensures var entry := Component(TanRh(tanh, t, st, low, high, tRaise), k);
            Eval(Dn(Rise(low, high), TanhRules(st), k), env) == if k == 2 then -entry else entry
  {
    EvalScale((high - low) / 2.0, Add(Const(1.0), PHI), env);
    EvalPhi2(env);
    EvalScale(st, OneMinus(PHI2), env);
    RiseIsEntry0(st, low, high, k, env);
    JetAgainstDerivatives(k, st, low, high, env);
  }

  lemma {:induction false} InsideTwice(x: real, y: real)
    requires x > 0.0 && 0.0 < y < 2.0
    ensures 0.0 < Prod(x, y) < 2.0 * x && (Prod(x, y) == x <==> y == 1.0)
  {
    PositiveProduct(x, y);
    PositiveProduct(x, 2.0 - y);
    ZeroProduct(x, y - 1.0);
    assert x * (2.0 - y) == 2.0 * x - x * y && x * (y - 1.0) == x * y - x;
  }

  lemma {:induction false} PositiveProduct(x: real, y: real)
    requires x > 0.0 && y > 0.0
    ensures x * y > 0.0
  {
  }

  lemma {:induction false} PhiIsZero(tanh: real -> real, t: real, st: real, tRaise: real)
    requires LikeTanh(tanh) && st != 0.0
    ensures var phi := tanh(st * (t - tRaise)); -1.0 < phi < 1.0 && (phi == 0.0 <==> t == tRaise)
  {
    var x := st * (t - tRaise);
    assert -1.0 < tanh(x) < 1.0 && (tanh(x) == 0.0 <==> x == 0.0);
    ZeroProduct(st, t - tRaise);
  }

  lemma {:induction false} Places(low: real, high: real, aR: real, rise: real, phi: real)
    requires high == low + 2.0 * aR && 0.0 < rise < 2.0 * aR && (rise == aR <==> phi == 0.0)
    ensures low < rise + low < high && (rise + low == (low + high) / 2.0 <==> phi == 0.0)
  {
  }

  lemma {:induction false} Height(phi: real, st: real, low: real, aR: real)
    ensures JetAt(phi, st, low, aR).r0 == Prod(aR, 1.0 + phi) + low
  {
  }

  lemma {:induction false} RisesTo(phi: real, low: real, high: real, h: real)
    requires -1.0 < phi < 1.0 && low < high && h == Prod((high - low) / 2.0, 1.0 + phi) + low
    ensures low < h < high && (h == (low + high) / 2.0 <==> phi == 0.0)
  {
    InsideTwice((high - low) / 2.0, 1.0 + phi);
    Places(low, high, (high - low) / 2.0, Prod((high - low) / 2.0, 1.0 + phi), phi);
  }

  /** The reference stays strictly between its two heights, and is half-way exactly at the middle of its
      rise. */
  lemma {:induction false} ReferenceRises(tanh: real -> real, t: real, st: real, low: real, high: real, tRaise: real)
    requires LikeTanh(tanh) && low < high && st != 0.0
    ensures var h := TanRh(tanh, t, st, low, high, tRaise).r0;
            low < h < high && (h == (low + high) / 2.0 <==> t == tRaise)
  {
    var phi := tanh(st * (t - tRaise));
    PhiIsZero(tanh, t, st, tRaise);
    Height(phi, st, low, (high - low) / 2.0);
    RisesTo(phi, low, high, TanRh(tanh, t, st, low, high, tRaise).r0);
  }

  /** The five numbers of the programs' own reference at phi. */
  function OwnReference(phi: real): Jet {
    var q := 1.0 - phi * phi;
    Jet(5.0 + 5.0 * phi, 5.0 * q, 10.0 * (phi * q), -10.0 * (q * (1.0 - 3.0 * (phi * phi))),
        40.0 * (phi * (3.0 * (phi * phi * phi * phi) - 5.0 * (phi * phi) + 2.0)))
  }

  lemma {:induction false} OwnCall(tanh: real -> real, t: real)
    ensures TanRh(tanh, t, SIGMA, LOW_VAL, HIGH_VAL, T_RAISE) == OwnReference(tanh(t - 5.0))
  {
    var phi := tanh(t - 5.0);
    assert SIGMA * (t - T_RAISE) == t - 5.0;
    OwnNumbers(phi);
  }

  lemma {:induction false} OwnNumbers(phi: real)
    ensures JetAt(phi, 1.0, 0.0, 5.0) == OwnReference(phi)
  {
  }
}
