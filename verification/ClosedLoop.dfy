/** The whole closed loop: the integrator's payloads travel through the protocol to the control law,
    and the commands come back up to one request late. */
module ClosedLoop {
  import opened Handoff
  import opened Reference
  import opened Flight
  import opened RungeKutta
  import C = Client
  import S = Server
  import System

  // ---- Symmetry of flights that start from the zero state ----

  /** Equal motion along x and y, opposite tilts. */
  ghost predicate Symmetric(v: Vec) {
    |v| >= NVAR && v[0] == v[2] && v[1] == v[3] && v[8] == -v[6] && v[9] == -v[7]
  }

  predicate Balanced(u: Command) { u.u3 == -u.u2 }

  lemma {:induction false} SymmetricDemands(p: Vec, r: Jet)
    requires Symmetric(p)
    ensures V1(p, r) == V2(p, r)
  {
    var (u1, dotU1) := (U1(p, r), TimesM(DotV3(p, r)));
    MirroredTilt(p[6], p[7], u1, dotU1);
    assert p[8] == -p[6] && p[9] == -p[7];
  }

  lemma {:induction false} MirroredTilt(tilt: real, rate: real, u1: real, dotU1: real)
    ensures -OverM(-tilt * u1) == OverM(tilt * u1)
    ensures -OverM(-rate * u1 + -tilt * dotU1) == OverM(rate * u1 + tilt * dotU1)
  {
  }

  /** On a symmetric payload the law's two tilting commands are opposite, whatever the reference. */
  lemma {:induction false} LawIsBalanced(p: Vec, r: Jet)
    requires Symmetric(p)
    ensures Balanced(ControlLaw(p, r))
  {
    SymmetricDemands(p, r);
    var (q, v, d, dd) := (Quotient(0.00623, 9.81 + V3(p, r)), V1(p, r), DotV3(p, r), DdotV3(p, r));
    OppositeCommands(q, v, p[6], p[7], p[8], p[9], d, dd);
  }

  lemma {:induction false} OppositeCommands(q: real, v: real, theta: real, dotTheta: real, phi: real, dotPhi: real,
                                            d: real, dd: real)
    requires phi == -theta && dotPhi == -dotTheta
    ensures -q * (v + 2.0 * dotPhi * d + phi * dd) == -(q * (v - 2.0 * dotTheta * d - theta * dd))
  {
    assert v + 2.0 * dotPhi * d + phi * dd == v - 2.0 * dotTheta * d - theta * dd;
  }

  lemma {:induction false} DerivsKeepSymmetry(x: Vec, u: Command)
    requires |x| == NVAR && Symmetric(x) && Balanced(u)
    ensures Symmetric(Derivs(x, u))
  {
    assert -x[8] == x[6];
  }

  lemma {:induction false} AddScaledKeepsSymmetry(y: Vec, h: real, d: Vec)
    requires |y| == |d| == NVAR && Symmetric(y) && Symmetric(d)
    ensures Symmetric(AddScaled(y, h, d))
  {
    OppositeSums(y[6], y[8], h, d[6], d[8]);
    OppositeSums(y[7], y[9], h, d[7], d[9]);
  }

  lemma {:induction false} OppositeSums(a: real, b: real, h: real, c: real, d: real)
    requires b == -a && d == -c
    ensures b + h * d == -(a + h * c)
  {
  }

  ghost predicate AllBalanced(u: Replies, n: nat) { forall k: nat :: k < n ==> Balanced(u(k)) }

  lemma {:induction false} StagesKeepSymmetry(s: Vec, h: real, u: Replies, j: nat)
    requires |s| == NVAR && Symmetric(s) && AllBalanced(u, j)
    ensures Symmetric(Stage(s, h, u, j))
    decreases j
  {
    if j > 0 {
      StagesKeepSymmetry(s, h, u, j - 1);
      DerivsKeepSymmetry(Stage(s, h, u, j - 1), u(j - 1));
      AddScaledKeepsSymmetry(s, Ahead(h, j), Slope(s, h, u, j - 1));
    }
  }

  lemma {:induction false} SlopesKeepSymmetry(s: Vec, h: real, u: Replies, j: nat)
    requires |s| == NVAR && Symmetric(s) && AllBalanced(u, j + 1)
    ensures Symmetric(Slope(s, h, u, j))
  {
    StagesKeepSymmetry(s, h, u, j);
    DerivsKeepSymmetry(Stage(s, h, u, j), u(j));
  }

  lemma {:induction false} OppositeCombined(h: real, y: real, k1: real, k2: real, k3: real, k4: real)
    ensures Combine(h, -y, -k1, -k2, -k3, -k4) == -Combine(h, y, k1, k2, k3, k4)
  {
    assert -k1 + 2.0 * -k2 + 2.0 * -k3 + -k4 == -(k1 + 2.0 * k2 + 2.0 * k3 + k4);
  }

  lemma {:induction false} CombinedSymmetry(s: Vec, h: real, k1: Vec, k2: Vec, k3: Vec, k4: Vec, r: Vec)
    requires |s| == |k1| == |k2| == |k3| == |k4| == |r| == NVAR
    requires Symmetric(s) && Symmetric(k1) && Symmetric(k2) && Symmetric(k3) && Symmetric(k4)
    requires forall i :: 0 <= i < NVAR ==> r[i] == Combine(h, s[i], k1[i], k2[i], k3[i], k4[i])
    ensures Symmetric(r)
  {
    OppositeCombined(h, s[6], k1[6], k2[6], k3[6], k4[6]);
    OppositeCombined(h, s[7], k1[7], k2[7], k3[7], k4[7]);
  }

  lemma {:induction false} Rk4KeepsSymmetry(s: Vec, h: real, u: Replies)
    requires |s| == NVAR && Symmetric(s) && AllBalanced(u, 4)
    ensures Symmetric(Rk4(s, h, u))
  {
    SlopesKeepSymmetry(s, h, u, 0);
    SlopesKeepSymmetry(s, h, u, 1);
    SlopesKeepSymmetry(s, h, u, 2);
    SlopesKeepSymmetry(s, h, u, 3);
    CombinedSymmetry(s, h, Slope(s, h, u, 0), Slope(s, h, u, 1), Slope(s, h, u, 2), Slope(s, h, u, 3), Rk4(s, h, u));
  }

  lemma {:induction false} StatesKeepSymmetry(s: Vec, h: real, u: Replies, n: nat)
    requires |s| == NVAR && Symmetric(s) && AllBalanced(u, 4 * n)
    ensures Symmetric(StateAfter(s, h, u, n))
    decreases n
  {
    if n > 0 {
      StatesKeepSymmetry(s, h, u, n - 1);
      assert AllBalanced(Shift(u, 4 * (n - 1)), 4);
      Rk4KeepsSymmetry(StateAfter(s, h, u, n - 1), h, Shift(u, 4 * (n - 1)));
    }
  }

  lemma {:induction false} RequestsKeepSymmetry(s: Vec, t: real, h: real, u: Replies, k: nat)
    requires |s| == NVAR && Symmetric(s) && AllBalanced(u, k)
    ensures Symmetric(Request(s, t, h, u, k))
  {
    var n := k / 4;
    StatesKeepSymmetry(s, h, u, n);
    assert AllBalanced(Shift(u, 4 * n), k % 4);
    StagesKeepSymmetry(StateAfter(s, h, u, n), h, Shift(u, 4 * n), k % 4);
  }

  // ---- What the protocol lets each reply be ----

  /** The payload of each call, by its number. */
  type Payloads = nat -> Vec

  function Asked(s: Vec, t: real, h: real, u: Replies): Payloads
    requires |s| == NVAR
  {
    (k: nat) => Request(s, t, h, u, k)
  }

  /** The payload of the call before, `start` standing before the first. */
  function Before(ask: Payloads, start: Vec, k: nat): Vec { if k == 0 then start else ask(k - 1) }

  /** Reply `k` is the law at the payload of its own call or of the call before. */
  ghost predicate Admissible(law: Law, ask: Payloads, start: Vec, u: Replies, k: nat) {
    u(k) == law(ask(k)) || u(k) == law(Before(ask, start, k))
  }

  ghost predicate AllAdmissible(law: Law, ask: Payloads, start: Vec, u: Replies, n: nat) {
    forall k: nat :: k < n ==> Admissible(law, ask, start, u, k)
  }

  /** The law the server applies to a 13-number batch; the protocol never hands it any other. */
  ghost predicate Computes(law: Law, tanh: real -> real) {
    forall p: Vec {:trigger ServerCalculations(tanh, p)} ::
      |p| == NVAR + 1 ==> law(p) == ServerCalculations(tanh, p)
  }

  ghost predicate SymmetricPayload(p: Vec) { |p| == NVAR + 1 && Symmetric(p) }

  /** All that symmetry needs of a law. */
  ghost predicate Balances(law: Law) {
    forall p: Vec :: SymmetricPayload(p) ==> Balanced(law(p))
  }

  /** All that symmetry needs of a simulation: balanced replies so far make the next payload symmetric. */
  ghost predicate KeepsSymmetry(ask: Payloads, u: Replies) {
    forall k: nat :: AllBalanced(u, k) ==> SymmetricPayload(ask(k))
  }

  lemma {:induction false} ServerBalances(law: Law, tanh: real -> real)
    requires Computes(law, tanh)
    ensures Balances(law)
  {
    forall p: Vec | SymmetricPayload(p)
      ensures Balanced(law(p))
    {
      assert law(p) == ServerCalculations(tanh, p);
      LawIsBalanced(p, TanRh(tanh, p[12], SIGMA, LOW_VAL, HIGH_VAL, T_RAISE));
    }
  }

  lemma {:induction false} IntegratorKeepsSymmetry(s: Vec, t: real, h: real, u: Replies)
    requires |s| == NVAR && Symmetric(s)
    ensures KeepsSymmetry(Asked(s, t, h, u), u)
  {
    forall k: nat | AllBalanced(u, k)
      ensures SymmetricPayload(Asked(s, t, h, u)(k))
    {
      RequestsKeepSymmetry(s, t, h, u, k);
    }
  }

  lemma {:induction false} FewerBalanced(u: Replies, n: nat)
    requires n > 0 && AllBalanced(u, n)
    ensures AllBalanced(u, n - 1)
  {
  }

  lemma {:induction false} BeforeIsSymmetric(ask: Payloads, start: Vec, u: Replies, k: nat)
    requires KeepsSymmetry(ask, u) && SymmetricPayload(start) && AllBalanced(u, k)
    ensures SymmetricPayload(Before(ask, start, k))
  {
    if k > 0 {
      FewerBalanced(u, k);
    }
  }

  /** By induction on the calls: admissible replies are balanced. */
  lemma {:induction false} AdmissibleAreBalanced(law: Law, ask: Payloads, start: Vec, u: Replies, n: nat)
    requires Balances(law) && KeepsSymmetry(ask, u) && SymmetricPayload(start)
    requires AllAdmissible(law, ask, start, u, n)
    ensures AllBalanced(u, n)
    decreases n
  {
    if n > 0 {
      var k := n - 1;
      AdmissibleAreBalanced(law, ask, start, u, k);
      BeforeIsSymmetric(ask, start, u, k);
      assert Admissible(law, ask, start, u, k);
      assert SymmetricPayload(ask(k));
      assert Balanced(u(k));
    }
  }

  /** Whichever of its two admissible commands each stage gets, any number of steps from a symmetric
      state keeps the flight symmetric. */
  lemma {:induction false} FlightStaysSymmetric(law: Law, s: Vec, start: Vec, t: real, h: real, u: Replies, n: nat)
    requires |s| == NVAR && Symmetric(s) && SymmetricPayload(start) && Balances(law)
    requires AllAdmissible(law, Asked(s, t, h, u), start, u, 4 * n)
    ensures Symmetric(StateAfter(s, h, u, n))
  {
    IntegratorKeepsSymmetry(s, t, h, u);
    AdmissibleAreBalanced(law, Asked(s, t, h, u), start, u, 4 * n);
    StatesKeepSymmetry(s, h, u, n);
  }

  // ---- Closing the loop through the protocol ----

  /** The replies so far as the integrator uses them. */
  function Commands(replies: seq<Vec>): Replies {
    (k: nat) =>
      if k < |replies| && |replies[k]| == 4 then Command(replies[k][0], replies[k][1], replies[k][2], replies[k][3])
      else Command(0.0, 0.0, 0.0, 0.0)
  }

  /** The payload loaded at start-up. */
  function Start(): Vec { Zero() + [0.0] }

  /** What the simulation from the zero state asks, given the replies so far. */
  function Simulation(t: real, h: real, replies: seq<Vec>): Payloads { Asked(Zero(), t, h, Commands(replies)) }

  ghost predicate AsksNext(t: real, h: real, replies: seq<Vec>, payload: Vec) {
    payload == Simulation(t, h, replies)(|replies|)
  }

  /** A run of the whole system whose calculator is the integrator: each call's payload is the one the
      simulation from the zero state asks for, given the replies it has had. */
  ghost predicate ClosedRun(law: Law, t: real, h: real, states: seq<System.State>, events: seq<System.Event>) {
    && System.Run(law, states, events)
    && forall i :: 0 <= i < |events| && events[i].Call? ==>
         AsksNext(t, h, states[i].client.caller.replies, events[i].payload)
  }

  /** The requests are the start-up payload and then those of `ask`, at most two ahead of the replies. */
  ghost predicate Follow(requests: seq<Vec>, ask: Payloads, replies: nat) {
    && 1 <= |requests| <= replies + 2
    && requests[0] == Start()
    && forall k :: 1 <= k < |requests| ==> requests[k] == ask(k - 1)
  }

  ghost predicate Simulates(t: real, h: real, requests: seq<Vec>, replies: seq<Vec>) {
    Follow(requests, Simulation(t, h, replies), |replies|)
  }

  lemma {:induction false} LaterReply(t: real, h: real, replies: seq<Vec>, v: Vec, k: nat)
    requires k <= |replies|
    ensures Simulation(t, h, replies)(k) == Simulation(t, h, replies + [v])(k)
  {
    assert Agree(Commands(replies), Commands(replies + [v]), k);
    RequestLocal(Zero(), t, h, Commands(replies), Commands(replies + [v]), k);
  }

  lemma {:induction false} ReplyKeepsSimulates(t: real, h: real, requests: seq<Vec>, replies: seq<Vec>, v: Vec)
    requires Simulates(t, h, requests, replies)
    ensures Simulates(t, h, requests, replies + [v])
  {
    forall k | 1 <= k < |requests|
      ensures requests[k] == Simulation(t, h, replies + [v])(k - 1)
    {
      LaterReply(t, h, replies, v, k - 1);
    }
  }

  lemma {:induction false} CallKeepsSimulates(t: real, h: real, requests: seq<Vec>, replies: seq<Vec>, payload: Vec)
    requires Simulates(t, h, requests, replies) && |requests| == |replies| + 1
    requires AsksNext(t, h, replies, payload)
    ensures Simulates(t, h, requests + [payload], replies)
  {
  }

  lemma {:induction false} ClientAppends(c: C.State, e: C.Thread)
    requires C.Enabled(c, e) && (c.caller.pc != C.Idle ==> |c.caller.payload| == C.PAYLOAD_LEN)
    ensures var c' := C.Step(c, e);
            && c'.requests == c.requests
            && (c'.caller.replies == c.caller.replies || c'.caller.replies == c.caller.replies + [c.caller.u])
  {
  }

  /** An event appends to the requests, appends to the replies, or leaves both alone. */
  lemma {:induction false} EventAppends(law: Law, s: System.State, e: System.Event)
    requires System.Inv(law, s) && System.Enabled(s, e)
    ensures var c, c' := s.client, System.Step(law, s, e).client;
            || (e.Call? && c'.requests == c.requests + [e.payload] && c'.caller.replies == c.caller.replies
                && |c.requests| == |c.caller.replies| + 1)
            || (!e.Call? && c'.requests == c.requests
                && (c'.caller.replies == c.caller.replies || c'.caller.replies == c.caller.replies + [c.caller.u]))
  {
    match e
    case Call(_) =>
    case ClientMove(t) => ClientAppends(s.client, t);
    case ServerMove(_) =>
  }

  lemma {:induction false} EventKeepsSimulates(law: Law, t: real, h: real, s: System.State, e: System.Event)
    requires System.Inv(law, s) && System.Enabled(s, e)
    requires e.Call? ==> AsksNext(t, h, s.client.caller.replies, e.payload)
    requires Simulates(t, h, s.client.requests, s.client.caller.replies)
    ensures var c' := System.Step(law, s, e).client;
            Simulates(t, h, c'.requests, c'.caller.replies)
  {
    EventAppends(law, s, e);
    var c := s.client;
    if e.Call? {
      CallKeepsSimulates(t, h, c.requests, c.caller.replies, e.payload);
    } else {
      ReplyKeepsSimulates(t, h, c.requests, c.caller.replies, c.caller.u);
    }
  }

  lemma {:induction false} InitSimulates(t: real, h: real, s: System.State)
    requires System.Init(s)
    ensures Simulates(t, h, s.client.requests, s.client.caller.replies)
  {
    assert s.client.requests[0] == Start();
  }

  lemma {:induction false} RunSimulates(law: Law, t: real, h: real, states: seq<System.State>,
                                        events: seq<System.Event>)
    requires ClosedRun(law, t, h, states, events)
    ensures var c := states[|events|].client;
            Simulates(t, h, c.requests, c.caller.replies)
    decreases |events|
  {
    if events == [] {
      InitSimulates(t, h, states[0]);
    } else {
      var n := |events| - 1;
      RunSimulates(law, t, h, states[..n + 1], events[..n]);
      System.RunInv(law, states[..n + 1], events[..n]);
      EventKeepsSimulates(law, t, h, states[n], events[n]);
    }
  }

  lemma {:induction false} CommandIs(replies: seq<Vec>, k: nat, u: Command)
    requires k < |replies| && replies[k] == u.Floats()
    ensures Commands(replies)(k) == u && |replies[k]| == 4
  {
  }

  lemma {:induction false} WindowIsAdmissible(law: Law, ask: Payloads, requests: seq<Vec>, replies: seq<Vec>,
                                              picks: seq<nat>, k: nat)
    requires Follow(requests, ask, |replies|) && System.RepliesInWindow(law, requests, replies, picks) && k < |replies|
    ensures Admissible(law, ask, Start(), Commands(replies), k) && |replies[k]| == 4
  {
    CommandIs(replies, k, law(requests[picks[k]]));
  }

  /** Every reply is balanced and every request symmetric. */
  ghost predicate LoopIsSymmetric(requests: seq<Vec>, replies: seq<Vec>) {
    && (forall k :: 0 <= k < |replies| ==> |replies[k]| == 4 && replies[k][2] == -replies[k][1])
    && (forall k :: 0 <= k < |requests| ==> Symmetric(requests[k]))
  }

  lemma {:induction false} WindowsAreAdmissible(law: Law, ask: Payloads, requests: seq<Vec>, replies: seq<Vec>,
                                                picks: seq<nat>)
    requires Follow(requests, ask, |replies|) && System.RepliesInWindow(law, requests, replies, picks)
    ensures AllAdmissible(law, ask, Start(), Commands(replies), |replies|)
    ensures forall k :: 0 <= k < |replies| ==> |replies[k]| == 4
  {
    forall k: nat | k < |replies|
      ensures Admissible(law, ask, Start(), Commands(replies), k) && |replies[k]| == 4
    {
      WindowIsAdmissible(law, ask, requests, replies, picks, k);
    }
  }

  lemma {:induction false} MoreThanBalanced(u: Replies, k: nat, n: nat)
    requires AllBalanced(u, n) && k <= n
    ensures AllBalanced(u, k)
  {
  }

  lemma {:induction false} RequestsAreSymmetric(ask: Payloads, u: Replies, requests: seq<Vec>, n: nat)
    requires Follow(requests, ask, n) && KeepsSymmetry(ask, u) && AllBalanced(u, n)
    ensures forall k :: 0 <= k < |requests| ==> Symmetric(requests[k])
  {
    forall k | 1 <= k < |requests|
      ensures Symmetric(requests[k])
    {
      MoreThanBalanced(u, k - 1, n);
      assert SymmetricPayload(ask(k - 1));
    }
  }

  lemma {:induction false} RepliesAreBalanced(replies: seq<Vec>)
    requires AllBalanced(Commands(replies), |replies|) && forall k :: 0 <= k < |replies| ==> |replies[k]| == 4
    ensures forall k :: 0 <= k < |replies| ==> replies[k][2] == -replies[k][1]
  {
    forall k | 0 <= k < |replies|
      ensures replies[k][2] == -replies[k][1]
    {
      assert Balanced(Commands(replies)(k));
    }
  }

  lemma {:induction false} LoopFollows(law: Law, ask: Payloads, requests: seq<Vec>, replies: seq<Vec>, picks: seq<nat>)
    requires Balances(law) && KeepsSymmetry(ask, Commands(replies))
    requires Follow(requests, ask, |replies|) && System.RepliesInWindow(law, requests, replies, picks)
    ensures AllAdmissible(law, ask, Start(), Commands(replies), |replies|)
    ensures AllBalanced(Commands(replies), |replies|) && LoopIsSymmetric(requests, replies)
  {
    WindowsAreAdmissible(law, ask, requests, replies, picks);
    AdmissibleAreBalanced(law, ask, Start(), Commands(replies), |replies|);
    RequestsAreSymmetric(ask, Commands(replies), requests, |replies|);
    RepliesAreBalanced(replies);
  }

  lemma {:induction false} BalancedLoop(law: Law, t: real, h: real, states: seq<System.State>,
                                        events: seq<System.Event>)
    requires Balances(law) && ClosedRun(law, t, h, states, events)
    ensures var c := states[|events|].client; var replies := c.caller.replies;
            && AllAdmissible(law, Simulation(t, h, replies), Start(), Commands(replies), |replies|)
            && AllBalanced(Commands(replies), |replies|) && LoopIsSymmetric(c.requests, replies)
  {
    RunSimulates(law, t, h, states, events);
    System.RepliesAreFresh(law, states, events);
    var c, picks := states[|events|].client, states[|events|].server.sender.picks;
    IntegratorKeepsSymmetry(Zero(), t, h, Commands(c.caller.replies));
    LoopFollows(law, Simulation(t, h, c.caller.replies), c.requests, c.caller.replies, picks);
  }

  /** Main result. In every reachable state of the whole closed loop, under every interleaving of the
      seven threads: each command the integrator has used is the control law at the payload of its own
      stage or of the stage before; every request ever made is symmetric; every reply has u3 = -u2. */
  lemma {:induction false} ClosedLoopStaysSymmetric(law: Law, tanh: real -> real, t: real, h: real,
                                                    states: seq<System.State>, events: seq<System.Event>)
    requires Computes(law, tanh) && ClosedRun(law, t, h, states, events)
    ensures var c := states[|events|].client; var replies := c.caller.replies;
            && AllAdmissible(law, Simulation(t, h, replies), Start(), Commands(replies), |replies|)
            && LoopIsSymmetric(c.requests, replies)
  {
    ServerBalances(law, tanh);
    BalancedLoop(law, t, h, states, events);
  }

  /** So the integrator's own state is symmetric after every step whose four replies have arrived. */
  lemma {:induction false} SimulatedStateIsSymmetric(law: Law, tanh: real -> real, t: real, h: real,
                                                     states: seq<System.State>, events: seq<System.Event>, n: nat)
    requires Computes(law, tanh) && ClosedRun(law, t, h, states, events)
    requires 4 * n <= |states[|events|].client.caller.replies|
    ensures Symmetric(StateAfter(Zero(), h, Commands(states[|events|].client.caller.replies), n))
  {
    ServerBalances(law, tanh);
    BalancedLoop(law, t, h, states, events);
    var replies := states[|events|].client.caller.replies;
    MoreThanBalanced(Commands(replies), 4 * n, |replies|);
    StatesKeepSymmetry(Zero(), h, Commands(replies), n);
  }

  // ---- The closed loop runs to its end ----

  /** Some thread can move, or the caller can make the call the simulation asks for, if it is to. */
  lemma {:induction false} SomethingNext(law: Law, t: real, h: real, s: System.State, more: bool)
    returns (e: System.Event)
    requires System.Inv(law, s) && (System.Stuck(s) ==> more)
    ensures System.Enabled(s, e) && (e.Call? ==> more && AsksNext(t, h, s.client.caller.replies, e.payload))
  {
    if System.Stuck(s) {
      System.NoDeadlock(law, s);
      e := System.Call(Simulation(t, h, s.client.caller.replies)(|s.client.caller.replies|));
    } else if client: C.Thread :| System.Enabled(s, System.ClientMove(client)) {
      e := System.ClientMove(client);
    } else {
      var server: S.Thread :| System.Enabled(s, System.ServerMove(server));
      e := System.ServerMove(server);
    }
  }

  lemma {:induction false} CallsGrow(events: seq<System.Event>, e: System.Event)
    ensures System.Calls(events + [e]) == System.Calls(events) + Bit(e.Call?)
  {
    assert (events + [e])[..|events|] == events;
  }

  lemma {:induction false} ClosedRunGrows(law: Law, t: real, h: real,
                                          states: seq<System.State>, events: seq<System.Event>, e: System.Event)
    returns (states': seq<System.State>, events': seq<System.Event>)
    requires ClosedRun(law, t, h, states, events) && System.Enabled(states[|events|], e)
    requires e.Call? ==> AsksNext(t, h, states[|events|].client.caller.replies, e.payload)
    ensures ClosedRun(law, t, h, states', events')
    ensures |events'| == |events| + 1 && events <= events' && states <= states'
    ensures System.Calls(events') == System.Calls(events) + Bit(e.Call?)
  {
    System.RunGrows(law, states, events, e);
    CallsGrow(events, e);
    states', events' := states + [System.Step(law, states[|events|], e)], events + [e];
  }

  /** The loop never deadlocks: while the integrator, which is to make `q` calls in all, has one still to
      make or some thread can move, a closed run goes on, by a step of some thread or by that call. */
  lemma {:induction false} ClosedRunContinues(law: Law, t: real, h: real,
                                              states: seq<System.State>, events: seq<System.Event>, q: nat)
    returns (states': seq<System.State>, events': seq<System.Event>)
    requires ClosedRun(law, t, h, states, events) && System.Calls(events) <= q
    requires System.Stuck(states[|events|]) ==> System.Calls(events) < q
    ensures ClosedRun(law, t, h, states', events') && System.Calls(events') <= q
    ensures |events'| == |events| + 1 && events <= events' && states <= states'
  {
    System.RunInv(law, states, events);
    var s := states[|events|];
    var e := SomethingNext(law, t, h, s, System.Calls(events) < q);
    states', events' := ClosedRunGrows(law, t, h, states, events, e);
  }

  /** An integrator that makes `q` calls has had its last reply and no thread can move. */
  ghost predicate Completed(states: seq<System.State>, events: seq<System.Event>, q: nat)
    requires |states| == |events| + 1
  {
    var s := states[|events|];
    && System.Stuck(s) && System.Calls(events) == q
    && |s.client.requests| == q + 1 && |s.client.caller.replies| == q
  }

  lemma {:induction false} CompletedExactly(law: Law, t: real, h: real, states: seq<System.State>,
                                            events: seq<System.Event>, q: nat)
    requires ClosedRun(law, t, h, states, events) && System.Calls(events) <= q
    ensures |events| <= 43 * q + 34
    ensures Completed(states, events, q) <==> |events| == 43 * q + 34
    ensures Completed(states, events, q) <==> System.Stuck(states[|events|]) && System.Calls(events) == q
  {
    System.RunInv(law, states, events);
    System.EveryCallReturns(law, states, events);
  }

  /** With an integrator that makes `q` calls every closed run has at most 43q + 34 events, has that many
      exactly when it is completed, and can be continued until it is. */
  lemma {:induction false} ClosedRunCompletes(law: Law, t: real, h: real,
                                              states: seq<System.State>, events: seq<System.Event>, q: nat)
    returns (states': seq<System.State>, events': seq<System.Event>)
    requires ClosedRun(law, t, h, states, events) && System.Calls(events) <= q
    ensures |events| <= 43 * q + 34
    ensures Completed(states, events, q) <==> |events| == 43 * q + 34
    ensures ClosedRun(law, t, h, states', events') && events <= events' && states <= states'
    ensures Completed(states', events', q)
    decreases 43 * q + 34 - |events|
  {
    CompletedExactly(law, t, h, states, events, q);
    if Completed(states, events, q) {
      states', events' := states, events;
    } else {
      states', events' := ClosedRunContinues(law, t, h, states, events, q);
      CompletedExactly(law, t, h, states', events', q);
      states', events' := ClosedRunCompletes(law, t, h, states', events', q);
    }
  }
}
