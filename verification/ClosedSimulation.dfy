/** The whole program: the integrator's loop run to its end through the protocol (client/main.c:98-112). */
module ClosedSimulation {
  import opened Handoff
  import opened Reference
  import opened Flight
  import opened RungeKutta
  import opened ClosedLoop
  import opened Served
  import C = Client
  import Integrator
  import System

  lemma {:induction false} AskedAreRequests(t: real, h: real, requests: seq<Vec>, replies: seq<Vec>, n: nat)
    requires Simulates(t, h, requests, replies) && |replies| == 4 * n && |requests| == 4 * n + 1
    ensures requests[1..] == Integrator.Requests(Zero(), t, h, Commands(replies), n)
  {
    var asked := Integrator.Requests(Zero(), t, h, Commands(replies), n);
    forall k | 0 <= k < 4 * n
      ensures requests[1..][k] == asked[k]
    {
      Integrator.RequestsAre(Zero(), t, h, Commands(replies), n, k);
      assert requests[k + 1] == Simulation(t, h, replies)(k);
    }
  }

  /** A completed run of `n` steps: what has been requested is what the integrator asks under the replies it
      has had, and they leave it in a symmetric state. */
  lemma {:induction false} CompletedRunFlies(law: Law, tanh: real -> real, t: real, h: real,
                                             states: seq<System.State>, events: seq<System.Event>, n: nat)
    requires Computes(law, tanh) && ClosedRun(law, t, h, states, events) && Completed(states, events, 4 * n)
    ensures var c := states[|events|].client; var u := Commands(c.caller.replies);
            && c.requests[1..] == Integrator.Requests(Zero(), t, h, u, n)
            && Integrator.Stamped(c.requests[1..], t, h)
            && Symmetric(StateAfter(Zero(), h, u, n))
  {
    RunSimulates(law, t, h, states, events);
    var c := states[|events|].client;
    AskedAreRequests(t, h, c.requests, c.caller.replies, n);
    Integrator.RequestsAreStamped(Zero(), t, h, Commands(c.caller.replies), n);
    SimulatedStateIsSymmetric(law, tanh, t, h, states, events, n);
  }

  /** These are the replies of a completed run of the server's law and `n` steps of the integrator. */
  ghost predicate RepliesOf(law: Law, tanh: real -> real, t: real, h: real,
                            states: seq<System.State>, events: seq<System.Event>, n: nat, replies: seq<Vec>) {
    && Computes(law, tanh) && ClosedRun(law, t, h, states, events) && Completed(states, events, 4 * n)
    && replies == states[|events|].client.caller.replies
  }

  lemma {:induction false} RepliesFly(law: Law, tanh: real -> real, t: real, h: real,
                                      states: seq<System.State>, events: seq<System.Event>, n: nat, replies: seq<Vec>)
    requires RepliesOf(law, tanh, t, h, states, events, n, replies)
    ensures states[|events|].client.requests[1..] == Integrator.Requests(Zero(), t, h, Commands(replies), n)
    ensures Symmetric(StateAfter(Zero(), h, Commands(replies), n))
  {
    CompletedRunFlies(law, tanh, t, h, states, events, n);
  }

  /** The integrator's code under the replies of a completed run asks exactly for what that run requested, in
      order, and ends in a symmetric state: after eight calls with the source's printer, 44 with one
      that answers. */
  method Fly(start: real, end: real, answers: bool, replies: seq<Vec>, ghost law: Law, ghost tanh: real -> real,
             ghost states: seq<System.State>, ghost events: seq<System.Event>)
    returns (data: Integrator.CalculatorData, link: Integrator.Link, blocked: bool)
    requires answers ==> start != end
    requires RepliesOf(law, tanh, start, (end - start) / Integrator.NSTEP as real, states, events,
                       Integrator.StepsTaken(start, end, answers), replies)
    ensures link.asked == states[|events|].client.requests[1..]
    ensures Symmetric(data.State())
    ensures blocked <==> !answers && start <= end
  {
    data, link, blocked := Integrator.Simulate(start, end, Commands(replies), answers);
    RepliesFly(law, tanh, start, data.step, states, events, Integrator.StepsTaken(start, end, answers), replies);
  }

  /** The times in the program's own requests: its clock runs from 0 in steps of a hundredth, and its loop blocks
      after two of them. */
  lemma {:induction false} ProgramStamps(law: Law, tanh: real -> real,
                                         states: seq<System.State>, events: seq<System.Event>)
    requires Computes(law, tanh) && ClosedRun(law, 0.0, 0.01, states, events) && Completed(states, events, 8)
    ensures var r := states[|events|].client.requests;
            && |r| == 9 && (forall k :: 0 <= k < 9 ==> |r[k]| == 13)
            && r[0][12] == 0.0
            && r[1][12] == 0.0 && r[2][12] == 0.005 && r[3][12] == 0.005 && r[4][12] == 0.01
            && r[5][12] == 0.01 && r[6][12] == 0.015 && r[7][12] == 0.015 && r[8][12] == 0.02
  {
    CompletedRunFlies(law, tanh, 0.0, 0.01, states, events, 2);
    RunSimulates(law, 0.0, 0.01, states, events);
    StampsOf(states[|events|].client.requests);
  }

  lemma {:induction false} StampsOf(r: seq<Vec>)
    requires |r| == 9 && r[0] == Start() && Integrator.Stamped(r[1..], 0.0, 0.01)
    ensures forall k :: 0 <= k < 9 ==> |r[k]| == 13
    ensures r[0][12] == 0.0
    ensures r[1][12] == 0.0 && r[2][12] == 0.005 && r[3][12] == 0.005 && r[4][12] == 0.01
    ensures r[5][12] == 0.01 && r[6][12] == 0.015 && r[7][12] == 0.015 && r[8][12] == 0.02
  {
    var a := r[1..];
    forall k | 0 <= k < 8
      ensures |r[k + 1]| == 13 && r[k + 1][12] == Stamp(0.0, 0.01, k)
    {
      assert r[k + 1] == a[k];
    }
    assert r[1] == a[0] && r[2] == a[1] && r[3] == a[2] && r[4] == a[3];
    assert r[5] == a[4] && r[6] == a[5] && r[7] == a[6] && r[8] == a[7];
  }

  // ---- What comes back, in numbers ----

  /** The reply to payload `p`: four numbers, the first the thrust and the last the yaw torque. */
  ghost predicate Answers(tanh: real -> real, p: Vec, reply: Vec) {
    && |p| == 13 && |reply| == 4 && InNumbers(tanh, p, reply[0], reply[3])
    && var u := ServerCalculations(tanh, p);
       reply[1] == u.u2 && reply[2] == u.u3
  }

  lemma {:induction false} ServerAnswers(law: Law, tanh: real -> real, p: Vec)
    requires Computes(law, tanh) && |p| == 13
    ensures Answers(tanh, p, law(p).Floats())
  {
    assert law(p) == ServerCalculations(tanh, p);
    ServedNumbers(tanh, p);
  }

  /** Every reply in every reachable state of the whole system is the answer to the request of its own call or to
      the one before. */
  lemma {:induction false} RepliesAreAnswers(law: Law, tanh: real -> real, states: seq<System.State>,
                                             events: seq<System.Event>, k: nat)
    requires Computes(law, tanh) && System.Run(law, states, events)
    requires k < |states[|events|].client.caller.replies|
    ensures var c := states[|events|].client;
            || (k < |c.requests| && Answers(tanh, c.requests[k], c.caller.replies[k]))
            || (k + 1 < |c.requests| && Answers(tanh, c.requests[k + 1], c.caller.replies[k]))
  {
    System.RunInv(law, states, events);
    var s := states[|events|];
    System.ReplyIsInWindow(law, s, k);
    var j := s.server.sender.picks[k];
    RequestsAreWhole(s.client, j);
    ServerAnswers(law, tanh, s.client.requests[j]);
  }

  lemma {:induction false} RequestsAreWhole(c: C.State, j: nat)
    requires C.RequestsInv(c.caller, c.requests) && j < |c.requests|
    ensures |c.requests[j]| == 13
  {
  }
}
