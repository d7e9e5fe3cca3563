/** Client and server joined by three lossless, order-preserving ports, with every interleaving of
    the seven threads. */
module System {
  import opened Handoff
  import C = Client
  import S = Server

  datatype State = State(client: C.State, server: S.State)

  /** `Call` is the client's calculator entering `get_u`; its argument is any payload at all. */
  datatype Event = Call(payload: Vec) | ClientMove(clientThread: C.Thread) | ServerMove(serverThread: S.Thread)

  predicate Enabled(s: State, e: Event) {
    match e
    case Call(p) => s.client.caller.pc == C.Idle && |p| == C.PAYLOAD_LEN
    case ClientMove(t) =>
      && C.Enabled(s.client, t)
      && (s.client.caller.pc != C.Idle ==> |s.client.caller.payload| == C.PAYLOAD_LEN)
    case ServerMove(t) => S.Enabled(s.server, t)
  }

  /** A datagram sent by the client reaches the server's port at once; how long it waits there is up
      to the listener. */
  function Delivered(server: S.State, w: C.Sender): S.State {
    match w.pc
    case SendFirst => server.(one := server.one.Arrive(w.first))
    case SendSecond => server.(two := server.two.Arrive(w.second))
    case _ => server
  }

  function Answered(client: C.State, w: S.Sender): C.State {
    if w.pc == S.Send then client.(station := client.station.Arrive(w.Datagram())) else client
  }

  function Step(law: Law, s: State, e: Event): State
    requires Enabled(s, e)
  {
    match e
    case Call(p) => State(C.Call(s.client, p), s.server)
    case ClientMove(t) =>
      State(C.Step(s.client, t),
            if t == C.SenderThread then Delivered(s.server, s.client.sender) else s.server)
    case ServerMove(t) =>
      State(if t == S.SenderThread then Answered(s.client, s.server.sender) else s.client,
            S.Step(law, s.server, t))
  }

  ghost predicate Init(s: State) {
    && C.Init(s.client) && S.Init(s.server)
    && |s.client.station.port| == |s.server.one.port| == |s.server.two.port| == 0
  }

  ghost predicate Run(law: Law, states: seq<State>, events: seq<Event>) {
    && |states| == |events| + 1
    && Init(states[0])
    && forall i :: 0 <= i < |events| ==>
         Enabled(states[i], events[i]) && states[i + 1] == Step(law, states[i], events[i])
  }

  lemma {:induction false} RunGrows(law: Law, states: seq<State>, events: seq<Event>, e: Event)
    requires Run(law, states, events) && Enabled(states[|events|], e)
    ensures Run(law, states + [Step(law, states[|events|], e)], events + [e])
  {
    var states', events' := states + [Step(law, states[|events|], e)], events + [e];
    forall i | 0 <= i < |events'|
      ensures Enabled(states'[i], events'[i]) && states'[i + 1] == Step(law, states'[i], events'[i])
    {
    }
  }

  // ---- The invariant ----

  /** The ports carry exactly what has been sent to them. */
  ghost predicate Linked(s: State) {
    && s.server.one.port == s.client.sender.outOne
    && s.server.two.port == s.client.sender.outTwo
    && s.client.station.port == s.server.sender.sent
  }

  /** The control part of the invariant: flags, program counters and how much each port has carried. */
  ghost predicate Control(s: State) {
    var c, server := s.client, s.server;
    && C.ReaderInv(c.caller, c.station) && C.SignalInv(c)
    && S.StationsInv(server) && S.SignalInv(server)
    && |c.requests| == 1 + c.caller.Past(0)
    && |c.caller.replies| == c.caller.rounds
    && |server.one.port| == |c.sender.outOne| == c.sender.Past(4)
    && |server.two.port| == |c.sender.outTwo| == c.sender.rounds
    && |c.station.port| == |server.sender.sent| == server.sender.Past(3)
  }

  lemma {:induction false} InvGivesControl(law: Law, s: State)
    requires Inv(law, s)
    ensures Control(s)
  {
  }

  ghost predicate Inv(law: Law, s: State) {
    C.Inv(s.client) && S.Inv(law, s.server) && Linked(s)
  }

  lemma {:induction false} InitialInv(law: Law, s: State)
    requires Init(s)
    ensures Inv(law, s)
  {
    C.InitialInv(s.client);
    S.InitialInv(law, s.server);
  }

  lemma {:induction false} DeliveryKeepsServer(law: Law, server: S.State, w: C.Sender)
    requires S.Inv(law, server)
    ensures S.Inv(law, Delivered(server, w))
  {
    S.ArrivalKeepsInv(law, server, w.first);
    S.ArrivalKeepsInv(law, server, w.second);
  }

  lemma {:induction false} ClientMoveKeepsLinks(s: State, t: C.Thread)
    requires Linked(s) && Enabled(s, ClientMove(t)) && C.ReaderInv(s.client.caller, s.client.station)
    ensures var s' := State(C.Step(s.client, t),
                            if t == C.SenderThread then Delivered(s.server, s.client.sender) else s.server);
            Linked(s')
  {
    match t
    case CallerThread => C.CallerKeepsRest(s.client);
    case SenderThread =>
    case ListenerThread =>
      var c := s.client.caller;
      ListenerStepKeeps(s.client.station, c.Past(5), c.Past(7), c.Past(8));
  }

  lemma {:induction false} ServerMoveKeepsLinks(law: Law, s: State, t: S.Thread)
    requires Linked(s) && Enabled(s, ServerMove(t)) && S.StationsInv(s.server)
    ensures Linked(Step(law, s, ServerMove(t)))
  {
    var c := s.server.calculator;
    match t
    case ListenerOne => ListenerStepKeeps(s.server.one, c.Past(0), c.Past(4), c.Past(5));
    case ListenerTwo => ListenerStepKeeps(s.server.two, c.Past(1), c.Past(4), c.Past(6));
    case CalculatorThread => S.CalculatorKeepsPorts(law, s.server);
    case SenderThread =>
  }

  lemma {:induction false} ClientMoveKeepsInv(law: Law, s: State, t: C.Thread)
    requires Inv(law, s) && Enabled(s, ClientMove(t))
    ensures Inv(law, Step(law, s, ClientMove(t)))
  {
    C.StepKeepsInv(s.client, t);
    DeliveryKeepsServer(law, s.server, s.client.sender);
    ClientMoveKeepsLinks(s, t);
  }

  lemma {:induction false} ServerMoveKeepsInv(law: Law, s: State, t: S.Thread)
    requires Inv(law, s) && Enabled(s, ServerMove(t))
    ensures Inv(law, Step(law, s, ServerMove(t)))
  {
    S.StepKeepsInv(law, s.server, t);
    C.ArrivalKeepsInv(s.client, s.server.sender.Datagram());
    ServerMoveKeepsLinks(law, s, t);
  }

  lemma {:induction false} StepKeepsInv(law: Law, s: State, e: Event)
    requires Inv(law, s) && Enabled(s, e)
    ensures Inv(law, Step(law, s, e))
  {
    match e
    case Call(p) => C.CallKeepsInv(s.client, p);
    case ClientMove(t) => ClientMoveKeepsInv(law, s, t);
    case ServerMove(t) => ServerMoveKeepsInv(law, s, t);
  }

  /** How many steps all seven threads have taken, entering `get_u` included. */
  function Steps(s: State): nat { ClientSteps(s.client) + S.Steps(s.server) }

  function ClientSteps(s: C.State): nat {
    s.caller.Steps() + s.sender.Steps() + s.station.listener.Steps()
  }

  function Calls(events: seq<Event>): nat {
    if events == [] then 0
    else Calls(events[..|events| - 1]) + Bit(events[|events| - 1].Call?)
  }

  lemma {:induction false} ClientIsOneStep(s: C.State, t: C.Thread)
    requires C.Inv(s) && C.Enabled(s, t)
    ensures ClientSteps(C.Step(s, t)) == ClientSteps(s) + 1
    ensures C.Step(s, t).requests == s.requests
  {
    var c, w := s.caller, s.sender;
    match t
    case CallerThread => C.CallerAdvances(c, s.station.box.slot, 0); C.CallerKeepsRest(s);
    case SenderThread =>
      C.SenderHasRequest(s);
      if 0 < w.At() <= 3 { C.SenderFindsStock(s); }
      C.SenderKeepsOut(w, s.requests, s.stockFirst, s.stockSecond);
    case ListenerThread => ListenerStepKeeps(s.station, c.Past(5), c.Past(7), c.Past(8));
  }

  lemma {:induction false} TransferTakesNoStep(client: C.State, server: S.State)
    ensures S.Steps(Delivered(server, client.sender)) == S.Steps(server)
    ensures ClientSteps(Answered(client, server.sender)) == ClientSteps(client)
    ensures Answered(client, server.sender).requests == client.requests
  {
  }

  lemma {:induction false} StepIsOneStep(law: Law, s: State, e: Event)
    requires C.Inv(s.client) && S.StationsInv(s.server) && Enabled(s, e)
    ensures Steps(Step(law, s, e)) == Steps(s) + 1
    ensures |Step(law, s, e).client.requests| == |s.client.requests| + Bit(e.Call?)
  {
    TransferTakesNoStep(s.client, s.server);
    match e
    case Call(p) =>
    case ClientMove(t) => ClientIsOneStep(s.client, t);
    case ServerMove(t) => S.StepIsOneStep(law, s.server, t);
  }

  lemma {:induction false} RunPrefix(law: Law, states: seq<State>, events: seq<Event>)
    requires Run(law, states, events) && |events| > 0
    ensures var n := |events| - 1;
            && Run(law, states[..n + 1], events[..n]) && states[..n + 1][n] == states[n]
            && Enabled(states[n], events[n]) && states[n + 1] == Step(law, states[n], events[n])
            && Calls(events) == Calls(events[..n]) + Bit(events[n].Call?)
  {
  }

  lemma {:induction false} EventKeeps(law: Law, s: State, e: Event)
    requires Inv(law, s) && Enabled(s, e)
    ensures Inv(law, Step(law, s, e)) && Steps(Step(law, s, e)) == Steps(s) + 1
    ensures |Step(law, s, e).client.requests| == |s.client.requests| + Bit(e.Call?)
  {
    StepKeepsInv(law, s, e);
    StepIsOneStep(law, s, e);
  }

  lemma {:induction false} EventCounts(law: Law, s: State, e: Event, s': State, calls: nat, calls': nat)
    requires Inv(law, s) && Enabled(s, e) && s' == Step(law, s, e)
    requires |s.client.requests| == 1 + calls && calls' == calls + Bit(e.Call?)
    ensures Inv(law, s') && Steps(s') == Steps(s) + 1 && |s'.client.requests| == 1 + calls'
  {
    EventKeeps(law, s, e);
  }

  lemma {:induction false} InitialCounts(s: State)
    requires Init(s)
    ensures Steps(s) == 0 && |s.client.requests| == 1
  {
  }

  lemma {:induction false} RunInv(law: Law, states: seq<State>, events: seq<Event>)
    requires Run(law, states, events)
    ensures Inv(law, states[|events|])
    ensures Steps(states[|events|]) == |events|
    ensures |states[|events|].client.requests| == 1 + Calls(events)
    decreases |events|
  {
    if |events| == 0 {
      InitialInv(law, states[0]);
      InitialCounts(states[0]);
    } else {
      var n := |events| - 1;
      RunPrefix(law, states, events);
      RunInv(law, states[..n + 1], events[..n]);
      EventCounts(law, states[n], events[n], states[n + 1], Calls(events[..n]), Calls(events));
    }
  }

  // ---- Main results ----

  /** The split into two batches followed by the server's concatenation restores the payload. */
  lemma {:induction false} SplitJoins(payload: Vec)
    requires |payload| == C.PAYLOAD_LEN
    ensures C.First(payload) + C.Second(payload) == payload
  {
  }

  /** Every calculation the server makes is the law applied to a whole request, in order. */
  lemma {:induction false} CalculationsMatchRequests(law: Law, s: State, k: nat)
    requires Inv(law, s) && k < |s.server.calculator.made|
    ensures k < |s.client.requests|
    ensures s.server.calculator.made[k] == law(s.client.requests[k]).Floats()
  {
    var w := s.client.sender;
    assert k < |w.outOne| && k < |w.outTwo|;
    SplitJoins(s.client.requests[k]);
  }

  /** End to end: what call `k` of `get_u` returned is the law applied to the payload before its own
      or to its own -- never anything older -- and successive calls never step back. Request 0 is
      the zero payload loaded at start-up, so call `k` (from 0) asks with request `k + 1`. */
  ghost predicate RepliesInWindow(law: Law, requests: seq<Vec>, replies: seq<Vec>, picks: seq<nat>) {
    && |replies| <= |picks|
    && (forall k :: 0 <= k < |replies| ==>
          && (picks[k] == k || picks[k] == k + 1)
          && picks[k] < |requests|
          && replies[k] == law(requests[picks[k]]).Floats())
    && (forall j, k :: 0 <= j < k < |replies| ==> picks[j] <= picks[k])
  }

  lemma {:induction false} ReplyIsInWindow(law: Law, s: State, k: nat)
    requires Inv(law, s) && k < |s.client.caller.replies|
    ensures var picks := s.server.sender.picks;
            && |s.client.caller.replies| <= |picks|
            && (picks[k] == k || picks[k] == k + 1)
            && picks[k] < |s.client.requests|
            && s.client.caller.replies[k] == law(s.client.requests[picks[k]]).Floats()
  {
    var w := s.server.sender;
    assert S.InWindow(w.picks[k], k);
    CalculationsMatchRequests(law, s, w.picks[k]);
  }

  lemma {:induction false} RepliesAreFresh(law: Law, states: seq<State>, events: seq<Event>)
    requires Run(law, states, events)
    ensures var s := states[|events|];
            RepliesInWindow(law, s.client.requests, s.client.caller.replies, s.server.sender.picks)
  {
    RunInv(law, states, events);
    var s := states[|events|];
    InvImpliesWindow(law, s);
  }

  lemma {:induction false} InvImpliesWindow(law: Law, s: State)
    requires Inv(law, s)
    ensures RepliesInWindow(law, s.client.requests, s.client.caller.replies, s.server.sender.picks)
  {
    var replies := s.client.caller.replies;
    forall k | 0 <= k < |replies|
      ensures var picks := s.server.sender.picks;
              && |replies| <= |picks|
              && (picks[k] == k || picks[k] == k + 1)
              && picks[k] < |s.client.requests|
              && replies[k] == law(s.client.requests[picks[k]]).Floats()
    {
      ReplyIsInWindow(law, s, k);
    }
  }

  ghost predicate Stuck(s: State) {
    && (forall t: C.Thread :: !Enabled(s, ClientMove(t)))
    && (forall t: S.Thread :: !Enabled(s, ServerMove(t)))
  }

  /** Every thread's progress is limited by the number of calls made. */
  lemma {:induction false} ServerRoundsBounded(s: State)
    requires Control(s)
    ensures var n := |s.client.requests|; var server := s.server;
            && s.client.sender.Past(0) <= n
            && server.one.listener.Received() <= n && server.two.listener.Received() <= n
            && server.calculator.Past(0) <= n && server.sender.Past(0) <= n
            && s.client.station.listener.Received() <= n
  {
  }

  /** A thread with k steps a round has taken at most k per round begun. */
  lemma {:induction false} ClientThreadSteps(s: C.State)
    ensures s.caller.Steps() <= 9 * s.caller.Past(0) && s.sender.Steps() <= 6 * s.sender.Past(0)
    ensures s.station.listener.Steps() <= 4 * s.station.listener.Received()
  {
  }

  lemma {:induction false} ServerThreadSteps(s: S.State)
    ensures s.calculator.Steps() <= 11 * s.calculator.Past(0) && s.sender.Steps() <= 5 * s.sender.Past(0)
    ensures s.one.listener.Steps() <= 4 * s.one.listener.Received()
    ensures s.two.listener.Steps() <= 4 * s.two.listener.Received()
  {
  }

  lemma {:induction false} BoundedRoundsBoundSteps(s: State, n: nat)
    requires s.client.caller.Past(0) + 1 == n
    requires s.client.sender.Past(0) <= n && s.client.station.listener.Received() <= n
    requires s.server.one.listener.Received() <= n && s.server.two.listener.Received() <= n
    requires s.server.calculator.Past(0) <= n && s.server.sender.Past(0) <= n
    ensures Steps(s) <= 43 * n - 9
  {
    ClientThreadSteps(s.client);
    ServerThreadSteps(s.server);
  }

  lemma {:induction false} StepsBounded(s: State)
    requires Control(s)
    ensures Steps(s) <= 43 * |s.client.requests| - 9
  {
    ServerRoundsBounded(s);
    BoundedRoundsBoundSteps(s, |s.client.requests|);
  }

  /** With no thread able to move, all have finished the same number of rounds. */
  ghost predicate AtRest(s: State) {
    var n := |s.client.requests|; var c, server := s.client, s.server;
    && c.caller.pc == C.Idle && c.caller.rounds == n - 1
    && c.sender.rounds == c.station.listener.rounds == n
    && server.one.listener.rounds == server.two.listener.rounds == n
    && server.calculator.rounds == server.sender.rounds == n
    && c.sender.At() == c.station.listener.At() == server.one.listener.At() == server.two.listener.At() == 0
    && server.calculator.At() == server.sender.At() == 0
  }

  lemma {:induction false} StuckIsAtRest(s: State)
    requires Control(s) && Stuck(s)
    requires s.client.caller.pc != C.Idle ==> |s.client.caller.payload| == C.PAYLOAD_LEN
    ensures AtRest(s)
  {
    assert !Enabled(s, ClientMove(C.CallerThread)) && !Enabled(s, ClientMove(C.SenderThread));
    assert !Enabled(s, ClientMove(C.ListenerThread)) && !Enabled(s, ServerMove(S.ListenerOne));
    assert !Enabled(s, ServerMove(S.ListenerTwo)) && !Enabled(s, ServerMove(S.CalculatorThread));
    assert !Enabled(s, ServerMove(S.SenderThread));
  }

  /** No thread can be left waiting inside a call: when no thread can move, the caller is between
      calls and every call made has had its reply. Starting another call is then possible, so the
      system as a whole never deadlocks. */
  lemma {:induction false} NoDeadlock(law: Law, s: State)
    requires Inv(law, s) && Stuck(s)
    ensures s.client.caller.pc == C.Idle
    ensures |s.client.caller.replies| == |s.client.requests| - 1
    ensures Steps(s) == 43 * |s.client.requests| - 9
  {
    InvGivesControl(law, s);
    StuckIsAtRest(s);
  }

  lemma {:induction false} AllStepsTakenIsStuck(law: Law, s: State, e: Event)
    requires Inv(law, s) && Steps(s) == 43 * |s.client.requests| - 9 && !e.Call?
    ensures !Enabled(s, e)
  {
    if Enabled(s, e) {
      StepKeepsInv(law, s, e);
      StepIsOneStep(law, s, e);
      InvGivesControl(law, Step(law, s, e));
      StepsBounded(Step(law, s, e));
    }
  }

  lemma {:induction false} StuckExactly(law: Law, s: State)
    requires Inv(law, s)
    ensures Steps(s) <= 43 * |s.client.requests| - 9
    ensures Stuck(s) <==> Steps(s) == 43 * |s.client.requests| - 9
  {
    InvGivesControl(law, s);
    StepsBounded(s);
    if Stuck(s) {
      NoDeadlock(law, s);
    }
    if Steps(s) == 43 * |s.client.requests| - 9 {
      forall t: C.Thread ensures !Enabled(s, ClientMove(t)) { AllStepsTakenIsStuck(law, s, ClientMove(t)); }
      forall t: S.Thread ensures !Enabled(s, ServerMove(t)) { AllStepsTakenIsStuck(law, s, ServerMove(t)); }
    }
  }

  /** Total correctness without any fairness assumption. A run with q calls of `get_u` has at most
      43q + 34 events whatever the schedule; no thread can move exactly when it has had that many;
      and then every call has returned. */
  lemma {:induction false} EveryCallReturns(law: Law, states: seq<State>, events: seq<Event>)
    requires Run(law, states, events)
    ensures var s := states[|events|]; var q := Calls(events);
            && |events| <= 43 * q + 34
            && (Stuck(s) <==> |events| == 43 * q + 34)
            && (Stuck(s) ==> s.client.caller.pc == C.Idle && |s.client.caller.replies| == q)
  {
    RunInv(law, states, events);
    var s := states[|events|];
    StuckExactly(law, s);
    if Stuck(s) {
      NoDeadlock(law, s);
    }
  }

  /** At most two requests are ever sent and not yet answered to the caller, so no port holds more
      than two waiting datagrams. */
  ghost predicate TwoOutstanding(s: State) {
    var server, station := s.server, s.client.station;
    && |s.client.sender.outTwo| <= |s.client.sender.outOne| <= |s.client.caller.replies| + 2
    && |server.one.port| - 2 <= server.one.listener.Received() <= |server.one.port|
    && |server.two.port| - 2 <= server.two.listener.Received() <= |server.two.port|
    && |station.port| - 2 <= station.listener.Received() <= |station.port|
  }

  lemma {:induction false} ControlKeepsTwo(s: State)
    requires Control(s)
    ensures TwoOutstanding(s)
  {
  }

  lemma {:induction false} ShortQueue(st: Station)
    requires |st.port| - 2 <= st.listener.Received() <= |st.port|
    ensures |st.Queue()| <= 2
  {
  }

  ghost predicate ShortQueues(s: State) {
    var (one, two, station) := (s.server.one, s.server.two, s.client.station);
    && one.listener.Received() <= |one.port| && |one.Queue()| <= 2
    && two.listener.Received() <= |two.port| && |two.Queue()| <= 2
    && station.listener.Received() <= |station.port| && |station.Queue()| <= 2
  }

  lemma {:induction false} TwoMakesShort(s: State)
    requires TwoOutstanding(s)
    ensures ShortQueues(s)
  {
    ShortQueue(s.server.one);
    ShortQueue(s.server.two);
    ShortQueue(s.client.station);
  }

  lemma {:induction false} AtMostTwoOutstanding(law: Law, states: seq<State>, events: seq<Event>)
    requires Run(law, states, events)
    ensures TwoOutstanding(states[|events|]) && ShortQueues(states[|events|])
  {
    RunInv(law, states, events);
    InvGivesControl(law, states[|events|]);
    ControlKeepsTwo(states[|events|]);
    TwoMakesShort(states[|events|]);
  }

  /** On the client too, no stock is touched by two threads at once, nothing unsent or unread is
      overwritten, and no flag is raised twice. */
  ghost predicate Exclusive(s: C.State) {
    var writing := s.caller.pc == C.PutFirst || s.caller.pc == C.PutSecond;
    var reading := s.caller.pc == C.GetBatch || s.caller.pc == C.CleanStock;
    && (writing ==> s.sender.pc != C.FetchFirst && s.sender.pc != C.FetchSecond
                    && s.sender.Past(2) == |s.requests| - 1)
    && (reading ==> s.station.listener.pc != Store)
    && (s.station.listener.pc == Store ==> s.station.box.slot == Null)
    && (s.caller.pc == C.SignalSender ==> !s.toSender)
    && (s.sender.pc == C.SignalCalculator ==> !s.fromSender)
    && (s.caller.pc == C.SignalListener ==> !s.station.box.empty)
    && (s.station.listener.pc == SignalFull ==> !s.station.box.full)
  }

  lemma {:induction false} ControlIsExclusive(s: State)
    requires Control(s)
    ensures Exclusive(s.client)
  {
    var c := s.client.caller;
    TokenConserved(s.client.station, c.Past(5), c.Past(7), c.Past(8));
  }

  /** The client's four flags in pairs. */
  lemma {:induction false} ClientTokensConserved(law: Law, states: seq<State>, events: seq<Event>)
    requires Run(law, states, events)
    ensures var c := states[|events|].client; var box := c.station.box;
            && Bit(box.full) + Bit(box.empty) + Bit(c.station.listener.At() > 1) + Bit(c.caller.At() > 5) == 1
            && Bit(c.toSender) + Bit(c.fromSender) + Bit(0 < c.sender.At() <= 3) + Bit(1 < c.caller.At() <= 4) == 1
  {
    RunInv(law, states, events);
    InvGivesControl(law, states[|events|]);
    ClientTokens(states[|events|]);
  }

  lemma {:induction false} ClientTokens(s: State)
    requires Control(s)
    ensures var c := s.client; var box := c.station.box;
            && Bit(box.full) + Bit(box.empty) + Bit(c.station.listener.At() > 1) + Bit(c.caller.At() > 5) == 1
            && Bit(c.toSender) + Bit(c.fromSender) + Bit(0 < c.sender.At() <= 3) + Bit(1 < c.caller.At() <= 4) == 1
  {
    var c := s.client.caller;
    TokenConserved(s.client.station, c.Past(5), c.Past(7), c.Past(8));
  }

  lemma {:induction false} ClientExclusion(law: Law, states: seq<State>, events: seq<Event>)
    requires Run(law, states, events)
    ensures Exclusive(states[|events|].client)
  {
    RunInv(law, states, events);
    InvGivesControl(law, states[|events|]);
    ControlIsExclusive(states[|events|]);
  }
}
