/** The window of `System` is as narrow as it can be: whatever the payloads, each `get_u` can return the
    law at its own payload or at the one before it, in every combination over the calls. */
module SystemWitness {
  import opened Handoff
  import opened System
  import C = Client
  import S = Server
  import R = ServerRuns
  import W = Witness

  function Last(states: seq<State>): State
    requires |states| > 0
  {
    states[|states| - 1]
  }

  lemma {:induction false} Extend(law: Law, states: seq<State>, events: seq<Event>, e: Event)
    returns (states': seq<State>, events': seq<Event>)
    requires Run(law, states, events) && Enabled(Last(states), e)
    ensures Run(law, states', events') && states'[0] == states[0] && Last(states') == Step(law, Last(states), e)
  {
    RunGrows(law, states, events, e);
    states', events' := states + [Step(law, Last(states), e)], events + [e];
  }

  /** What every client step asks of its state. */
  predicate PayloadSet(c: C.State) { c.caller.pc != C.Idle ==> |c.caller.payload| == C.PAYLOAD_LEN }

  // ---- Getting two requests to the server ----

  /** The client's sender fetches the stock and permits the next request. */
  lemma {:induction false} SenderFetches(law: Law, states: seq<State>, events: seq<Event>)
    returns (states': seq<State>, events': seq<Event>)
    requires Run(law, states, events)
    requires var c := Last(states).client; c.sender.pc == C.AwaitCalculator && c.toSender && PayloadSet(c)
    ensures Run(law, states', events') && states'[0] == states[0]
    ensures var s := Last(states); var (c, w) := (s.client, s.client.sender);
            Last(states') == State(
              c.(toSender := false, fromSender := true,
                 sender := w.(pc := C.SendFirst, first := c.stockFirst, second := c.stockSecond)),
              s.server)
  {
    var move := ClientMove(C.SenderThread);
    states', events' := Extend(law, states, events, move);
    states', events' := Extend(law, states', events', move);
    states', events' := Extend(law, states', events', move);
    states', events' := Extend(law, states', events', move);
  }

  /** And sends what it fetched to the two ports. */
  lemma {:induction false} SenderSends(law: Law, states: seq<State>, events: seq<Event>)
    returns (states': seq<State>, events': seq<Event>)
    requires Run(law, states, events)
    requires Last(states).client.sender.pc == C.SendFirst && PayloadSet(Last(states).client)
    ensures Run(law, states', events') && states'[0] == states[0]
    ensures var s := Last(states); var (c, w) := (s.client, s.client.sender);
            Last(states') == State(
              c.(sender := w.(pc := C.AwaitCalculator, rounds := w.rounds + 1,
                              outOne := w.outOne + [w.first], outTwo := w.outTwo + [w.second])),
              s.server.(one := s.server.one.Arrive(w.first), two := s.server.two.Arrive(w.second)))
  {
    var move := ClientMove(C.SenderThread);
    states', events' := Extend(law, states, events, move);
    states', events' := Extend(law, states', events', move);
  }

  /** The caller enters `get_u`, fills the stock and tells the sender. */
  lemma {:induction false} CallerAsks(law: Law, states: seq<State>, events: seq<Event>, p: Vec)
    returns (states': seq<State>, events': seq<Event>)
    requires Run(law, states, events) && |p| == C.PAYLOAD_LEN
    requires Last(states).client.caller.pc == C.Idle && Last(states).client.fromSender
    ensures Run(law, states', events') && states'[0] == states[0]
    ensures var s := Last(states); var c := s.client;
            Last(states') == State(
              c.(caller := c.caller.(pc := C.AwaitListener, payload := p), requests := c.requests + [p],
                 toSender := true, fromSender := false, stockFirst := C.First(p), stockSecond := C.Second(p)),
              s.server)
  {
    var move := ClientMove(C.CallerThread);
    states', events' := Extend(law, states, events, Call(p));
    states', events' := Extend(law, states', events', move);
    states', events' := Extend(law, states', events', move);
    states', events' := Extend(law, states', events', move);
    states', events' := Extend(law, states', events', move);
  }

  // ---- A server run inside the system ----

  /** What a server step sends reaches the client's port. */
  lemma {:induction false} LiftOne(law: Law, states: seq<State>, events: seq<Event>, c: C.State, t: S.Thread)
    returns (states': seq<State>, events': seq<Event>)
    requires Run(law, states, events) && S.Enabled(Last(states).server, t)
    requires Last(states).client == c.(station := c.station.(port := Last(states).server.sender.sent))
    ensures Run(law, states', events') && states'[0] == states[0]
            && Last(states').server == S.Step(law, Last(states).server, t)
    ensures Last(states').client == c.(station := c.station.(port := Last(states').server.sender.sent))
  {
    states', events' := Extend(law, states, events, ServerMove(t));
  }

  lemma {:induction false} Lift(law: Law, states: seq<State>, events: seq<Event>, c: C.State,
                                inner: seq<S.State>, moves: seq<R.Event>, n: nat)
    returns (states': seq<State>, events': seq<Event>)
    requires Run(law, states, events) && W.Undisturbed(law, inner, moves) && n <= |moves|
    requires Last(states).server == inner[0]
    requires Last(states).client == c.(station := c.station.(port := inner[0].sender.sent))
    ensures Run(law, states', events') && states'[0] == states[0] && Last(states').server == inner[n]
    ensures Last(states').client == c.(station := c.station.(port := inner[n].sender.sent))
    decreases n
  {
    if n == 0 {
      states', events' := states, events;
    } else {
      states', events' := Lift(law, states, events, c, inner, moves, n - 1);
      assert R.Happens(law, inner[n - 1], moves[n - 1], inner[n]);
      states', events' := LiftOne(law, states', events', c, moves[n - 1].thread);
    }
  }

  // ---- Taking the reply ----

  lemma {:induction false} ListenerReceives(law: Law, states: seq<State>, events: seq<Event>)
    returns (states': seq<State>, events': seq<Event>)
    requires Run(law, states, events) && PayloadSet(Last(states).client)
    requires var st := Last(states).client.station;
             st.listener.pc == Receive && st.box.empty && st.listener.rounds < |st.port|
    ensures Run(law, states', events') && states'[0] == states[0]
    ensures var s := Last(states); var (c, st) := (s.client, s.client.station); var n := st.listener.rounds;
            Last(states') == State(
              c.(station := Station(Listener(Store, n, st.port[n]), st.box.(empty := false), st.port)), s.server)
  {
    var move := ClientMove(C.ListenerThread);
    states', events' := Extend(law, states, events, move);
    states', events' := Extend(law, states', events', move);
  }

  lemma {:induction false} ListenerStores(law: Law, states: seq<State>, events: seq<Event>)
    returns (states': seq<State>, events': seq<Event>)
    requires Run(law, states, events) && PayloadSet(Last(states).client)
    requires Last(states).client.station.listener.pc == Store
    ensures Run(law, states', events') && states'[0] == states[0]
    ensures var s := Last(states); var (c, st) := (s.client, s.client.station); var l := st.listener;
            Last(states') == State(
              c.(station := Station(Listener(Receive, l.rounds + 1, l.batch),
                                    Mailbox(true, st.box.empty, Batch(l.batch)), st.port)),
              s.server)
  {
    var move := ClientMove(C.ListenerThread);
    states', events' := Extend(law, states, events, move);
    states', events' := Extend(law, states', events', move);
  }

  lemma {:induction false} CallerTakes(law: Law, states: seq<State>, events: seq<Event>)
    returns (states': seq<State>, events': seq<Event>)
    requires Run(law, states, events)
    requires var c := Last(states).client;
             c.caller.pc == C.AwaitListener && |c.caller.payload| == C.PAYLOAD_LEN && c.station.box.full
    ensures Run(law, states', events') && states'[0] == states[0]
    ensures var s := Last(states); var (c, st) := (s.client, s.client.station);
            Last(states') == State(
              c.(caller := c.caller.(pc := C.CleanStock, u := C.Reply(Copy(st.box.slot))),
                 station := st.(box := st.box.(full := false))),
              s.server)
  {
    var move := ClientMove(C.CallerThread);
    states', events' := Extend(law, states, events, move);
    states', events' := Extend(law, states', events', move);
  }

  lemma {:induction false} CallerReturns(law: Law, states: seq<State>, events: seq<Event>)
    returns (states': seq<State>, events': seq<Event>)
    requires Run(law, states, events)
    requires var c := Last(states).client; c.caller.pc == C.CleanStock && |c.caller.payload| == C.PAYLOAD_LEN
    ensures Run(law, states', events') && states'[0] == states[0]
    ensures var s := Last(states); var (c, st) := (s.client, s.client.station); var k := c.caller;
            Last(states') == State(
              c.(caller := k.(pc := C.Idle, rounds := k.rounds + 1, replies := k.replies + [k.u]),
                 station := st.(box := Mailbox(st.box.full, true, Null))),
              s.server)
  {
    var move := ClientMove(C.CallerThread);
    states', events' := Extend(law, states, events, move);
    states', events' := Extend(law, states', events', move);
  }

  // ---- Call after call ----

  /** Every call made has returned, the request of the last one and all before it are at the server's
      ports, and the server has finished `picks`. */
  predicate Returned(s: State, picks: seq<nat>, stored: bool) {
    var c := s.client; var st := c.station;
    && c.caller.pc == C.Idle && |c.caller.replies| == |picks|
    && c.sender.pc == C.AwaitCalculator && !c.toSender && c.fromSender
    && st.listener.pc == Receive && st.listener.rounds == |picks| == |st.port| && st.box.empty
    && st.port == s.server.sender.sent && W.Between(s.server, picks, stored)
    && |s.server.one.port| == |s.server.two.port| == |picks| + 1
  }

  /** The server's answer reaches the caller. */
  lemma {:induction false} ReplyReturns(law: Law, states: seq<State>, events: seq<Event>)
    returns (states': seq<State>, events': seq<Event>)
    requires Run(law, states, events)
    requires var c := Last(states).client; var st := c.station;
             && c.caller.pc == C.AwaitListener && |c.caller.payload| == C.PAYLOAD_LEN
             && st.listener.pc == Receive && st.box.empty && st.listener.rounds + 1 == |st.port|
    ensures Run(law, states', events') && states'[0] == states[0]
    ensures Last(states').server == Last(states).server
    ensures var (c, c') := (Last(states).client, Last(states').client); var n := |c.station.port|;
            && c' == c.(caller := c'.caller, station := c'.station)
            && c'.caller.pc == C.Idle && |c'.caller.replies| == |c.caller.replies| + 1
            && c'.station.listener.pc == Receive && c'.station.listener.rounds == n && c'.station.box.empty
            && c'.station.port == c.station.port
  {
    states', events' := ListenerReceives(law, states, events);
    states', events' := ListenerStores(law, states', events');
    states', events' := CallerTakes(law, states', events');
    states', events' := CallerReturns(law, states', events');
  }

  /** The request of one more call reaches the server. */
  lemma {:induction false} RequestArrives(law: Law, states: seq<State>, events: seq<Event>, p: Vec)
    returns (states': seq<State>, events': seq<Event>)
    requires Run(law, states, events) && |p| == C.PAYLOAD_LEN
    requires var c := Last(states).client;
             c.caller.pc == C.Idle && c.sender.pc == C.AwaitCalculator && !c.toSender && c.fromSender
    ensures Run(law, states', events') && states'[0] == states[0]
    ensures var (s, s') := (Last(states), Last(states')); var (c, c') := (s.client, s'.client);
            && c'.caller == c.caller.(pc := C.AwaitListener, payload := p)
            && c'.requests == c.requests + [p] && c'.station == c.station
            && c'.sender.pc == C.AwaitCalculator && !c'.toSender && c'.fromSender
            && s'.server == s.server.(one := s'.server.one, two := s'.server.two)
            && (exists v :: s'.server.one == s.server.one.Arrive(v))
            && (exists v :: s'.server.two == s.server.two.Arrive(v))
  {
    states', events' := CallerAsks(law, states, events, p);
    states', events' := SenderFetches(law, states', events');
    states', events' := SenderSends(law, states', events');
  }

  /** The server answers once. */
  lemma {:induction false} ServerAnswers(law: Law, states: seq<State>, events: seq<Event>,
                                         picks: seq<nat>, stored: bool, pick: nat)
    returns (states': seq<State>, events': seq<Event>)
    requires Run(law, states, events) && W.Between(Last(states).server, picks, stored)
    requires S.InWindow(pick, |picks|) && pick < W.Pairs(Last(states).server)
    requires Last(states).client.station.port == Last(states).server.sender.sent
    ensures Run(law, states', events') && states'[0] == states[0]
    ensures var (s, s') := (Last(states), Last(states'));
            && W.Between(s'.server, picks + [pick], pick == |picks| + 1) && W.SamePorts(s.server, s'.server)
            && s'.client == s.client.(station := s.client.station.(port := s'.server.sender.sent))
  {
    var s := Last(states);
    var inner, moves := W.SendNext(law, [s.server], [], picks, stored, pick);
    states', events' := Lift(law, states, events, s.client, inner, moves, |moves|);
  }

  /** One whole call, answered by the calculation of the request before its own or of its own. */
  lemma {:induction false} OneCall(law: Law, states: seq<State>, events: seq<Event>,
                                   picks: seq<nat>, stored: bool, p: Vec, pick: nat)
    returns (states': seq<State>, events': seq<Event>)
    requires Run(law, states, events) && Returned(Last(states), picks, stored)
    requires |p| == C.PAYLOAD_LEN && S.InWindow(pick, |picks|)
    ensures Run(law, states', events') && states'[0] == states[0]
    ensures Returned(Last(states'), picks + [pick], pick == |picks| + 1)
    ensures Last(states').client.requests == Last(states).client.requests + [p]
  {
    states', events' := RequestArrives(law, states, events, p);
    states', events' := ServerAnswers(law, states', events', picks, stored, pick);
    states', events' := ReplyReturns(law, states', events');
  }

  /** The zero request loaded at start-up reaches the server. */
  lemma {:induction false} StartUp(law: Law, s: State)
    returns (states: seq<State>, events: seq<Event>)
    requires Init(s)
    ensures Run(law, states, events) && states[0] == s
    ensures Returned(Last(states), [], false) && Last(states).client.requests == s.client.requests
  {
    states, events := [s], [];
    states, events := SenderFetches(law, states, events);
    states, events := SenderSends(law, states, events);
  }

  /** Each call answered at the request before its own or at its own. */
  ghost predicate Window(picks: seq<nat>) {
    forall k :: 0 <= k < |picks| ==> S.InWindow(picks[k], k)
  }

  ghost predicate Payloads(payloads: seq<Vec>) {
    forall k :: 0 <= k < |payloads| ==> |payloads[k]| == C.PAYLOAD_LEN
  }

  /** A schedule for each way of answering the calls. */
  lemma {:induction false} Schedule(law: Law, s: State, payloads: seq<Vec>, picks: seq<nat>)
    returns (states: seq<State>, events: seq<Event>, stored: bool)
    requires Init(s) && Payloads(payloads) && |picks| == |payloads| && Window(picks)
    ensures Run(law, states, events) && states[0] == s
    ensures Returned(Last(states), picks, stored)
    ensures Last(states).client.requests == s.client.requests + payloads
    decreases |payloads|
  {
    if |payloads| == 0 {
      states, events := StartUp(law, s);
      stored := false;
    } else {
      var n := |payloads| - 1;
      states, events, stored := Schedule(law, s, payloads[..n], picks[..n]);
      states, events := OneCall(law, states, events, picks[..n], stored, payloads[n], picks[n]);
      assert picks[..n] + [picks[n]] == picks && payloads[..n] + [payloads[n]] == payloads;
      stored := picks[n] == n + 1;
    }
  }

  /** Some run from `s` makes these calls and no others, and has returned these replies to them. */
  ghost predicate Returns(law: Law, s: State, payloads: seq<Vec>, replies: seq<Vec>) {
    exists states: seq<State>, events: seq<Event> ::
      && Run(law, states, events) && states[0] == s
      && Last(states).client.requests == s.client.requests + payloads
      && Last(states).client.caller.replies == replies
  }

  /** The replies are the law at the requests picked. */
  ghost predicate Picked(law: Law, requests: seq<Vec>, replies: seq<Vec>, picks: seq<nat>) {
    && |picks| == |replies| && Window(picks)
    && forall k :: 0 <= k < |picks| ==>
         picks[k] < |requests| && replies[k] == law(requests[picks[k]]).Floats()
  }

  lemma {:induction false} ReturnedArePicked(law: Law, states: seq<State>, events: seq<Event>)
    returns (picks: seq<nat>)
    requires Run(law, states, events)
    ensures Picked(law, Last(states).client.requests, Last(states).client.caller.replies, picks)
  {
    RepliesAreFresh(law, states, events);
    picks := Last(states).server.sender.picks[..|Last(states).client.caller.replies|];
  }

  lemma {:induction false} PickedAreReturned(law: Law, s: State, payloads: seq<Vec>, replies: seq<Vec>, picks: seq<nat>)
    requires Init(s) && Payloads(payloads) && |replies| == |payloads|
    requires Picked(law, s.client.requests + payloads, replies, picks)
    ensures Returns(law, s, payloads, replies)
  {
    var states, events, stored := Schedule(law, s, payloads, picks);
    RepliesAreFresh(law, states, events);
    assert Last(states).client.caller.replies == replies;
  }

  /** What any number of calls can return, exactly: each the law at the payload before its own or at its
      own, every combination of the two being the outcome of some schedule. */
  lemma {:induction false} RepliesExactly(law: Law, s: State, payloads: seq<Vec>, replies: seq<Vec>)
    requires Init(s) && Payloads(payloads) && |replies| == |payloads|
    ensures Returns(law, s, payloads, replies)
            <==> exists picks :: Picked(law, s.client.requests + payloads, replies, picks)
  {
    if Returns(law, s, payloads, replies) {
      var states: seq<State>, events: seq<Event> :|
        && Run(law, states, events) && states[0] == s
        && Last(states).client.requests == s.client.requests + payloads
        && Last(states).client.caller.replies == replies;
      var picks := ReturnedArePicked(law, states, events);
    }
    if picks :| Picked(law, s.client.requests + payloads, replies, picks) {
      PickedAreReturned(law, s, payloads, replies, picks);
    }
  }
}
