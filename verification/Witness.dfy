/** Which calculations the server can send: with datagrams waiting and nothing more arriving, the
    sequences the window of `ServerRuns` allows are exactly those some schedule sends. */
module Witness {
  import opened Handoff
  import opened Server
  import opened ServerRuns

  function Last(states: seq<State>): State
    requires |states| > 0
  {
    states[|states| - 1]
  }

  /** A stretch of a run, from any state, in which nothing arrives. */
  ghost predicate Undisturbed(law: Law, states: seq<State>, events: seq<Event>) {
    && |states| == |events| + 1
    && forall i :: 0 <= i < |events| ==> events[i].Move? && Happens(law, states[i], events[i], states[i + 1])
  }

  lemma {:induction false} Extend(law: Law, states: seq<State>, events: seq<Event>, t: Thread)
    returns (states': seq<State>, events': seq<Event>)
    requires Undisturbed(law, states, events) && Enabled(Last(states), t)
    ensures Undisturbed(law, states', events') && states'[0] == states[0] && Last(states') == Step(law, Last(states), t)
  {
    states', events' := states + [Step(law, Last(states), t)], events + [Move(t)];
  }

  lemma {:induction false} ListenerOneRound(law: Law, states: seq<State>, events: seq<Event>)
    returns (states': seq<State>, events': seq<Event>)
    requires Undisturbed(law, states, events)
    requires var st := Last(states).one; st.listener.pc == Receive && st.box.empty && st.listener.rounds < |st.port|
    ensures Undisturbed(law, states', events') && states'[0] == states[0]
    ensures var s := Last(states); var n := s.one.listener.rounds; var v := s.one.port[n];
            Last(states') == s.(one := Station(Listener(Receive, n + 1, v), Mailbox(true, false, Batch(v)), s.one.port))
  {
    states', events' := Extend(law, states, events, ListenerOne);
    states', events' := Extend(law, states', events', ListenerOne);
    states', events' := Extend(law, states', events', ListenerOne);
    states', events' := Extend(law, states', events', ListenerOne);
  }

  lemma {:induction false} ListenerTwoRound(law: Law, states: seq<State>, events: seq<Event>)
    returns (states': seq<State>, events': seq<Event>)
    requires Undisturbed(law, states, events)
    requires var st := Last(states).two; st.listener.pc == Receive && st.box.empty && st.listener.rounds < |st.port|
    ensures Undisturbed(law, states', events') && states'[0] == states[0]
    ensures var s := Last(states); var n := s.two.listener.rounds; var v := s.two.port[n];
            Last(states') == s.(two := Station(Listener(Receive, n + 1, v), Mailbox(true, false, Batch(v)), s.two.port))
  {
    states', events' := Extend(law, states, events, ListenerTwo);
    states', events' := Extend(law, states', events', ListenerTwo);
    states', events' := Extend(law, states', events', ListenerTwo);
    states', events' := Extend(law, states', events', ListenerTwo);
  }

  lemma {:induction false} CalculatorCopies(law: Law, states: seq<State>, events: seq<Event>)
    returns (states': seq<State>, events': seq<Event>)
    requires Undisturbed(law, states, events)
    requires var s := Last(states); s.calculator.pc == AwaitOne && s.one.box.full && s.two.box.full
    ensures Undisturbed(law, states', events') && states'[0] == states[0]
    ensures var s := Last(states); var c := s.calculator;
            Last(states') == s.(one := s.one.(box := s.one.box.(full := false)),
                                two := s.two.(box := s.two.box.(full := false)),
                                calculator := Calculator(CleanStock, c.rounds, Copy(s.one.box.slot),
                                                         Copy(s.two.box.slot), c.made))
  {
    states', events' := Extend(law, states, events, CalculatorThread);
    states', events' := Extend(law, states', events', CalculatorThread);
    states', events' := Extend(law, states', events', CalculatorThread);
    states', events' := Extend(law, states', events', CalculatorThread);
  }

  lemma {:induction false} CalculatorReleases(law: Law, states: seq<State>, events: seq<Event>)
    returns (states': seq<State>, events': seq<Event>)
    requires Undisturbed(law, states, events)
    requires Last(states).calculator.pc == CleanStock
    ensures Undisturbed(law, states', events') && states'[0] == states[0]
    ensures var s := Last(states);
            Last(states') == s.(one := s.one.(box := Mailbox(s.one.box.full, true, Null)),
                                two := s.two.(box := Mailbox(s.two.box.full, true, Null)),
                                calculator := s.calculator.(pc := StoreResult))
  {
    states', events' := Extend(law, states, events, CalculatorThread);
    states', events' := Extend(law, states', events', CalculatorThread);
    states', events' := Extend(law, states', events', CalculatorThread);
  }

  /** One whole round of listeners and calculator up to the point of storing the result. */
  lemma {:induction false} RoundToStore(law: Law, states: seq<State>, events: seq<Event>)
    returns (states': seq<State>, events': seq<Event>)
    requires Undisturbed(law, states, events)
    requires var s := Last(states); var n := s.calculator.rounds;
             && s.calculator.pc == AwaitOne
             && s.one.listener.pc == Receive && s.one.box.empty && s.one.listener.rounds == n < |s.one.port|
             && s.two.listener.pc == Receive && s.two.box.empty && s.two.listener.rounds == n < |s.two.port|
    ensures Undisturbed(law, states', events') && states'[0] == states[0]
    ensures var s, s' := Last(states), Last(states'); var n := s.calculator.rounds;
            && s'.calculator == Calculator(StoreResult, n, s.one.port[n], s.two.port[n], s.calculator.made)
            && s'.one.listener.pc == Receive && s'.one.box.empty && s'.one.listener.rounds == n + 1
            && s'.two.listener.pc == Receive && s'.two.box.empty && s'.two.listener.rounds == n + 1
            && s'.one.port == s.one.port && s'.two.port == s.two.port
            && s'.sender == s.sender && s'.calcSignal == s.calcSignal && s'.senderSignal == s.senderSignal
  {
    states', events' := ListenerOneRound(law, states, events);
    states', events' := ListenerTwoRound(law, states', events');
    states', events' := CalculatorCopies(law, states', events');
    states', events' := CalculatorReleases(law, states', events');
  }

  /** And the first of the two steps that store the result. */
  lemma {:induction false} RoundToLength(law: Law, states: seq<State>, events: seq<Event>)
    returns (states': seq<State>, events': seq<Event>)
    requires Undisturbed(law, states, events) && AtRound(Last(states), Last(states).calculator.rounds, false)
    requires var s := Last(states); s.calculator.rounds < Pairs(s)
    ensures Undisturbed(law, states', events') && states'[0] == states[0]
    ensures var s, s' := Last(states), Last(states'); var n := s.calculator.rounds;
            && AtRound(s', n, true) && |s'.result| == 4 && |s'.calculator.made| == |s.calculator.made| + 1
            && s'.one.port == s.one.port && s'.two.port == s.two.port
            && s'.sender == s.sender && s'.calcSignal == s.calcSignal && s'.senderSignal == s.senderSignal
  {
    states', events' := RoundToStore(law, states, events);
    states', events' := Extend(law, states', events', CalculatorThread);
  }

  lemma {:induction false} FinishRound(law: Law, states: seq<State>, events: seq<Event>)
    returns (states': seq<State>, events': seq<Event>)
    requires Undisturbed(law, states, events)
    requires Last(states).calculator.pc == StoreLength && Last(states).senderSignal
    ensures Undisturbed(law, states', events') && states'[0] == states[0]
    ensures var s := Last(states); var c := s.calculator;
            Last(states') == s.(calculator := c.(pc := AwaitOne, rounds := c.rounds + 1),
                                resultLen := 4, senderSignal := false, calcSignal := true)
  {
    states', events' := Extend(law, states, events, CalculatorThread);
    states', events' := Extend(law, states', events', CalculatorThread);
    states', events' := Extend(law, states', events', CalculatorThread);
  }

  lemma {:induction false} FetchLengthOnly(law: Law, states: seq<State>, events: seq<Event>)
    returns (states': seq<State>, events': seq<Event>)
    requires Undisturbed(law, states, events) && Last(states).sender.pc == AwaitCalculator && Last(states).calcSignal
    ensures Undisturbed(law, states', events') && states'[0] == states[0]
    ensures var s := Last(states);
            Last(states') == s.(sender := s.sender.(pc := FetchResult, len := s.resultLen), calcSignal := false)
  {
    states', events' := Extend(law, states, events, SenderThread);
    states', events' := Extend(law, states', events', SenderThread);
  }

  lemma {:induction false} FetchAndSend(law: Law, states: seq<State>, events: seq<Event>)
    returns (states': seq<State>, events': seq<Event>)
    requires Undisturbed(law, states, events) && Last(states).sender.pc == FetchResult
    requires |Last(states).calculator.made| > 0
    ensures Undisturbed(law, states', events') && states'[0] == states[0]
    ensures var s, s' := Last(states), Last(states');
            && s' == s.(sender := s'.sender, senderSignal := true)
            && s'.sender.pc == AwaitCalculator && s'.sender.rounds == s.sender.rounds + 1
            && s'.sender.picks == s.sender.picks + [|s.calculator.made| - 1]
            && |s'.sender.sent| == |s.sender.sent| + 1
  {
    states', events' := Extend(law, states, events, SenderThread);
    states', events' := Extend(law, states', events', SenderThread);
    states', events' := Extend(law, states', events', SenderThread);
  }

  // ---- Which calculations can be sent ----

  function Pairs(s: State): int { Min(|s.one.port|, |s.two.port|) }

  /** The calculator is about to begin round `n`, or has stored that round's result already, and the
      listeners wait for datagrams. */
  predicate AtRound(s: State, n: nat, stored: bool) {
    && s.calculator.rounds == n && s.calculator.pc == (if stored then StoreLength else AwaitOne)
    && s.one.listener.pc == Receive && s.one.box.empty && s.one.listener.rounds == n + Bit(stored)
    && s.two.listener.pc == Receive && s.two.box.empty && s.two.listener.rounds == n + Bit(stored)
  }

  /** The sender has finished `picks` and waits for the calculator. */
  predicate Between(s: State, picks: seq<nat>, stored: bool) {
    && AtRound(s, |picks|, stored) && |s.calculator.made| == |picks| + Bit(stored)
    && s.sender.pc == AwaitCalculator && s.sender.picks == picks && |s.sender.sent| == |picks|
    && !s.calcSignal && s.senderSignal
  }

  predicate SamePorts(s: State, s': State) { s'.one.port == s.one.port && s'.two.port == s.two.port }

  /** The calculator finishes the round it is in, or the next one, and the sender fetches its length. */
  lemma {:induction false} ToFetch(law: Law, states: seq<State>, events: seq<Event>, picks: seq<nat>, stored: bool)
    returns (states': seq<State>, events': seq<Event>)
    requires Undisturbed(law, states, events) && Between(Last(states), picks, stored)
    requires |picks| < Pairs(Last(states))
    ensures Undisturbed(law, states', events') && states'[0] == states[0]
    ensures var s' := Last(states');
            && SamePorts(Last(states), s') && AtRound(s', |picks| + 1, false)
            && |s'.calculator.made| == |picks| + 1
            && s'.sender.pc == FetchResult && s'.sender.picks == picks && |s'.sender.sent| == |picks|
            && !s'.calcSignal && !s'.senderSignal
  {
    states', events' := states, events;
    if !stored {
      states', events' := RoundToLength(law, states', events');
    }
    states', events' := FinishRound(law, states', events');
    states', events' := FetchLengthOnly(law, states', events');
  }

  /** The next datagram is the calculation of its own number, or the one after it: then the calculator
      stored that one after the sender was signalled and before it read the store. */
  lemma {:induction false} SendNext(law: Law, states: seq<State>, events: seq<Event>, picks: seq<nat>, stored: bool,
                                    pick: nat)
    returns (states': seq<State>, events': seq<Event>)
    requires Undisturbed(law, states, events) && Between(Last(states), picks, stored)
    requires InWindow(pick, |picks|) && pick < Pairs(Last(states))
    ensures Undisturbed(law, states', events') && states'[0] == states[0]
    ensures SamePorts(Last(states), Last(states')) && Between(Last(states'), picks + [pick], pick == |picks| + 1)
  {
    states', events' := ToFetch(law, states, events, picks, stored);
    if pick == |picks| + 1 {
      states', events' := RoundToLength(law, states', events');
    }
    states', events' := FetchAndSend(law, states', events');
  }

  /** What the window allows the first datagrams to carry when `pairs` pairs have arrived. */
  ghost predicate Sendable(picks: seq<nat>, pairs: int) {
    forall k :: 0 <= k < |picks| ==> InWindow(picks[k], k) && picks[k] < pairs
  }

  /** A schedule for each of them. */
  lemma {:induction false} Schedule(law: Law, s: State, picks: seq<nat>)
    returns (states: seq<State>, events: seq<Event>, stored: bool)
    requires Init(s) && Sendable(picks, Pairs(s))
    ensures Undisturbed(law, states, events) && states[0] == s
    ensures SamePorts(s, Last(states)) && Between(Last(states), picks, stored)
    decreases |picks|
  {
    if |picks| == 0 {
      states, events, stored := [s], [], false;
    } else {
      var n := |picks| - 1;
      states, events, stored := Schedule(law, s, picks[..n]);
      states, events := SendNext(law, states, events, picks[..n], stored, picks[n]);
      assert picks[..n] + [picks[n]] == picks;
      stored := picks[n] == n + 1;
    }
  }

  /** Some run from `s` on which nothing arrives has sent exactly these calculations. */
  ghost predicate Sends(law: Law, s: State, picks: seq<nat>) {
    exists states: seq<State>, events: seq<Event> ::
      Undisturbed(law, states, events) && states[0] == s && Last(states).sender.picks == picks
  }

  lemma {:induction false} MoveKeepsPorts(law: Law, s: State, t: Thread)
    requires Enabled(s, t)
    ensures SamePorts(s, Step(law, s, t))
  {
    match t
    case CalculatorThread => CalculatorKeepsPorts(law, s);
    case SenderThread => SenderIsOneStep(s);
    case _ =>
  }

  lemma {:induction false} UndisturbedKeepsPorts(law: Law, states: seq<State>, events: seq<Event>)
    requires Undisturbed(law, states, events)
    ensures SamePorts(states[0], Last(states))
    decreases |events|
  {
    if |events| > 0 {
      var n := |events| - 1;
      UndisturbedKeepsPorts(law, states[..n + 1], events[..n]);
      assert Happens(law, states[n], events[n], states[n + 1]);
      MoveKeepsPorts(law, states[n], events[n].thread);
    }
  }

  /** Which sequences of calculations the server can have sent: each datagram carries the calculation of
      its own number or the next, provided that pair has arrived, in every combination. */
  lemma {:induction false} SendsExactlySendable(law: Law, s: State, picks: seq<nat>)
    requires Init(s)
    ensures Sends(law, s, picks) <==> Sendable(picks, Pairs(s))
  {
    if Sends(law, s, picks) {
      var states: seq<State>, events: seq<Event> :|
        Undisturbed(law, states, events) && states[0] == s && Last(states).sender.picks == picks;
      SentWindow(law, states, events);
      UndisturbedKeepsPorts(law, states, events);
    }
    if Sendable(picks, Pairs(s)) {
      var states, events, stored := Schedule(law, s, picks);
    }
  }

  /** Datagram k carries calculation k for every k. */
  ghost predicate OneToOne(picks: seq<nat>) { forall k :: 0 <= k < |picks| ==> picks[k] == k }

  /** The server sends calculation k as datagram k under every schedule exactly when at most one pair of
      datagrams can be formed. */
  lemma {:induction false} OneToOneExactlyForOnePair(law: Law, s: State)
    requires Init(s)
    ensures (forall picks :: Sends(law, s, picks) ==> OneToOne(picks)) <==> Pairs(s) <= 1
  {
    if Pairs(s) <= 1 {
      forall picks | Sends(law, s, picks)
        ensures OneToOne(picks)
      {
        SendsExactlySendable(law, s, picks);
      }
    } else {
      var picks: seq<nat> := [1];
      SendsExactlySendable(law, s, picks);
      assert Sends(law, s, picks) && picks[0] != 0;
    }
  }
}
