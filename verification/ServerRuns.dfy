/** What holds on every run of the server, whatever arrives and however its threads interleave. */
module ServerRuns {
  import opened Handoff
  import opened Server

  /** A run interleaves thread steps with datagrams arriving on the two ports. */
  datatype Event = Move(thread: Thread) | One(datagram: Vec) | Two(datagram: Vec)

  ghost predicate Happens(law: Law, s: State, e: Event, s': State) {
    match e
    case Move(t) => Enabled(s, t) && s' == Step(law, s, t)
    case One(v) => s' == s.(one := s.one.Arrive(v))
    case Two(v) => s' == s.(two := s.two.Arrive(v))
  }

  ghost predicate Run(law: Law, states: seq<State>, events: seq<Event>) {
    && |states| == |events| + 1
    && Init(states[0])
    && forall i :: 0 <= i < |events| ==> Happens(law, states[i], events[i], states[i + 1])
  }

  lemma {:induction false} RunGrows(law: Law, states: seq<State>, events: seq<Event>, e: Event, s: State)
    requires Run(law, states, events) && Happens(law, states[|events|], e, s)
    ensures Run(law, states + [s], events + [e])
  {
    var states', events' := states + [s], events + [e];
    forall i | 0 <= i < |events'|
      ensures Happens(law, states'[i], events'[i], states'[i + 1])
    {
    }
  }

  function Moves(events: seq<Event>): nat {
    if events == [] then 0
    else Moves(events[..|events| - 1]) + Bit(events[|events| - 1].Move?)
  }

  function Min(a: int, b: int): int { if a < b then a else b }

  lemma {:induction false} HappensKeepsInv(law: Law, s: State, e: Event, s': State)
    requires Inv(law, s) && Happens(law, s, e, s')
    ensures Inv(law, s')
  {
    match e
    case One(v) => ArrivalKeepsInv(law, s, v);
    case Two(v) => ArrivalKeepsInv(law, s, v);
    case Move(t) => StepKeepsInv(law, s, t);
  }

  lemma {:induction false} StepCounts(law: Law, s: State, e: Event, s': State)
    requires Inv(law, s) && Happens(law, s, e, s')
    ensures Steps(s') == Steps(s) + Bit(e.Move?)
  {
    match e
    case One(v) =>
    case Two(v) =>
    case Move(t) => StepIsOneStep(law, s, t);
  }

  lemma {:induction false} RunPrefix(law: Law, states: seq<State>, events: seq<Event>)
    requires Run(law, states, events) && |events| > 0
    ensures var n := |events| - 1;
            && Run(law, states[..n + 1], events[..n]) && states[..n + 1][n] == states[n]
            && Happens(law, states[n], events[n], states[n + 1])
            && Moves(events) == Moves(events[..n]) + Bit(events[n].Move?)
  {
  }

  lemma {:induction false} EventKeeps(law: Law, s: State, e: Event, s': State)
    requires Inv(law, s) && Happens(law, s, e, s')
    ensures Inv(law, s') && Steps(s') == Steps(s) + Bit(e.Move?)
  {
    HappensKeepsInv(law, s, e, s');
    StepCounts(law, s, e, s');
  }

  lemma {:induction false} LastEventKeeps(law: Law, states: seq<State>, events: seq<Event>)
    requires |states| == |events| + 1 && |events| > 0
    requires var n := |events| - 1;
             && Inv(law, states[n]) && Steps(states[n]) == Moves(events[..n])
             && Happens(law, states[n], events[n], states[n + 1])
    ensures Inv(law, states[|events|]) && Steps(states[|events|]) == Moves(events)
  {
    var n := |events| - 1;
    EventKeeps(law, states[n], events[n], states[n + 1]);
  }

  lemma {:induction false} InitialCount(s: State)
    requires Init(s)
    ensures Steps(s) == 0
  {
  }

  /** The invariant holds throughout, and each thread step adds exactly one to the step count. */
  lemma {:induction false} RunInv(law: Law, states: seq<State>, events: seq<Event>)
    requires Run(law, states, events)
    ensures Inv(law, states[|events|])
    ensures Steps(states[|events|]) == Moves(events)
    decreases |events|
  {
    if |events| == 0 {
      InitialInv(law, states[0]);
      InitialCount(states[0]);
    } else {
      var n := |events| - 1;
      RunPrefix(law, states, events);
      RunInv(law, states[..n + 1], events[..n]);
      LastEventKeeps(law, states, events);
    }
  }

  /** The k-th datagram sent answers the k-th pair of requests or the one after it, and the pairs
      answered never go backwards. */
  lemma {:induction false} SentWindow(law: Law, states: seq<State>, events: seq<Event>)
    requires Run(law, states, events)
    ensures var s := states[|events|]; var picks := s.sender.picks;
            && |s.sender.sent| == |picks|
            && (forall k :: 0 <= k < |picks| ==>
                  && (picks[k] == k || picks[k] == k + 1)
                  && picks[k] < |s.one.port| && picks[k] < |s.two.port|
                  && s.sender.sent[k] == law(s.one.port[picks[k]] + s.two.port[picks[k]]).Floats())
            && (forall j, k :: 0 <= j < k < |picks| ==> picks[j] <= picks[k])
  {
    RunInv(law, states, events);
    var w := states[|events|].sender;
    forall j, k | 0 <= j < k < |w.picks|
      ensures w.picks[j] <= w.picks[k]
    {
      assert InWindow(w.picks[j], j) && InWindow(w.picks[k], k);
    }
    forall k | 0 <= k < |w.picks|
      ensures w.picks[k] == k || w.picks[k] == k + 1
    {
      assert InWindow(w.picks[k], k);
    }
  }

  /** No two threads are at a slot of the BatchStock together, although reading takes no mutex; a
      listener only ever fills an empty slot; no thread raises a flag that is already up. */
  ghost predicate Exclusive(s: State) {
    var pc := s.calculator.pc;
    && (pc == GetFirst || pc == CleanStock ==> s.one.listener.pc != Store)
    && (pc == GetSecond || pc == CleanStock ==> s.two.listener.pc != Store)
    && (s.one.listener.pc == Store ==> s.one.box.slot == Null)
    && (s.two.listener.pc == Store ==> s.two.box.slot == Null)
    && (s.one.listener.pc == SignalFull ==> !s.one.box.full)
    && (s.two.listener.pc == SignalFull ==> !s.two.box.full)
    && (pc == SignalOne ==> !s.one.box.empty)
    && (pc == SignalTwo ==> !s.two.box.empty)
    && (pc == SignalSender ==> !s.calcSignal)
    && (s.sender.pc == SignalReady ==> !s.senderSignal)
  }

  lemma {:induction false} ControlIsExclusive(s: State)
    requires StationsInv(s) && SignalInv(s)
    ensures Exclusive(s)
  {
    var c := s.calculator;
    TokenConserved(s.one, c.Past(0), c.Past(4), c.Past(5));
    TokenConserved(s.two, c.Past(1), c.Past(4), c.Past(6));
  }

  /** The six flags in pairs: each pair's one token is in one of its flags or with one of its threads. */
  lemma {:induction false} TokensConserved(law: Law, states: seq<State>, events: seq<Event>)
    requires Run(law, states, events)
    ensures var s := states[|events|]; var c := s.calculator;
            && Bit(s.one.box.full) + Bit(s.one.box.empty) + Bit(s.one.listener.At() > 1) + Bit(0 < c.At() <= 5) == 1
            && Bit(s.two.box.full) + Bit(s.two.box.empty) + Bit(s.two.listener.At() > 1) + Bit(1 < c.At() <= 6) == 1
            && Bit(s.calcSignal) + Bit(s.senderSignal) + Bit(c.At() > 9) + Bit(s.sender.At() > 0) == 1
  {
    RunInv(law, states, events);
    var c := states[|events|].calculator;
    TokenConserved(states[|events|].one, c.Past(0), c.Past(4), c.Past(5));
    TokenConserved(states[|events|].two, c.Past(1), c.Past(4), c.Past(6));
  }

  /** Calculation k is the law at the k-th batch of port one followed by the k-th of port two: batches
      are paired by number, each used once and none skipped. */
  lemma {:induction false} CalculationsPairUp(law: Law, states: seq<State>, events: seq<Event>)
    requires Run(law, states, events)
    ensures var s := states[|events|]; var made := s.calculator.made;
            && s.calculator.rounds <= |made| <= s.calculator.rounds + 1
            && |made| <= |s.one.port| && |made| <= |s.two.port|
            && forall k :: 0 <= k < |made| ==> made[k] == law(s.one.port[k] + s.two.port[k]).Floats()
  {
    RunInv(law, states, events);
  }

  lemma {:induction false} Exclusion(law: Law, states: seq<State>, events: seq<Event>)
    requires Run(law, states, events)
    ensures Exclusive(states[|events|])
  {
    RunInv(law, states, events);
    ControlIsExclusive(states[|events|]);
  }

  ghost predicate Quiescent(s: State) { forall t: Thread :: !Enabled(s, t) }

  /** Everything that can be paired up has been calculated and sent, every flag has been handed
      back, and each listener has gone one datagram further than it could deliver. */
  ghost predicate Drained(s: State) {
    var n1, n2 := |s.one.port|, |s.two.port|;
    var m := Min(n1, n2);
    && s.sender.rounds == s.calculator.rounds == m
    && s.calculator.Past(0) == s.one.listener.rounds == Min(n1, m + 1)
    && s.two.listener.rounds == Min(n2, m + 1)
    && s.one.listener.Received() == Min(n1, m + 2)
    && s.two.listener.Received() == Min(n2, m + 2)
  }

  lemma {:induction false} QuiescentDrained(law: Law, s: State)
    requires Inv(law, s) && Quiescent(s)
    ensures Drained(s)
  {
    assert !Enabled(s, ListenerOne) && !Enabled(s, ListenerTwo);
    assert !Enabled(s, CalculatorThread) && !Enabled(s, SenderThread);
  }

  lemma {:induction false} DrainedQuiescent(law: Law, s: State)
    requires Inv(law, s) && Drained(s)
    ensures Quiescent(s)
  {
  }

  lemma {:induction false} QuiescentExactly(law: Law, s: State)
    requires Inv(law, s)
    ensures Quiescent(s) <==> Drained(s)
  {
    if Quiescent(s) {
      QuiescentDrained(law, s);
    }
    if Drained(s) {
      DrainedQuiescent(law, s);
    }
  }

  /** A run cannot go on exactly when the server is drained; then it has made and sent one result
      for each pair of datagrams. */
  lemma {:induction false} StopsExactlyWhenDrained(law: Law, states: seq<State>, events: seq<Event>)
    requires Run(law, states, events)
    ensures var s := states[|events|]; var m := Min(|s.one.port|, |s.two.port|);
            && (Quiescent(s) <==> Drained(s))
            && (Quiescent(s) ==> |s.calculator.made| == m && |s.sender.sent| == m)
  {
    RunInv(law, states, events);
    QuiescentExactly(law, states[|events|]);
  }

  /** How many steps each thread can take when `n1` and `n2` datagrams have arrived: a listener stores
      one datagram more than can be paired up and receives one more still. */
  function ListenerMoves(n: int, pairs: int): int { 4 * Min(n, pairs + 1) + Bit(n >= pairs + 2) }

  function CalculatorMoves(n1: int, pairs: int): int { 11 * pairs + Bit(n1 > pairs) }

  function AllMoves(n1: int, n2: int): int {
    var m := Min(n1, n2);
    ListenerMoves(n1, m) + ListenerMoves(n2, m) + CalculatorMoves(n1, m) + 5 * m
  }

  lemma {:induction false} ListenerStepsBounded(st: Station, takes: nat, cleaned: nat, gives: nat, pairs: nat)
    requires StationInv(st, takes, cleaned, gives) && gives <= pairs <= |st.port|
    ensures var l, n := st.listener, |st.port|;
            && l.Steps() <= ListenerMoves(n, pairs)
            && (l.Steps() == ListenerMoves(n, pairs) ==>
                  l.rounds == Min(n, pairs + 1) && l.Received() == Min(n, pairs + 2))
            && (l.rounds == Min(n, pairs + 1) && l.Received() == Min(n, pairs + 2) ==>
                  l.Steps() == ListenerMoves(n, pairs))
  {
  }

  lemma {:induction false} CalculatorStepsBounded(s: State)
    requires StationsInv(s)
    ensures var n1 := |s.one.port|; var m := Min(n1, |s.two.port|); var c := s.calculator;
            && c.rounds <= m
            && c.Steps() <= CalculatorMoves(n1, m)
            && (c.Steps() == CalculatorMoves(n1, m) <==> c.rounds == m && c.Past(0) == Min(n1, m + 1))
  {
    var c := s.calculator;
    assert c.Past(0) <= |s.one.port| && c.Past(1) <= |s.two.port|;
  }

  lemma {:induction false} SenderStepsBounded(s: State)
    requires SignalInv(s)
    ensures var c, w := s.calculator, s.sender;
            && w.Steps() <= 5 * c.rounds
            && (w.Steps() == 5 * c.rounds <==> w.rounds == c.rounds)
  {
  }

  lemma {:induction false} StepsBounded(s: State)
    requires StationsInv(s) && SignalInv(s)
    ensures Steps(s) <= AllMoves(|s.one.port|, |s.two.port|)
    ensures Steps(s) == AllMoves(|s.one.port|, |s.two.port|) <==> Drained(s)
  {
    var c := s.calculator;
    var m := Min(|s.one.port|, |s.two.port|);
    CalculatorStepsBounded(s);
    SenderStepsBounded(s);
    ListenerStepsBounded(s.one, c.Past(0), c.Past(4), c.Past(5), m);
    ListenerStepsBounded(s.two, c.Past(1), c.Past(4), c.Past(6), m);
  }

  /** In all: 24 steps for each pair, and those spent on what cannot be paired. */
  function StepsInAll(n1: int, n2: int): int {
    24 * Min(n1, n2) + if n1 == n2 then 0 else 4 + Bit(n1 > n2) + Bit(n1 >= n2 + 2 || n2 >= n1 + 2)
  }

  lemma {:induction false} MovesAddUp(n1: int, n2: int)
    ensures AllMoves(n1, n2) == StepsInAll(n1, n2)
  {
  }

  /** How long a run can be, with `n1` and `n2` datagrams arrived: it has had at most `StepsInAll(n1, n2)`
      thread steps, whatever the schedule and with no assumption on fairness, and no thread can move
      exactly when it has had that many. */
  lemma {:induction false} RunsAreBounded(law: Law, states: seq<State>, events: seq<Event>)
    requires Run(law, states, events)
    ensures var s := states[|events|]; var all := StepsInAll(|s.one.port|, |s.two.port|);
            && Moves(events) <= all
            && (Quiescent(s) <==> Moves(events) == all)
  {
    RunInv(law, states, events);
    var s := states[|events|];
    QuiescentExactly(law, s);
    StepsBounded(s);
    MovesAddUp(|s.one.port|, |s.two.port|);
  }
}
