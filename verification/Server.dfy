/** The server (server/main.c, server/run_listener.c, server/run_sender.c): two listeners, the
    calculator and the sender, interleaved one step at a time in every order. */
module Server {
  import opened Handoff

  /** The calculator's round (server/main.c:89-104), in program order. */
  datatype CalcPc =
    | AwaitOne | AwaitTwo | GetFirst | GetSecond | CleanStock | SignalOne | SignalTwo
    | StoreResult | StoreLength | AwaitSender | SignalSender

  /** `made` is the history of every calculation. */
  datatype Calculator = Calculator(pc: CalcPc, rounds: nat, first: Vec, second: Vec, made: seq<Vec>) {
    function At(): nat {
      match pc
      case AwaitOne => 0 case AwaitTwo => 1 case GetFirst => 2 case GetSecond => 3
      case CleanStock => 4 case SignalOne => 5 case SignalTwo => 6 case StoreResult => 7
      case StoreLength => 8 case AwaitSender => 9 case SignalSender => 10
    }

    /** How many rounds have got past the step numbered `k`. */
    function Past(k: nat): nat { rounds + Bit(At() > k) }

    function Steps(): nat { 11 * rounds + At() }
  }

  /** The sender's round (server/run_sender.c:16-26). */
  datatype SenderPc = AwaitCalculator | FetchLength | FetchResult | Send | SignalReady

  /** `pick` records which calculation the fetched buffer holds, `sent` and `picks` every datagram
      sent and the number of the calculation it carried. */
  datatype Sender = Sender(pc: SenderPc, rounds: nat, len: nat, calcs: Vec, pick: nat,
                           sent: seq<Vec>, picks: seq<nat>) {
    function At(): nat {
      match pc
      case AwaitCalculator => 0 case FetchLength => 1 case FetchResult => 2 case Send => 3
      case SignalReady => 4
    }

    function Past(k: nat): nat { rounds + Bit(At() > k) }

    function Steps(): nat { 5 * rounds + At() }

    /** The datagram built from the fetched pointer and length. */
    function Datagram(): Vec { if len <= |calcs| then calcs[..len] else calcs }
  }

  /** The two slots of the BatchStock live in the stations, the CalculationsStock in `result` and
      `resultLen`; `calcSignal` and `senderSignal` are the sender's two condition packs. */
  datatype State = State(
    one: Station, two: Station, calculator: Calculator, sender: Sender,
    calcSignal: bool, senderSignal: bool, result: Vec, resultLen: nat)

  /** Initial flags and empty stocks (server/main.c:110-141), whatever has been delivered already. */
  predicate Init(s: State) {
    && FreshListener(s.one.listener) && IdleBox(s.one.box)
    && FreshListener(s.two.listener) && IdleBox(s.two.box)
    && s.calculator.pc == AwaitOne && s.calculator.rounds == |s.calculator.made| == 0
    && s.sender.pc == AwaitCalculator && s.sender.rounds == |s.sender.sent| == |s.sender.picks| == 0
    && !s.calcSignal && s.senderSignal && s.resultLen == 0
  }

  datatype Thread = ListenerOne | ListenerTwo | CalculatorThread | SenderThread

  predicate Enabled(s: State, t: Thread) {
    match t
    case ListenerOne => ListenerEnabled(s.one)
    case ListenerTwo => ListenerEnabled(s.two)
    case CalculatorThread =>
      && (s.calculator.pc == AwaitOne ==> s.one.box.full)
      && (s.calculator.pc == AwaitTwo ==> s.two.box.full)
      && (s.calculator.pc == AwaitSender ==> s.senderSignal)
    case SenderThread =>
      s.sender.pc == AwaitCalculator ==> s.calcSignal
  }

  function Step(law: Law, s: State, t: Thread): State
    requires Enabled(s, t)
  {
    match t
    case ListenerOne => s.(one := ListenerStep(s.one))
    case ListenerTwo => s.(two := ListenerStep(s.two))
    case CalculatorThread => CalculatorStep(law, s)
    case SenderThread => SenderStep(s)
  }

  function NextPc(pc: CalcPc): CalcPc {
    match pc
    case AwaitOne => AwaitTwo case AwaitTwo => GetFirst case GetFirst => GetSecond
    case GetSecond => CleanStock case CleanStock => SignalOne case SignalOne => SignalTwo
    case SignalTwo => StoreResult case StoreResult => StoreLength case StoreLength => AwaitSender
    case AwaitSender => SignalSender case SignalSender => AwaitOne
  }

  /** What the calculator's step does to each slot of the BatchStock. */
  function EventOne(pc: CalcPc): ReaderEvent {
    match pc
    case AwaitOne => Take case CleanStock => Clean case SignalOne => Give case _ => Nothing
  }

  function EventTwo(pc: CalcPc): ReaderEvent {
    match pc
    case AwaitTwo => Take case CleanStock => Clean case SignalTwo => Give case _ => Nothing
  }

  function Calculation(law: Law, c: Calculator): Vec { law(c.first + c.second).Floats() }

  function NextCalculator(law: Law, c: Calculator, one: Slot, two: Slot): Calculator {
    Calculator(
      NextPc(c.pc),
      c.rounds + Bit(c.pc == SignalSender),
      if c.pc == GetFirst then Copy(one) else c.first,
      if c.pc == GetSecond then Copy(two) else c.second,
      if c.pc == StoreResult then c.made + [Calculation(law, c)] else c.made)
  }

  function CalculatorStep(law: Law, s: State): State {
    var c := s.calculator;
    State(
      ReaderStep(s.one, EventOne(c.pc)),
      ReaderStep(s.two, EventTwo(c.pc)),
      NextCalculator(law, c, s.one.box.slot, s.two.box.slot),
      s.sender,
      s.calcSignal || c.pc == SignalSender,
      s.senderSignal && c.pc != AwaitSender,
      if c.pc == StoreResult then Calculation(law, c) else s.result,
      if c.pc == StoreLength then 4 else s.resultLen)
  }

  function SenderStep(s: State): State {
    var w := s.sender;
    match w.pc
    case AwaitCalculator => s.(sender := w.(pc := FetchLength), calcSignal := false)
    case FetchLength => s.(sender := w.(pc := FetchResult, len := s.resultLen))
    case FetchResult =>
      s.(sender := w.(pc := Send, calcs := s.result,
                      pick := if |s.calculator.made| > 0 then |s.calculator.made| - 1 else 0))
    case Send =>
      s.(sender := w.(pc := SignalReady, sent := w.sent + [w.Datagram()], picks := w.picks + [w.pick]))
    case SignalReady => s.(sender := w.(pc := AwaitCalculator, rounds := w.rounds + 1), senderSignal := true)
  }

  // ---- The invariant ----

  ghost predicate StationsInv(s: State) {
    var c := s.calculator;
    && StationInv(s.one, c.Past(0), c.Past(4), c.Past(5))
    && StationInv(s.two, c.Past(1), c.Past(4), c.Past(6))
  }

  /** The flags between calculator and sender count the rounds each has signalled. */
  ghost predicate SignalInv(s: State) {
    && Bit(s.calcSignal) == s.calculator.rounds - s.sender.Past(0)
    && Bit(s.senderSignal) == 1 + s.sender.rounds - s.calculator.Past(9)
  }

  /** Calculation `k` is the law applied to the k-th datagram of each port. */
  ghost predicate Made(law: Law, made: seq<Vec>, portOne: seq<Vec>, portTwo: seq<Vec>) {
    && |made| <= |portOne| && |made| <= |portTwo|
    && forall k :: 0 <= k < |made| ==> made[k] == law(portOne[k] + portTwo[k]).Floats()
  }

  ghost predicate CalcInv(c: Calculator, portOne: seq<Vec>, portTwo: seq<Vec>) {
    && |c.made| == c.Past(7)
    && (2 < c.At() <= 7 ==> c.rounds < |portOne| && c.first == portOne[c.rounds])
    && (3 < c.At() <= 7 ==> c.rounds < |portTwo| && c.second == portTwo[c.rounds])
  }

  ghost predicate StoreInv(c: Calculator, result: Vec, len: nat) {
    && (|c.made| > 0 ==> result == c.made[|c.made| - 1])
    && (c.Past(8) > 0 ==> len == 4)
  }

  predicate InWindow(pick: nat, k: nat) { pick == k || pick == k + 1 }

  /** Each datagram carries the calculation of its own number or the one after it. */
  ghost predicate SentInv(w: Sender, made: seq<Vec>) {
    && |w.sent| == |w.picks| == w.Past(3)
    && (forall k :: 0 <= k < |w.picks| ==>
          InWindow(w.picks[k], k) && w.picks[k] < |made| && w.sent[k] == made[w.picks[k]])
    && (w.At() > 1 ==> w.len == 4)
    && (w.At() == 3 ==> InWindow(w.pick, w.rounds) && w.pick < |made| && w.calcs == made[w.pick])
  }

  ghost predicate Inv(law: Law, s: State) {
    var c := s.calculator;
    && StationsInv(s)
    && SignalInv(s)
    && Made(law, c.made, s.one.port, s.two.port)
    && CalcInv(c, s.one.port, s.two.port)
    && StoreInv(c, s.result, s.resultLen)
    && SentInv(s.sender, c.made)
  }

  lemma {:induction false} InitialInv(law: Law, s: State)
    requires Init(s)
    ensures Inv(law, s)
  {
  }

  lemma {:induction false} ArrivalKeepsInv(law: Law, s: State, v: Vec)
    requires Inv(law, s)
    ensures Inv(law, s.(one := s.one.Arrive(v)))
    ensures Inv(law, s.(two := s.two.Arrive(v)))
  {
  }

  lemma {:induction false} ListenerKeepsInv(law: Law, s: State, t: Thread)
    requires Inv(law, s) && Enabled(s, t) && (t == ListenerOne || t == ListenerTwo)
    ensures Inv(law, Step(law, s, t))
  {
    var c := s.calculator;
    if t == ListenerOne {
      ListenerStepKeeps(s.one, c.Past(0), c.Past(4), c.Past(5));
    } else {
      ListenerStepKeeps(s.two, c.Past(1), c.Past(4), c.Past(6));
    }
  }

  /** A step numbered `At()` is the only one whose count goes up. */
  lemma {:induction false} CalculatorAdvances(law: Law, c: Calculator, one: Slot, two: Slot, k: nat)
    requires k < 11
    ensures var c' := NextCalculator(law, c, one, two);
            && c'.Past(k) == c.Past(k) + Bit(c.At() == k)
            && c'.Steps() == c.Steps() + 1
  {
  }

  /** The reader's three counts follow what the step does to the slot. */
  lemma {:induction false} CountsOfOne(law: Law, c: Calculator, one: Slot, two: Slot)
    ensures var (c', e) := (NextCalculator(law, c, one, two), EventOne(c.pc));
            && c'.Past(0) == c.Past(0) + Bit(e == Take) && c'.Past(4) == c.Past(4) + Bit(e == Clean)
            && c'.Past(5) == c.Past(5) + Bit(e == Give)
    ensures EventOne(c.pc) == Clean ==> c.Past(4) < c.Past(0)
    ensures EventOne(c.pc) == Give ==> c.Past(5) < c.Past(4)
  {
    CalculatorAdvances(law, c, one, two, 0);
    CalculatorAdvances(law, c, one, two, 4);
    CalculatorAdvances(law, c, one, two, 5);
  }

  lemma {:induction false} CountsOfTwo(law: Law, c: Calculator, one: Slot, two: Slot)
    ensures var (c', e) := (NextCalculator(law, c, one, two), EventTwo(c.pc));
            && c'.Past(1) == c.Past(1) + Bit(e == Take) && c'.Past(4) == c.Past(4) + Bit(e == Clean)
            && c'.Past(6) == c.Past(6) + Bit(e == Give)
    ensures EventTwo(c.pc) == Clean ==> c.Past(4) < c.Past(1)
    ensures EventTwo(c.pc) == Give ==> c.Past(6) < c.Past(4)
  {
    CalculatorAdvances(law, c, one, two, 1);
    CalculatorAdvances(law, c, one, two, 4);
    CalculatorAdvances(law, c, one, two, 6);
  }

  lemma {:induction false} CalculatorKeepsOne(law: Law, c: Calculator, st: Station, one: Slot, two: Slot)
    requires StationInv(st, c.Past(0), c.Past(4), c.Past(5))
    requires c.pc == AwaitOne ==> st.box.full
    ensures var c' := NextCalculator(law, c, one, two);
            StationInv(ReaderStep(st, EventOne(c.pc)), c'.Past(0), c'.Past(4), c'.Past(5))
  {
    CountsOfOne(law, c, one, two);
    ReaderStepKeeps(st, c.Past(0), c.Past(4), c.Past(5), EventOne(c.pc));
  }

  lemma {:induction false} CalculatorKeepsTwo(law: Law, c: Calculator, st: Station, one: Slot, two: Slot)
    requires StationInv(st, c.Past(1), c.Past(4), c.Past(6))
    requires c.pc == AwaitTwo ==> st.box.full
    ensures var c' := NextCalculator(law, c, one, two);
            StationInv(ReaderStep(st, EventTwo(c.pc)), c'.Past(1), c'.Past(4), c'.Past(6))
  {
    CountsOfTwo(law, c, one, two);
    ReaderStepKeeps(st, c.Past(1), c.Past(4), c.Past(6), EventTwo(c.pc));
  }

  lemma {:induction false} CalculatorKeepsSignals(law: Law, s: State)
    requires SignalInv(s) && Enabled(s, CalculatorThread)
    ensures SignalInv(CalculatorStep(law, s))
  {
  }

  lemma {:induction false} CalculatorKeepsCalcs(law: Law, s: State)
    requires StationsInv(s) && CalcInv(s.calculator, s.one.port, s.two.port)
    ensures CalcInv(CalculatorStep(law, s).calculator, s.one.port, s.two.port)
  {
    var c := s.calculator;
    if c.pc == GetFirst {
      ReaderFindsBatch(s.one, c.Past(0), c.Past(4), c.Past(5));
    } else if c.pc == GetSecond {
      ReaderFindsBatch(s.two, c.Past(1), c.Past(4), c.Past(6));
    }
  }

  lemma {:induction false} CalculatorKeepsMade(law: Law, s: State)
    requires CalcInv(s.calculator, s.one.port, s.two.port)
    requires Made(law, s.calculator.made, s.one.port, s.two.port)
    ensures Made(law, CalculatorStep(law, s).calculator.made, s.one.port, s.two.port)
  {
  }

  lemma {:induction false} CalculatorKeepsStore(law: Law, s: State)
    requires |s.calculator.made| == s.calculator.Past(7)
    requires StoreInv(s.calculator, s.result, s.resultLen)
    ensures var s' := CalculatorStep(law, s);
            StoreInv(s'.calculator, s'.result, s'.resultLen)
  {
  }

  lemma {:induction false} CalculatorKeepsSent(law: Law, s: State)
    requires SentInv(s.sender, s.calculator.made)
    ensures SentInv(s.sender, CalculatorStep(law, s).calculator.made)
  {
  }

  lemma {:induction false} CalculatorKeepsStations(law: Law, s: State)
    requires StationsInv(s) && Enabled(s, CalculatorThread)
    ensures StationsInv(CalculatorStep(law, s))
  {
    var c, one, two := s.calculator, s.one.box.slot, s.two.box.slot;
    CalculatorKeepsOne(law, c, s.one, one, two);
    CalculatorKeepsTwo(law, c, s.two, one, two);
  }

  lemma {:induction false} CalculatorKeepsPorts(law: Law, s: State)
    ensures CalculatorStep(law, s).one.listener == s.one.listener
    ensures CalculatorStep(law, s).two.listener == s.two.listener
    ensures CalculatorStep(law, s).one.port == s.one.port
    ensures CalculatorStep(law, s).two.port == s.two.port
    ensures CalculatorStep(law, s).sender == s.sender
  {
  }

  lemma {:induction false} CalculatorKeepsInv(law: Law, s: State)
    requires Inv(law, s) && Enabled(s, CalculatorThread)
    ensures Inv(law, CalculatorStep(law, s))
  {
    CalculatorKeepsPorts(law, s);
    CalculatorKeepsStations(law, s);
    CalculatorKeepsSignals(law, s);
    CalculatorKeepsCalcs(law, s);
    CalculatorKeepsMade(law, s);
    CalculatorKeepsStore(law, s);
    CalculatorKeepsSent(law, s);
  }

  lemma {:induction false} SenderKeepsSignals(s: State)
    requires SignalInv(s) && Enabled(s, SenderThread)
    ensures SignalInv(SenderStep(s))
  {
  }

  lemma {:induction false} SenderKeepsSent(law: Law, s: State)
    requires SignalInv(s) && |s.calculator.made| == s.calculator.Past(7) && Enabled(s, SenderThread)
    requires StoreInv(s.calculator, s.result, s.resultLen) && SentInv(s.sender, s.calculator.made)
    requires Made(law, s.calculator.made, s.one.port, s.two.port)
    ensures SentInv(SenderStep(s).sender, s.calculator.made)
  {
  }

  lemma {:induction false} SenderKeepsInv(law: Law, s: State)
    requires Inv(law, s) && Enabled(s, SenderThread)
    ensures Inv(law, SenderStep(s))
  {
    SenderKeepsSignals(s);
    SenderKeepsSent(law, s);
    var s' := SenderStep(s);
    assert s'.one == s.one && s'.two == s.two && s'.calculator == s.calculator;
  }

  lemma {:induction false} StepKeepsInv(law: Law, s: State, t: Thread)
    requires Inv(law, s) && Enabled(s, t)
    ensures Inv(law, Step(law, s, t))
  {
    match t
    case CalculatorThread => CalculatorKeepsInv(law, s);
    case SenderThread => SenderKeepsInv(law, s);
    case _ => ListenerKeepsInv(law, s, t);
  }

  lemma {:induction false} SenderIsOneStep(s: State)
    requires Enabled(s, SenderThread)
    ensures var s' := SenderStep(s);
            && s'.one == s.one && s'.two == s.two && s'.calculator == s.calculator
            && s'.sender.Steps() == s.sender.Steps() + 1
  {
  }

  /** How many steps all four threads have taken. */
  function Steps(s: State): nat {
    s.one.listener.Steps() + s.two.listener.Steps() + s.calculator.Steps() + s.sender.Steps()
  }

  lemma {:induction false} StepIsOneStep(law: Law, s: State, t: Thread)
    requires StationsInv(s) && Enabled(s, t)
    ensures Steps(Step(law, s, t)) == Steps(s) + 1
  {
    var c := s.calculator;
    match t
    case ListenerOne => ListenerStepKeeps(s.one, c.Past(0), c.Past(4), c.Past(5));
    case ListenerTwo => ListenerStepKeeps(s.two, c.Past(1), c.Past(4), c.Past(6));
    case CalculatorThread =>
      CalculatorAdvances(law, c, s.one.box.slot, s.two.box.slot, 0);
      CalculatorKeepsPorts(law, s);
    case SenderThread => SenderIsOneStep(s);
  }
}
