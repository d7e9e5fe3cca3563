/** The client's three threads (client/main.c:450-479, client/run_sender.c, client/run_listener.c):
    the calculator inside `get_u`, the sender and the listener. */
module Client {
  import opened Handoff

  /** Program points of `get_u`; `Idle` is outside the call. */
  datatype CallerPc =
    | Idle | AwaitSender | PutFirst | PutSecond | SignalSender
    | AwaitListener | GetBatch | CleanStock | SignalListener

  /** `payload` and `u` are the argument and the result of the call under way, `replies` the results
      of every finished call. */
  datatype Caller = Caller(pc: CallerPc, rounds: nat, payload: Vec, u: Vec, replies: seq<Vec>) {
    function At(): nat {
      match pc
      case Idle => 0 case AwaitSender => 1 case PutFirst => 2 case PutSecond => 3
      case SignalSender => 4 case AwaitListener => 5 case GetBatch => 6 case CleanStock => 7
      case SignalListener => 8
    }

    /** How many calls have got past the step numbered `k`. */
    function Past(k: nat): nat { rounds + Bit(At() > k) }

    function Steps(): nat { 9 * rounds + At() }
  }

  /** The sender's round (client/run_sender.c:25-48). */
  datatype SenderPc = AwaitCalculator | FetchFirst | FetchSecond | SignalCalculator | SendFirst | SendSecond

  /** `outOne` and `outTwo` record what has been sent to the server's two ports. */
  datatype Sender = Sender(pc: SenderPc, rounds: nat, first: Vec, second: Vec, outOne: seq<Vec>, outTwo: seq<Vec>) {
    function At(): nat {
      match pc
      case AwaitCalculator => 0 case FetchFirst => 1 case FetchSecond => 2
      case SignalCalculator => 3 case SendFirst => 4 case SendSecond => 5
    }

    function Past(k: nat): nat { rounds + Bit(At() > k) }

    function Steps(): nat { 6 * rounds + At() }
  }

  /** `toSender` and `fromSender` are sender_to_signal and sender_from_signal, `stockFirst` and
      `stockSecond` the SenderStock, `station` the listener with its BatchStock and port. `requests`
      is the history of payloads, the zero request loaded at start-up being number 0. */
  datatype State = State(
    caller: Caller, sender: Sender, station: Station,
    toSender: bool, fromSender: bool, stockFirst: Vec, stockSecond: Vec, requests: seq<Vec>)

  const PAYLOAD_LEN := 13
  const FIRST_LEN := 6

  function First(payload: Vec): Vec
    requires |payload| == PAYLOAD_LEN
  {
    payload[..FIRST_LEN]
  }

  function Second(payload: Vec): Vec
    requires |payload| == PAYLOAD_LEN
  {
    payload[FIRST_LEN..]
  }

  /** Start-up (client/main.c:114-160 and 341-352): the sender stock holds zeros and its flag is up. */
  predicate Init(s: State) {
    && s.caller.pc == Idle && s.caller.rounds == |s.caller.replies| == 0
    && s.sender.pc == AwaitCalculator && s.sender.rounds == |s.sender.outOne| == |s.sender.outTwo| == 0
    && FreshListener(s.station.listener) && IdleBox(s.station.box)
    && s.toSender && !s.fromSender
    && |s.requests| == 1 && |s.requests[0]| == PAYLOAD_LEN
    && (forall i :: 0 <= i < PAYLOAD_LEN ==> s.requests[0][i] == 0.0)
    && s.stockFirst == First(s.requests[0]) && s.stockSecond == Second(s.requests[0])
  }

  datatype Thread = CallerThread | SenderThread | ListenerThread

  /** A caller outside `get_u` moves only by starting a call. */
  predicate Enabled(s: State, t: Thread) {
    match t
    case CallerThread =>
      && s.caller.pc != Idle
      && (s.caller.pc == AwaitSender ==> s.fromSender)
      && (s.caller.pc == AwaitListener ==> s.station.box.full)
    case SenderThread => s.sender.pc == AwaitCalculator ==> s.toSender
    case ListenerThread => ListenerEnabled(s.station)
  }

  function Call(s: State, payload: Vec): State
    requires s.caller.pc == Idle && |payload| == PAYLOAD_LEN
  {
    s.(caller := s.caller.(pc := AwaitSender, payload := payload), requests := s.requests + [payload])
  }

  function NextPc(pc: CallerPc): CallerPc {
    match pc
    case Idle => AwaitSender case AwaitSender => PutFirst case PutFirst => PutSecond
    case PutSecond => SignalSender case SignalSender => AwaitListener case AwaitListener => GetBatch
    case GetBatch => CleanStock case CleanStock => SignalListener case SignalListener => Idle
  }

  /** What the caller's step does to the listener's slot. */
  function EventOf(pc: CallerPc): ReaderEvent {
    match pc
    case AwaitListener => Take case CleanStock => Clean case SignalListener => Give case _ => Nothing
  }

  /** `get_u` returns four floats, however long the batch; from a shorter one it would read past the end. */
  const REPLY_LEN := 4

  function Reply(batch: Vec): Vec { if |batch| <= REPLY_LEN then batch else batch[..REPLY_LEN] }

  function NextCaller(c: Caller, slot: Slot): Caller {
    Caller(
      NextPc(c.pc),
      c.rounds + Bit(c.pc == SignalListener),
      c.payload,
      if c.pc == GetBatch then Reply(Copy(slot)) else c.u,
      if c.pc == SignalListener then c.replies + [c.u] else c.replies)
  }

  function CallerStep(s: State): State
    requires s.caller.pc != Idle ==> |s.caller.payload| == PAYLOAD_LEN
  {
    var c := s.caller;
    State(
      NextCaller(c, s.station.box.slot),
      s.sender,
      ReaderStep(s.station, EventOf(c.pc)),
      s.toSender || c.pc == SignalSender,
      s.fromSender && c.pc != AwaitSender,
      if c.pc == PutFirst then First(c.payload) else s.stockFirst,
      if c.pc == PutSecond then Second(c.payload) else s.stockSecond,
      s.requests)
  }

  function NextSenderPc(pc: SenderPc): SenderPc {
    match pc
    case AwaitCalculator => FetchFirst case FetchFirst => FetchSecond case FetchSecond => SignalCalculator
    case SignalCalculator => SendFirst case SendFirst => SendSecond case SendSecond => AwaitCalculator
  }

  function NextSender(w: Sender, stockFirst: Vec, stockSecond: Vec): Sender {
    Sender(
      NextSenderPc(w.pc),
      w.rounds + Bit(w.pc == SendSecond),
      if w.pc == FetchFirst then stockFirst else w.first,
      if w.pc == FetchSecond then stockSecond else w.second,
      if w.pc == SendFirst then w.outOne + [w.first] else w.outOne,
      if w.pc == SendSecond then w.outTwo + [w.second] else w.outTwo)
  }

  function SenderStep(s: State): State {
    var w := s.sender;
    State(
      s.caller,
      NextSender(w, s.stockFirst, s.stockSecond),
      s.station,
      s.toSender && w.pc != AwaitCalculator,
      s.fromSender || w.pc == SignalCalculator,
      s.stockFirst, s.stockSecond, s.requests)
  }

  function Step(s: State, t: Thread): State
    requires Enabled(s, t) && (s.caller.pc != Idle ==> |s.caller.payload| == PAYLOAD_LEN)
  {
    match t
    case CallerThread => CallerStep(s)
    case SenderThread => SenderStep(s)
    case ListenerThread => s.(station := ListenerStep(s.station))
  }

  // ---- The invariant ----

  ghost predicate ReaderInv(c: Caller, station: Station) {
    StationInv(station, c.Past(5), c.Past(7), c.Past(8))
  }

  ghost predicate SignalInv(s: State) {
    && Bit(s.toSender) == 1 + s.caller.Past(4) - s.sender.Past(0)
    && Bit(s.fromSender) == s.sender.Past(3) - s.caller.Past(1)
  }

  ghost predicate RequestsInv(c: Caller, requests: seq<Vec>) {
    && |requests| == 1 + c.Past(0)
    && (forall k :: 0 <= k < |requests| ==> |requests[k]| == PAYLOAD_LEN)
    && (c.At() > 0 ==> c.payload == requests[c.rounds + 1])
  }

  /** Reply `k` is the start of the k-th datagram that reached the client. */
  ghost predicate RepliesInv(c: Caller, port: seq<Vec>) {
    && |c.replies| == c.rounds <= |port|
    && (forall k :: 0 <= k < |c.replies| ==> c.replies[k] == Reply(port[k]))
    && (c.At() > 6 ==> c.rounds < |port| && c.u == Reply(port[c.rounds]))
  }

  /** The stock holds the halves of the last request written to it. */
  ghost predicate StockInv(c: Caller, requests: seq<Vec>, stockFirst: Vec, stockSecond: Vec)
    requires RequestsInv(c, requests)
  {
    && stockFirst == First(requests[c.Past(2)])
    && stockSecond == Second(requests[c.Past(3)])
  }

  /** Datagram `k` sent to a port is that half of request `k`. */
  ghost predicate OutInv(w: Sender, requests: seq<Vec>)
    requires forall k :: 0 <= k < |requests| ==> |requests[k]| == PAYLOAD_LEN
  {
    && |w.outOne| == w.Past(4) && |w.outTwo| == w.rounds
    && w.Past(1) <= |requests|
    && (forall k :: 0 <= k < |w.outOne| ==> w.outOne[k] == First(requests[k]))
    && (forall k :: 0 <= k < |w.outTwo| ==> w.outTwo[k] == Second(requests[k]))
    && (w.At() > 1 ==> w.first == First(requests[w.rounds]))
    && (w.At() > 2 ==> w.second == Second(requests[w.rounds]))
  }

  ghost predicate Inv(s: State) {
    && ReaderInv(s.caller, s.station)
    && SignalInv(s)
    && RequestsInv(s.caller, s.requests)
    && RepliesInv(s.caller, s.station.port)
    && StockInv(s.caller, s.requests, s.stockFirst, s.stockSecond)
    && OutInv(s.sender, s.requests)
  }

  lemma {:induction false} InitialInv(s: State)
    requires Init(s)
    ensures Inv(s)
  {
  }

  lemma {:induction false} ArrivalKeepsInv(s: State, v: Vec)
    requires Inv(s)
    ensures Inv(s.(station := s.station.Arrive(v)))
  {
  }

  lemma {:induction false} ListenerKeepsInv(s: State)
    requires Inv(s) && Enabled(s, ListenerThread)
    ensures Inv(s.(station := ListenerStep(s.station)))
  {
    ListenerStepKeeps(s.station, s.caller.Past(5), s.caller.Past(7), s.caller.Past(8));
  }

  lemma {:induction false} CallKeepsInv(s: State, payload: Vec)
    requires Inv(s) && s.caller.pc == Idle && |payload| == PAYLOAD_LEN
    ensures Inv(Call(s, payload))
  {
  }

  lemma {:induction false} CallerAdvances(c: Caller, slot: Slot, k: nat)
    requires k < 9
    ensures var c' := NextCaller(c, slot);
            && c'.Past(k) == c.Past(k) + Bit(c.At() == k)
            && c'.Steps() == c.Steps() + 1
  {
  }

  lemma {:induction false} CallerKeepsReader(c: Caller, station: Station)
    requires ReaderInv(c, station) && (c.pc == AwaitListener ==> station.box.full)
    ensures ReaderInv(NextCaller(c, station.box.slot), ReaderStep(station, EventOf(c.pc)))
  {
    ReaderStepKeeps(station, c.Past(5), c.Past(7), c.Past(8), EventOf(c.pc));
    CallerAdvances(c, station.box.slot, 5);
    CallerAdvances(c, station.box.slot, 7);
    CallerAdvances(c, station.box.slot, 8);
  }

  lemma {:induction false} CallerKeepsReplies(c: Caller, station: Station)
    requires ReaderInv(c, station) && RepliesInv(c, station.port)
    ensures RepliesInv(NextCaller(c, station.box.slot), station.port)
  {
    if c.pc == GetBatch {
      ReaderFindsBatch(station, c.Past(5), c.Past(7), c.Past(8));
    }
  }

  lemma {:induction false} CallerKeepsStock(s: State)
    requires RequestsInv(s.caller, s.requests) && s.caller.pc != Idle
    requires StockInv(s.caller, s.requests, s.stockFirst, s.stockSecond)
    ensures var s' := CallerStep(s);
            && RequestsInv(s'.caller, s'.requests)
            && StockInv(s'.caller, s'.requests, s'.stockFirst, s'.stockSecond)
  {
    CallerAdvances(s.caller, s.station.box.slot, 2);
    CallerAdvances(s.caller, s.station.box.slot, 3);
  }

  lemma {:induction false} CallerKeepsSignals(s: State)
    requires SignalInv(s) && Enabled(s, CallerThread) && |s.caller.payload| == PAYLOAD_LEN
    ensures SignalInv(CallerStep(s))
  {
    CallerAdvances(s.caller, s.station.box.slot, 1);
    CallerAdvances(s.caller, s.station.box.slot, 4);
  }

  lemma {:induction false} CallerKeepsRest(s: State)
    requires |s.caller.payload| == PAYLOAD_LEN
    ensures var s' := CallerStep(s);
            && s'.sender == s.sender && s'.requests == s.requests
            && s'.station.port == s.station.port && s'.station.listener == s.station.listener
  {
  }

  lemma {:induction false} CallerKeepsInv(s: State)
    requires Inv(s) && Enabled(s, CallerThread)
    ensures Inv(CallerStep(s))
  {
    CallerKeepsReader(s.caller, s.station);
    CallerKeepsReplies(s.caller, s.station);
    CallerKeepsStock(s);
    CallerKeepsSignals(s);
    CallerKeepsRest(s);
  }

  lemma {:induction false} SenderKeepsSignals(s: State)
    requires SignalInv(s) && Enabled(s, SenderThread)
    ensures SignalInv(SenderStep(s))
  {
  }

  lemma {:induction false} SenderHasRequest(s: State)
    requires SignalInv(s) && RequestsInv(s.caller, s.requests) && Enabled(s, SenderThread)
    ensures s.sender.rounds < |s.requests|
  {
  }

  /** While the sender copies the stock, the caller is not writing it and it holds the request the
      sender's round is due to send. */
  lemma {:induction false} SenderFindsStock(s: State)
    requires SignalInv(s) && 0 < s.sender.At() <= 3
    ensures s.caller.Past(2) == s.caller.Past(3) == s.sender.rounds
    ensures s.caller.pc != PutFirst && s.caller.pc != PutSecond
  {
  }

  /** What the sender holds and what it has sent, separately. */
  ghost predicate Fetched(w: Sender, requests: seq<Vec>)
    requires forall k :: 0 <= k < |requests| ==> |requests[k]| == PAYLOAD_LEN
  {
    && w.Past(1) <= |requests|
    && (w.At() > 1 ==> w.first == First(requests[w.rounds]))
    && (w.At() > 2 ==> w.second == Second(requests[w.rounds]))
  }

  lemma {:induction false} SenderFetches(w: Sender, requests: seq<Vec>, stockFirst: Vec, stockSecond: Vec)
    requires forall k :: 0 <= k < |requests| ==> |requests[k]| == PAYLOAD_LEN
    requires Fetched(w, requests) && w.rounds < |requests|
    requires w.pc == FetchFirst ==> stockFirst == First(requests[w.rounds])
    requires w.pc == FetchSecond ==> stockSecond == Second(requests[w.rounds])
    ensures Fetched(NextSender(w, stockFirst, stockSecond), requests)
    ensures NextSender(w, stockFirst, stockSecond).Steps() == w.Steps() + 1
  {
  }

  lemma {:induction false} SenderKeepsOut(w: Sender, requests: seq<Vec>, stockFirst: Vec, stockSecond: Vec)
    requires forall k :: 0 <= k < |requests| ==> |requests[k]| == PAYLOAD_LEN
    requires OutInv(w, requests)
    requires w.rounds < |requests|
    requires w.pc == FetchFirst ==> stockFirst == First(requests[w.rounds])
    requires w.pc == FetchSecond ==> stockSecond == Second(requests[w.rounds])
    ensures OutInv(NextSender(w, stockFirst, stockSecond), requests)
    ensures NextSender(w, stockFirst, stockSecond).Steps() == w.Steps() + 1
  {
    SenderFetches(w, requests, stockFirst, stockSecond);
    var w' := NextSender(w, stockFirst, stockSecond);
    match w.pc
    case SendFirst => assert w'.outOne == w.outOne + [w.first] && w'.outTwo == w.outTwo;
    case SendSecond => assert w'.outTwo == w.outTwo + [w.second] && w'.outOne == w.outOne;
    case _ => assert w'.outOne == w.outOne && w'.outTwo == w.outTwo;
  }

  lemma {:induction false} SenderKeepsInv(s: State)
    requires Inv(s) && Enabled(s, SenderThread)
    ensures Inv(SenderStep(s))
  {
    SenderKeepsSignals(s);
    if 0 < s.sender.At() <= 3 {
      SenderFindsStock(s);
    }
    SenderHasRequest(s);
    SenderKeepsOut(s.sender, s.requests, s.stockFirst, s.stockSecond);
  }

  lemma {:induction false} StepKeepsInv(s: State, t: Thread)
    requires Inv(s) && Enabled(s, t)
    ensures Inv(Step(s, t))
  {
    match t
    case CallerThread => CallerKeepsInv(s);
    case SenderThread => SenderKeepsInv(s);
    case ListenerThread => ListenerKeepsInv(s);
  }

  /** The two datagrams of a request: its first six numbers and its last seven. */
  lemma {:induction false} HalvesOfRequest(payload: Vec)
    requires |payload| == 13
    ensures |First(payload)| == 6 && forall i :: 0 <= i < 6 ==> First(payload)[i] == payload[i]
    ensures |Second(payload)| == 7 && forall i :: 0 <= i < 7 ==> Second(payload)[i] == payload[6 + i]
  {
  }

  /** What has been sent, number by number. */
  lemma {:induction false} SentInHalves(s: State)
    requires Inv(s)
    ensures forall k :: 0 <= k < |s.sender.outOne| ==>
              k < |s.requests| && |s.requests[k]| == 13 && s.sender.outOne[k] == s.requests[k][..6]
    ensures forall k :: 0 <= k < |s.sender.outTwo| ==>
              k < |s.requests| && |s.requests[k]| == 13 && s.sender.outTwo[k] == s.requests[k][6..]
  {
  }
}
