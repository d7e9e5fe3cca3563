/** The whole system with its ten condition packs in place of the flags: every wait and every signal of the
    seven threads is the sequence of mutex, condition-variable and flag steps of `ConditionPack`, all of
    them interleaved, with spurious wake-ups. */
module PackedSystem {
  import opened Handoff
  import C = Client
  import S = Server
  import System
  import P = ConditionPack

  datatype Actor = Caller | ClientSender | ClientListener | ListenerOne | ListenerTwo | Calculator | ServerSender

  /** The packs, by the flag of `Client` or `Server` each one holds. */
  datatype Id =
    | OneFull | OneEmpty | TwoFull | TwoEmpty | CalcSignal | SenderSignal
    | StationFull | StationEmpty | ToSender | FromSender

  function Flag(s: System.State, id: Id): bool {
    match id
    case OneFull => s.server.one.box.full case OneEmpty => s.server.one.box.empty
    case TwoFull => s.server.two.box.full case TwoEmpty => s.server.two.box.empty
    case CalcSignal => s.server.calcSignal case SenderSignal => s.server.senderSignal
    case StationFull => s.client.station.box.full case StationEmpty => s.client.station.box.empty
    case ToSender => s.client.toSender case FromSender => s.client.fromSender
  }

  /** The one thread that waits on a pack, and the one that signals it. */
  function Waiter(id: Id): Actor {
    match id
    case OneFull => Calculator case OneEmpty => ListenerOne case TwoFull => Calculator case TwoEmpty => ListenerTwo
    case CalcSignal => ServerSender case SenderSignal => Calculator
    case StationFull => Caller case StationEmpty => ClientListener
    case ToSender => ClientSender case FromSender => Caller
  }

  function Signaller(id: Id): Actor {
    match id
    case OneFull => ListenerOne case OneEmpty => Calculator case TwoFull => ListenerTwo case TwoEmpty => Calculator
    case CalcSignal => Calculator case SenderSignal => ServerSender
    case StationFull => ClientListener case StationEmpty => Caller
    case ToSender => Caller case FromSender => ClientSender
  }

  function Move(a: Actor): System.Event {
    match a
    case Caller => System.ClientMove(C.CallerThread)
    case ClientSender => System.ClientMove(C.SenderThread)
    case ClientListener => System.ClientMove(C.ListenerThread)
    case ListenerOne => System.ServerMove(S.ListenerOne)
    case ListenerTwo => System.ServerMove(S.ListenerTwo)
    case Calculator => System.ServerMove(S.CalculatorThread)
    case ServerSender => System.ServerMove(S.SenderThread)
  }

  function ActorOf(e: System.Event): Actor {
    match e
    case Call(_) => Caller
    case ClientMove(t) =>
      (match t case CallerThread => Caller case SenderThread => ClientSender case ListenerThread => ClientListener)
    case ServerMove(t) =>
      (match t case ListenerOne => ListenerOne case ListenerTwo => ListenerTwo case CalculatorThread => Calculator
       case SenderThread => ServerSender)
  }

  lemma {:induction false} MoveOf(e: System.Event)
    requires !e.Call?
    ensures Move(ActorOf(e)) == e
  {
  }

  function At(s: System.State, a: Actor): nat {
    match a
    case Caller => s.client.caller.At()
    case ClientSender => s.client.sender.At()
    case ClientListener => s.client.station.listener.At()
    case ListenerOne => s.server.one.listener.At()
    case ListenerTwo => s.server.two.listener.At()
    case Calculator => s.server.calculator.At()
    case ServerSender => s.server.sender.At()
  }

  /** What a thread is about to do: wait on a pack, signal one, or neither. */
  datatype Point = Other | Waits(id: Id) | Signals(id: Id)

  function PointAt(a: Actor, at: nat): Point {
    match a
    case Caller =>
      if at == 1 then Waits(FromSender) else if at == 4 then Signals(ToSender)
      else if at == 5 then Waits(StationFull) else if at == 8 then Signals(StationEmpty) else Other
    case ClientSender => if at == 0 then Waits(ToSender) else if at == 3 then Signals(FromSender) else Other
    case ClientListener => if at == 1 then Waits(StationEmpty) else if at == 3 then Signals(StationFull) else Other
    case ListenerOne => if at == 1 then Waits(OneEmpty) else if at == 3 then Signals(OneFull) else Other
    case ListenerTwo => if at == 1 then Waits(TwoEmpty) else if at == 3 then Signals(TwoFull) else Other
    case Calculator =>
      if at == 0 then Waits(OneFull) else if at == 1 then Waits(TwoFull) else if at == 5 then Signals(OneEmpty)
      else if at == 6 then Signals(TwoEmpty) else if at == 9 then Waits(SenderSignal)
      else if at == 10 then Signals(CalcSignal) else Other
    case ServerSender => if at == 0 then Waits(CalcSignal) else if at == 4 then Signals(SenderSignal) else Other
  }

  function PointOf(s: System.State, a: Actor): Point { PointAt(a, At(s, a)) }

  // ---- What a step of the system does to points and flags ----

  function FlagAfter(flag: bool, id: Id, point: Point): bool {
    match point
    case Other => flag
    case Waits(j) => flag && j != id
    case Signals(j) => flag || j == id
  }

  lemma {:induction false} PointsAreOwn(s: System.State, a: Actor)
    ensures var p := PointOf(s, a);
            && (p.Waits? ==> Waiter(p.id) == a)
            && (p.Signals? ==> Signaller(p.id) == a)
  {
  }

  lemma {:induction false} ClientMoveTouches(law: Law, s: System.State, a: Actor, b: Actor, id: Id)
    requires a == Caller || a == ClientSender || a == ClientListener
    requires System.Enabled(s, Move(a))
    ensures var s' := System.Step(law, s, Move(a));
            && (b != a ==> At(s', b) == At(s, b))
            && Flag(s', id) == FlagAfter(Flag(s, id), id, PointOf(s, a))
  {
  }

  lemma {:induction false} ServerListenerTouches(law: Law, s: System.State, a: Actor, b: Actor, id: Id)
    requires (a == ListenerOne || a == ListenerTwo) && System.Enabled(s, Move(a))
    ensures var s' := System.Step(law, s, Move(a));
            && (b != a ==> At(s', b) == At(s, b))
            && Flag(s', id) == FlagAfter(Flag(s, id), id, PointOf(s, a))
  {
  }

  lemma {:induction false} CalculatorTouches(law: Law, s: System.State, b: Actor, id: Id)
    requires System.Enabled(s, Move(Calculator))
    ensures var s' := System.Step(law, s, Move(Calculator));
            && (b != Calculator ==> At(s', b) == At(s, b))
            && Flag(s', id) == FlagAfter(Flag(s, id), id, PointOf(s, Calculator))
  {
  }

  lemma {:induction false} ServerSenderTouches(law: Law, s: System.State, b: Actor, id: Id)
    requires System.Enabled(s, Move(ServerSender))
    ensures var s' := System.Step(law, s, Move(ServerSender));
            && (b != ServerSender ==> At(s', b) == At(s, b))
            && Flag(s', id) == FlagAfter(Flag(s, id), id, PointOf(s, ServerSender))
  {
  }

  /** A thread's step leaves the other threads where they are, and changes a flag only by waiting on it or
      signalling it. */
  lemma {:induction false} MoveTouches(law: Law, s: System.State, a: Actor, b: Actor, id: Id)
    requires System.Enabled(s, Move(a))
    ensures var s' := System.Step(law, s, Move(a));
            && (b != a ==> At(s', b) == At(s, b))
            && Flag(s', id) == FlagAfter(Flag(s, id), id, PointOf(s, a))
  {
    match a
    case Calculator => CalculatorTouches(law, s, b, id);
    case ServerSender => ServerSenderTouches(law, s, b, id);
    case ListenerOne => ServerListenerTouches(law, s, a, b, id);
    case ListenerTwo => ServerListenerTouches(law, s, a, b, id);
    case _ => ClientMoveTouches(law, s, a, b, id);
  }

  lemma {:induction false} CallTouches(law: Law, s: System.State, p: Vec, b: Actor, id: Id)
    requires System.Enabled(s, System.Call(p))
    ensures var s' := System.Step(law, s, System.Call(p));
            (b != Caller ==> At(s', b) == At(s, b)) && Flag(s', id) == Flag(s, id)
  {
  }

  ghost predicate PayloadSet(s: System.State) {
    s.client.caller.pc != C.Idle ==> |s.client.caller.payload| == C.PAYLOAD_LEN
  }

  lemma {:induction false} InvSetsPayload(law: Law, s: System.State)
    requires System.Inv(law, s)
    ensures PayloadSet(s)
  {
  }

  /** At a wait a thread can take its step exactly when the flag is up, at a signal always. */
  lemma {:induction false} PointEnabled(s: System.State, a: Actor)
    requires PayloadSet(s)
    ensures var p := PointOf(s, a);
            && (p.Waits? ==> (System.Enabled(s, Move(a)) <==> Flag(s, p.id)))
            && (p.Signals? ==> System.Enabled(s, Move(a)))
  {
  }

  // ---- The threads' calls on the packs ----

  /** A thread runs its own code, or is inside a wait or a signal. */
  datatype CallState = Own | InWait(id: Id, waiter: P.WaiterPc) | InSignal(id: Id, signaller: P.SignallerPc)

  /** The system's data and flags, the owner of each pack's mutex, and where each thread is in its call. */
  datatype State = State(system: System.State, owner: Id -> P.Owner, call: Actor -> CallState)

  function WaiterPc(c: State, id: Id): P.WaiterPc {
    var k := c.call(Waiter(id));
    if k.InWait? && k.id == id then k.waiter else P.WOut
  }

  function SignallerPc(c: State, id: Id): P.SignallerPc {
    var k := c.call(Signaller(id));
    if k.InSignal? && k.id == id then k.signaller else P.SOut
  }

  /** One pack as `ConditionPack` has it. */
  function PackOf(c: State, id: Id): P.State {
    P.State(Flag(c.system, id), c.owner(id), WaiterPc(c, id), SignallerPc(c, id))
  }

  /** `NewCall` is the client's calculator entering `get_u`, `Code` a step of a thread's own code, `Micro`
      a step of `ConditionPack` on one pack. */
  datatype Event = NewCall(payload: Vec) | Code(actor: Actor) | Micro(id: Id, step: P.Event)

  predicate Enabled(c: State, e: Event) {
    match e
    case NewCall(p) => c.call(Caller) == Own && System.Enabled(c.system, System.Call(p))
    case Code(a) => c.call(a) == Own && PointOf(c.system, a) == Other && System.Enabled(c.system, Move(a))
    case Micro(id, step) =>
      && P.Enabled(PackOf(c, id), step)
      && (step.CallWait? ==> c.call(Waiter(id)) == Own && PointOf(c.system, Waiter(id)) == Waits(id))
      && (step.CallSignal? ==> c.call(Signaller(id)) == Own && PointOf(c.system, Signaller(id)) == Signals(id))
  }

  /** The step of the system this is, if it is one: a wait is taken where it clears the flag, a
      signal where it sets it. */
  function Effective(c: State, e: Event): seq<System.Event> {
    match e
    case NewCall(p) => [System.Call(p)]
    case Code(a) => [Move(a)]
    case Micro(id, step) =>
      if step.WaiterMove? && WaiterPc(c, id) == P.Clear then [Move(Waiter(id))]
      else if step.SignallerMove? && SignallerPc(c, id) == P.Set then [Move(Signaller(id))]
      else []
  }

  function SystemAfter(law: Law, c: State, e: Event): System.State {
    var effect := Effective(c, e);
    if |effect| == 1 && System.Enabled(c.system, effect[0]) then System.Step(law, c.system, effect[0]) else c.system
  }

  function WaitCall(id: Id, pc: P.WaiterPc): CallState { if pc == P.WOut then Own else InWait(id, pc) }

  function SignalCall(id: Id, pc: P.SignallerPc): CallState { if pc == P.SOut then Own else InSignal(id, pc) }

  /** The calls and mutexes once the pack is as in `p`; only what differs changes. */
  function CallAfter(c: State, id: Id, p: P.State, a: Actor): CallState {
    if a == Waiter(id) && p.waiter != WaiterPc(c, id) then WaitCall(id, p.waiter)
    else if a == Signaller(id) && p.signaller != SignallerPc(c, id) then SignalCall(id, p.signaller)
    else c.call(a)
  }

  function Put(c: State, id: Id, p: P.State, system: System.State): State {
    State(system, o => if o == id then p.owner else c.owner(o), a => CallAfter(c, id, p, a))
  }

  /** Where an event leads that takes the system to `s'`. */
  function StepTo(c: State, e: Event, s': System.State): State
    requires Enabled(c, e)
  {
    if e.Micro? then Put(c, e.id, P.Step(PackOf(c, e.id), e.step), s') else c.(system := s')
  }

  function Step(law: Law, c: State, e: Event): State
    requires Enabled(c, e)
  {
    StepTo(c, e, SystemAfter(law, c, e))
  }

  ghost predicate Init(c: State) {
    && System.Init(c.system)
    && (forall id: Id :: c.owner(id) == P.Free)
    && (forall a: Actor :: c.call(a) == Own)
  }

  ghost predicate Happens(law: Law, c: State, e: Event, c': State) { Enabled(c, e) && c' == Step(law, c, e) }

  ghost predicate Run(law: Law, states: seq<State>, events: seq<Event>) {
    && |states| == |events| + 1
    && Init(states[0])
    && forall i :: 0 <= i < |events| ==> Happens(law, states[i], events[i], states[i + 1])
  }

  lemma {:induction false} RunGrows(law: Law, states: seq<State>, events: seq<Event>, e: Event, c: State)
    requires Run(law, states, events) && Happens(law, states[|events|], e, c)
    ensures Run(law, states + [c], events + [e])
  {
    var states', events' := states + [c], events + [e];
    forall i | 0 <= i < |events'|
      ensures Happens(law, states'[i], events'[i], states'[i + 1])
    {
      if i < |events| {
        assert Happens(law, states[i], events[i], states[i + 1]);
      }
    }
  }

  // ---- The invariant ----

  /** A thread inside a call stands at that wait or signal until it has taken effect. */
  predicate CallFits(k: CallState, a: Actor, point: Point) {
    match k
    case Own => true
    case InWait(id, pc) => Waiter(id) == a && pc != P.WOut && (pc != P.WUnlock ==> point == Waits(id))
    case InSignal(id, pc) =>
      Signaller(id) == a && pc != P.SOut && (pc == P.SLock || pc == P.Set ==> point == Signals(id))
  }

  ghost predicate PacksInv(c: State) { forall id: Id :: P.Inv(PackOf(c, id)) }

  ghost predicate CallsInv(c: State) { forall a: Actor :: CallFits(c.call(a), a, PointOf(c.system, a)) }

  ghost predicate Inv(law: Law, c: State) { System.Inv(law, c.system) && PacksInv(c) && CallsInv(c) }

  lemma {:induction false} InitialInv(law: Law, c: State)
    requires Init(c)
    ensures Inv(law, c)
  {
    System.InitialInv(law, c.system);
    forall id: Id ensures P.Inv(PackOf(c, id)) {
      assert c.owner(id) == P.Free && c.call(Waiter(id)) == Own && c.call(Signaller(id)) == Own;
    }
    forall a: Actor ensures CallFits(c.call(a), a, PointOf(c.system, a)) {
      assert c.call(a) == Own;
    }
  }

  /** What holds of the packs and the calls apart from the system's own invariant. */
  ghost predicate Orderly(c: State) { PacksInv(c) && CallsInv(c) && PayloadSet(c.system) }

  lemma {:induction false} TakesAtWait(c: State, id: Id)
    requires Orderly(c) && WaiterPc(c, id) == P.Clear
    ensures PointOf(c.system, Waiter(id)) == Waits(id) && System.Enabled(c.system, Move(Waiter(id)))
  {
    var w := Waiter(id);
    assert P.Inv(PackOf(c, id)) && CallFits(c.call(w), w, PointOf(c.system, w));
    PointEnabled(c.system, w);
  }

  lemma {:induction false} RaisesAtSignal(c: State, id: Id)
    requires Orderly(c) && SignallerPc(c, id) == P.Set
    ensures PointOf(c.system, Signaller(id)) == Signals(id) && System.Enabled(c.system, Move(Signaller(id)))
  {
    var g := Signaller(id);
    assert CallFits(c.call(g), g, PointOf(c.system, g));
    PointEnabled(c.system, g);
  }

  /** What an event is to the system is a step the system can take. */
  lemma {:induction false} EffectIsEnabled(c: State, e: Event)
    requires Orderly(c) && Enabled(c, e)
    ensures |Effective(c, e)| <= 1
    ensures |Effective(c, e)| == 1 ==> System.Enabled(c.system, Effective(c, e)[0])
  {
    if e.Micro? && WaiterPc(c, e.id) == P.Clear {
      TakesAtWait(c, e.id);
    }
    if e.Micro? && SignallerPc(c, e.id) == P.Set {
      RaisesAtSignal(c, e.id);
    }
  }

  // ---- What an event does to the system, in terms of points and flags ----

  /** From `s` to `s'` only `a` has moved, and the flags have changed as the point `point` says. */
  ghost predicate Touched(s: System.State, s': System.State, a: Actor, point: Point) {
    && (forall b: Actor :: b != a ==> At(s', b) == At(s, b))
    && (forall id: Id :: Flag(s', id) == FlagAfter(Flag(s, id), id, point))
  }

  lemma {:induction false} MoveTouched(law: Law, s: System.State, a: Actor)
    requires System.Enabled(s, Move(a))
    ensures Touched(s, System.Step(law, s, Move(a)), a, PointOf(s, a))
  {
    forall b: Actor | b != a ensures At(System.Step(law, s, Move(a)), b) == At(s, b) {
      MoveTouches(law, s, a, b, OneFull);
    }
    forall id: Id ensures Flag(System.Step(law, s, Move(a)), id) == FlagAfter(Flag(s, id), id, PointOf(s, a)) {
      MoveTouches(law, s, a, a, id);
    }
  }

  lemma {:induction false} CallTouched(law: Law, s: System.State, p: Vec)
    requires System.Enabled(s, System.Call(p))
    ensures Touched(s, System.Step(law, s, System.Call(p)), Caller, Other)
  {
    forall b: Actor | b != Caller ensures At(System.Step(law, s, System.Call(p)), b) == At(s, b) {
      CallTouches(law, s, p, b, OneFull);
    }
    forall id: Id ensures Flag(System.Step(law, s, System.Call(p)), id) == Flag(s, id) {
      CallTouches(law, s, p, Caller, id);
    }
  }

  ghost predicate Takes(c: State, e: Event) { e.Micro? && e.step.WaiterMove? && WaiterPc(c, e.id) == P.Clear }

  ghost predicate Raises(c: State, e: Event) { e.Micro? && e.step.SignallerMove? && SignallerPc(c, e.id) == P.Set }

  /** All that the packs see of an event's effect on the system. */
  ghost predicate Follows(c: State, e: Event, s': System.State) {
    if e.NewCall? then Touched(c.system, s', Caller, Other)
    else if e.Code? then Touched(c.system, s', e.actor, Other)
    else if Takes(c, e) then Touched(c.system, s', Waiter(e.id), Waits(e.id))
    else if Raises(c, e) then Touched(c.system, s', Signaller(e.id), Signals(e.id))
    else s' == c.system
  }

  lemma {:induction false} SystemFollows(law: Law, c: State, e: Event)
    requires Orderly(c) && Enabled(c, e)
    ensures Follows(c, e, SystemAfter(law, c, e))
  {
    match e
    case NewCall(p) => CallTouched(law, c.system, p);
    case Code(a) => MoveTouched(law, c.system, a);
    case Micro(id, step) =>
      if Takes(c, e) {
        TakesAtWait(c, id);
        MoveTouched(law, c.system, Waiter(id));
      } else if Raises(c, e) {
        RaisesAtSignal(c, id);
        MoveTouched(law, c.system, Signaller(id));
      }
  }

  // ---- Packs stay packs ----

  lemma {:induction false} StepSetsFlag(p: P.State, step: P.Event)
    requires P.Enabled(p, step)
    ensures P.Step(p, step).flag
            == if step.WaiterMove? && p.waiter == P.Clear then false
               else if step.SignallerMove? && p.signaller == P.Set then true
               else p.flag
  {
  }

  /** The flag of a pack changes with the pack's own steps and no others. */
  lemma {:induction false} FlagFollows(c: State, e: Event, s': System.State, id: Id)
    requires Enabled(c, e) && Follows(c, e, s')
    ensures Flag(s', id)
            == if e.Micro? && e.id == id then P.Step(PackOf(c, id), e.step).flag else Flag(c.system, id)
  {
    if e.Micro? {
      StepSetsFlag(PackOf(c, e.id), e.step);
    }
  }

  /** Putting a pack back changes that pack and no other. */
  lemma {:induction false} PutWaiter(c: State, id: Id, p: P.State, s': System.State, j: Id)
    requires p.waiter != WaiterPc(c, id) ==> c.call(Waiter(id)) == Own || WaiterPc(c, id) != P.WOut
    requires p.signaller != SignallerPc(c, id) ==> c.call(Signaller(id)) == Own || SignallerPc(c, id) != P.SOut
    ensures WaiterPc(Put(c, id, p, s'), j) == if j == id then p.waiter else WaiterPc(c, j)
  {
    TwoThreads(id);
  }

  lemma {:induction false} PutSignaller(c: State, id: Id, p: P.State, s': System.State, j: Id)
    requires p.waiter != WaiterPc(c, id) ==> c.call(Waiter(id)) == Own || WaiterPc(c, id) != P.WOut
    requires p.signaller != SignallerPc(c, id) ==> c.call(Signaller(id)) == Own || SignallerPc(c, id) != P.SOut
    ensures SignallerPc(Put(c, id, p, s'), j) == if j == id then p.signaller else SignallerPc(c, j)
  {
    TwoThreads(id);
  }

  lemma {:induction false} TwoThreads(id: Id)
    ensures Waiter(id) != Signaller(id)
  {
  }

  lemma {:induction false} StepsOfOwnCalls(c: State, id: Id, step: P.Event)
    requires Enabled(c, Micro(id, step))
    ensures var p := P.Step(PackOf(c, id), step);
            && (p.waiter != WaiterPc(c, id) ==> c.call(Waiter(id)) == Own || WaiterPc(c, id) != P.WOut)
            && (p.signaller != SignallerPc(c, id) ==> c.call(Signaller(id)) == Own || SignallerPc(c, id) != P.SOut)
  {
  }

  lemma {:induction false} MicroPcs(c: State, id: Id, step: P.Event, s': System.State, j: Id)
    requires Enabled(c, Micro(id, step))
    ensures var c' := Put(c, id, P.Step(PackOf(c, id), step), s'); var p := P.Step(PackOf(c, id), step);
            && WaiterPc(c', j) == (if j == id then p.waiter else WaiterPc(c, j))
            && SignallerPc(c', j) == (if j == id then p.signaller else SignallerPc(c, j))
  {
    var p := P.Step(PackOf(c, id), step);
    StepsOfOwnCalls(c, id, step);
    PutWaiter(c, id, p, s', j);
    PutSignaller(c, id, p, s', j);
  }

  /** Inside the whole system each pack is a pack of `ConditionPack`: it takes the steps that are its own and
      stands still at all others. */
  lemma {:induction false} PackFollows(c: State, e: Event, s': System.State, id: Id)
    requires Enabled(c, e) && Follows(c, e, s')
    ensures PackOf(StepTo(c, e, s'), id)
            == if e.Micro? && e.id == id then P.Step(PackOf(c, id), e.step) else PackOf(c, id)
  {
    FlagFollows(c, e, s', id);
    if e.Micro? {
      MicroPcs(c, e.id, e.step, s', id);
    }
  }

  // ---- Calls fit where the threads are ----

  lemma {:induction false} WaitFits(k: CallState, id: Id, pc: P.WaiterPc, pc': P.WaiterPc, a: Actor, point: Point,
                                    point': Point)
    requires CallFits(k, a, point) && Waiter(id) == a && pc == (if k.InWait? && k.id == id then k.waiter else P.WOut)
    requires pc' != pc && pc' != P.WOut && pc' != P.WUnlock ==> point' == Waits(id)
    requires pc' == pc ==> point' == point
    ensures CallFits(if pc' != pc then WaitCall(id, pc') else k, a, point')
  {
  }

  lemma {:induction false} SignalFits(k: CallState, id: Id, pc: P.SignallerPc, pc': P.SignallerPc, a: Actor,
                                      point: Point, point': Point)
    requires CallFits(k, a, point) && Signaller(id) == a
             && pc == (if k.InSignal? && k.id == id then k.signaller else P.SOut)
    requires pc' != pc && (pc' == P.SLock || pc' == P.Set) ==> point' == Signals(id)
    requires pc' == pc ==> point' == point
    ensures CallFits(if pc' != pc then SignalCall(id, pc') else k, a, point')
  {
  }

  /** Which program points of a pack's steps lie before the effect. */
  lemma {:induction false} WaiterAdvances(p: P.State, step: P.Event)
    requires P.Enabled(p, step)
    ensures var pc' := P.Step(p, step).waiter;
            && (pc' != p.waiter && pc' != P.WOut && pc' != P.WUnlock ==>
                  step.CallWait? || (p.waiter != P.WOut && p.waiter != P.WUnlock && p.waiter != P.Clear))
            && (step.WaiterMove? && p.waiter == P.Clear ==> pc' == P.WUnlock)
  {
  }

  lemma {:induction false} SignallerAdvances(p: P.State, step: P.Event)
    requires P.Enabled(p, step)
    ensures var pc' := P.Step(p, step).signaller;
            && (pc' != p.signaller && (pc' == P.SLock || pc' == P.Set) ==> step.CallSignal? || p.signaller == P.SLock)
            && (step.SignallerMove? && p.signaller == P.Set ==> pc' == P.Notify)
  {
  }

  lemma {:induction false} WaiterKeepsFitting(c: State, id: Id, step: P.Event, s': System.State)
    requires CallsInv(c) && Enabled(c, Micro(id, step)) && Follows(c, Micro(id, step), s')
    ensures var a := Waiter(id);
            CallFits(StepTo(c, Micro(id, step), s').call(a), a, PointOf(s', a))
  {
    var (a, p) := (Waiter(id), PackOf(c, id));
    assert CallFits(c.call(a), a, PointOf(c.system, a));
    TwoThreads(id);
    WaiterAdvances(p, step);
    WaitFits(c.call(a), id, p.waiter, P.Step(p, step).waiter, a, PointOf(c.system, a), PointOf(s', a));
  }

  lemma {:induction false} SignallerKeepsFitting(c: State, id: Id, step: P.Event, s': System.State)
    requires CallsInv(c) && Enabled(c, Micro(id, step)) && Follows(c, Micro(id, step), s')
    ensures var a := Signaller(id);
            CallFits(StepTo(c, Micro(id, step), s').call(a), a, PointOf(s', a))
  {
    var (a, p) := (Signaller(id), PackOf(c, id));
    assert CallFits(c.call(a), a, PointOf(c.system, a));
    TwoThreads(id);
    SignallerAdvances(p, step);
    SignalFits(c.call(a), id, p.signaller, P.Step(p, step).signaller, a, PointOf(c.system, a), PointOf(s', a));
  }

  /** The call of a thread fits where it is, whoever has taken a step. */
  lemma {:induction false} CallKeepsFitting(c: State, e: Event, s': System.State, a: Actor)
    requires CallsInv(c) && Enabled(c, e) && Follows(c, e, s')
    ensures CallFits(StepTo(c, e, s').call(a), a, PointOf(s', a))
  {
    assert CallFits(c.call(a), a, PointOf(c.system, a));
    if e.Micro? && a == Waiter(e.id) {
      WaiterKeepsFitting(c, e.id, e.step, s');
    } else if e.Micro? && a == Signaller(e.id) {
      SignallerKeepsFitting(c, e.id, e.step, s');
    }
  }

  // ---- The invariant holds on every run ----

  lemma {:induction false} InvIsOrderly(law: Law, c: State)
    requires Inv(law, c)
    ensures Orderly(c)
  {
    InvSetsPayload(law, c.system);
  }

  lemma {:induction false} FollowingKeeps(c: State, e: Event, s': System.State)
    requires PacksInv(c) && CallsInv(c) && Enabled(c, e) && Follows(c, e, s')
    ensures PacksInv(StepTo(c, e, s')) && CallsInv(StepTo(c, e, s'))
  {
    forall id: Id ensures P.Inv(PackOf(StepTo(c, e, s'), id)) {
      assert P.Inv(PackOf(c, id));
      PackFollows(c, e, s', id);
      if e.Micro? && e.id == id {
        P.StepKeepsInv(PackOf(c, id), e.step);
      }
    }
    forall a: Actor ensures CallFits(StepTo(c, e, s').call(a), a, PointOf(s', a)) {
      CallKeepsFitting(c, e, s', a);
    }
  }

  lemma {:induction false} EffectKeepsSystem(law: Law, c: State, e: Event)
    requires Inv(law, c) && Enabled(c, e)
    ensures System.Inv(law, SystemAfter(law, c, e))
  {
    InvIsOrderly(law, c);
    EffectIsEnabled(c, e);
    if |Effective(c, e)| == 1 {
      System.StepKeepsInv(law, c.system, Effective(c, e)[0]);
    }
  }

  lemma {:induction false} StepKeepsInv(law: Law, c: State, e: Event)
    requires Inv(law, c) && Enabled(c, e)
    ensures Inv(law, Step(law, c, e))
  {
    EffectKeepsSystem(law, c, e);
    InvIsOrderly(law, c);
    SystemFollows(law, c, e);
    FollowingKeeps(c, e, SystemAfter(law, c, e));
  }

  lemma {:induction false} RunPrefix(law: Law, states: seq<State>, events: seq<Event>)
    requires Run(law, states, events) && |events| > 0
    ensures var n := |events| - 1;
            && Run(law, states[..n + 1], events[..n]) && states[..n + 1][n] == states[n]
            && Happens(law, states[n], events[n], states[n + 1])
  {
  }

  lemma {:induction false} RunInv(law: Law, states: seq<State>, events: seq<Event>)
    requires Run(law, states, events)
    ensures Inv(law, states[|events|])
    decreases |events|
  {
    if events == [] {
      InitialInv(law, states[0]);
    } else {
      var n := |events| - 1;
      RunPrefix(law, states, events);
      RunInv(law, states[..n + 1], events[..n]);
      StepKeepsInv(law, states[n], events[n]);
    }
  }

  // ---- Each pack's own run ----

  /** Read off a run of the whole system what happens on one pack: it is a run of `ConditionPack`. */
  lemma {:induction false} PackRun(law: Law, states: seq<State>, events: seq<Event>, id: Id)
    returns (packs: seq<P.State>, steps: seq<P.Event>)
    requires Run(law, states, events)
    ensures P.Run(packs, steps) && P.Init(packs[0])
    ensures packs[0] == PackOf(states[0], id) && packs[|steps|] == PackOf(states[|events|], id)
    decreases |events|
  {
    if events == [] {
      packs, steps := [PackOf(states[0], id)], [];
    } else {
      var n := |events| - 1;
      RunPrefix(law, states, events);
      packs, steps := PackRun(law, states[..n + 1], events[..n], id);
      RunInv(law, states[..n + 1], events[..n]);
      packs, steps := NextOfPack(law, states[n], events[n], id, packs, steps);
    }
  }

  lemma {:induction false} NextOfPack(law: Law, c: State, e: Event, id: Id, packs: seq<P.State>, steps: seq<P.Event>)
    returns (packs': seq<P.State>, steps': seq<P.Event>)
    requires Inv(law, c) && Enabled(c, e)
    requires P.Run(packs, steps) && packs[|steps|] == PackOf(c, id)
    ensures P.Run(packs', steps') && packs'[0] == packs[0] && packs'[|steps'|] == PackOf(Step(law, c, e), id)
  {
    InvIsOrderly(law, c);
    SystemFollows(law, c, e);
    PackFollows(c, e, SystemAfter(law, c, e), id);
    if e.Micro? && e.id == id {
      P.RunGrows(packs, steps, e.step);
      packs', steps' := packs + [P.Step(PackOf(c, id), e.step)], steps + [e.step];
    } else {
      packs', steps' := packs, steps;
    }
  }

  /** So no pack ever loses a wake-up. */
  lemma {:induction false} NoWakeUpIsLost(law: Law, states: seq<State>, events: seq<Event>, id: Id)
    requires Run(law, states, events)
    ensures var p := PackOf(states[|events|], id);
            p.flag && p.waiter == P.Sleep ==> p.signaller == P.Notify && p.owner == P.BySignaller
  {
    var packs, steps := PackRun(law, states, events, id);
    P.NoLostWakeUp(packs, steps);
  }

  // ---- Refinement of the system with atomic waits and signals ----

  function Events(events: seq<Event>, which: Event -> bool): nat {
    if events == [] then 0
    else Events(events[..|events| - 1], which) + Bit(which(events[|events| - 1]))
  }

  function NewCalls(events: seq<Event>): nat { Events(events, (e: Event) => e.NewCall?) }

  function Wakes(events: seq<Event>): nat { Events(events, (e: Event) => e.Micro? && e.step.SpuriousWake?) }

  /** One step of the system or none. */
  ghost predicate Advances(law: Law, s: System.State, moves: seq<System.Event>, s': System.State) {
    if |moves| == 0 then s' == s
    else |moves| == 1 && System.Enabled(s, moves[0]) && s' == System.Step(law, s, moves[0])
  }

  lemma {:induction false} StepAdvances(law: Law, c: State, e: Event)
    requires Orderly(c) && Enabled(c, e)
    ensures Advances(law, c.system, Effective(c, e), Step(law, c, e).system)
  {
    EffectIsEnabled(c, e);
  }

  lemma {:induction false} CallsAreCalls(c: State, e: Event)
    ensures var next := Effective(c, e);
            Bit(e.NewCall?) == if next == [] then 0 else Bit(next[0].Call?)
  {
  }

  lemma {:induction false} RunAdvances(law: Law, run: seq<System.State>, moves: seq<System.Event>,
                                       next: seq<System.Event>, s': System.State)
    returns (run': seq<System.State>, moves': seq<System.Event>)
    requires System.Run(law, run, moves) && Advances(law, run[|moves|], next, s')
    ensures System.Run(law, run', moves') && run'[0] == run[0] && run'[|moves'|] == s'
    ensures moves' == moves + next
    ensures System.Calls(moves') == System.Calls(moves) + if next == [] then 0 else Bit(next[0].Call?)
  {
    if |next| == 0 {
      run', moves' := run, moves;
    } else {
      System.RunGrows(law, run, moves, next[0]);
      run', moves' := run + [s'], moves + next;
      assert moves'[..|moves|] == moves;
    }
  }

  // ---- What a run costs ----

  /** Steps spent inside a call and not yet paid for by the system's own steps. A step of the system pays
      for seven steps, a wake-up for no reason for three. */
  function Debt(k: CallState): int {
    match k
    case Own => 0
    case InWait(_, pc) =>
      (match pc
       case WLock => 1 case Test => 2 case Sleep => 3 case Relock => 1 case Clear => 3 case WUnlock => -1
       case WOut => 0)
    case InSignal(_, pc) =>
      (match pc case SLock => 1 case Set => 2 case Notify => -4 case SUnlock => -1 case SOut => 0)
  }

  function Debts(call: Actor -> CallState): int {
    Debt(call(Caller)) + Debt(call(ClientSender)) + Debt(call(ClientListener)) + Debt(call(ListenerOne))
    + Debt(call(ListenerTwo)) + Debt(call(Calculator)) + Debt(call(ServerSender))
  }

  function Credit(c: State, e: Event): nat {
    7 * |Effective(c, e)| + if e.Micro? && e.step.SpuriousWake? then 3 else 0
  }

  lemma {:induction false} DebtsOfTwo(before: Actor -> CallState, after: Actor -> CallState, a: Actor, b: Actor)
    requires a != b && forall x: Actor :: x != a && x != b ==> after(x) == before(x)
    ensures Debts(after) - Debts(before) == Debt(after(a)) - Debt(before(a)) + Debt(after(b)) - Debt(before(b))
  {
  }

  lemma {:induction false} MicroDebts(c: State, id: Id, step: P.Event, s': System.State)
    requires CallsInv(c) && Enabled(c, Micro(id, step))
    ensures var before, after := c.call, StepTo(c, Micro(id, step), s').call; var (w, g) := (Waiter(id), Signaller(id));
            Debt(before(w)) + Debt(before(g)) + 1 <= Debt(after(w)) + Debt(after(g)) + Credit(c, Micro(id, step))
  {
    var (w, g) := (Waiter(id), Signaller(id));
    TwoThreads(id);
    assert CallFits(c.call(w), w, PointOf(c.system, w)) && CallFits(c.call(g), g, PointOf(c.system, g));
  }

  /** Every step is paid for. */
  lemma {:induction false} StepIsPaidFor(c: State, e: Event, s': System.State)
    requires CallsInv(c) && Enabled(c, e)
    ensures Debts(c.call) + 1 <= Debts(StepTo(c, e, s').call) + Credit(c, e)
  {
    if e.Micro? {
      TwoThreads(e.id);
      MicroDebts(c, e.id, e.step, s');
      DebtsOfTwo(c.call, StepTo(c, e, s').call, Waiter(e.id), Signaller(e.id));
    }
  }

  lemma {:induction false} DebtsAreSmall(call: Actor -> CallState)
    ensures Debts(call) <= 21
  {
  }

  lemma {:induction false} CountsGrow(events: seq<Event>)
    requires |events| > 0
    ensures var n := |events| - 1; var e := events[n];
            && NewCalls(events) == NewCalls(events[..n]) + Bit(e.NewCall?)
            && Wakes(events) == Wakes(events[..n]) + Bit(e.Micro? && e.step.SpuriousWake?)
  {
  }

  // ---- Refinement of the system with atomic waits and signals, main results ----

  lemma {:induction false} RefinesNext(law: Law, c: State, e: Event, run: seq<System.State>, moves: seq<System.Event>)
    returns (run': seq<System.State>, moves': seq<System.Event>)
    requires Inv(law, c) && Enabled(c, e) && System.Run(law, run, moves) && run[|moves|] == c.system
    ensures System.Run(law, run', moves') && run'[0] == run[0] && run'[|moves'|] == Step(law, c, e).system
    ensures System.Calls(moves') == System.Calls(moves) + Bit(e.NewCall?)
    ensures 1 + 7 * |moves| + Debts(c.call)
            <= 7 * |moves'| + 3 * Bit(e.Micro? && e.step.SpuriousWake?) + Debts(Step(law, c, e).call)
  {
    InvIsOrderly(law, c);
    StepAdvances(law, c, e);
    CallsAreCalls(c, e);
    StepIsPaidFor(c, e, SystemAfter(law, c, e));
    run', moves' := RunAdvances(law, run, moves, Effective(c, e), Step(law, c, e).system);
  }

  /** `run` is what these events are to the system, and they are not many more. */
  ghost predicate Refines(law: Law, first: State, events: seq<Event>, last: State,
                          run: seq<System.State>, moves: seq<System.Event>) {
    && System.Run(law, run, moves) && run[0] == first.system && run[|moves|] == last.system
    && System.Calls(moves) == NewCalls(events)
    && |events| <= 7 * |moves| + 3 * Wakes(events) + Debts(last.call)
  }

  lemma {:induction false} RefinesAtFirst(law: Law, c: State)
    requires Init(c)
    ensures Refines(law, c, [], c, [c.system], [])
  {
    assert c.call(Caller) == c.call(ClientSender) == c.call(ClientListener) == Own;
    assert c.call(ListenerOne) == c.call(ListenerTwo) == c.call(Calculator) == c.call(ServerSender) == Own;
  }

  lemma {:induction false} RefinesLonger(law: Law, first: State, events: seq<Event>, c: State, e: Event,
                                         run: seq<System.State>, moves: seq<System.Event>)
    returns (run': seq<System.State>, moves': seq<System.Event>)
    requires Refines(law, first, events, c, run, moves) && Inv(law, c) && Enabled(c, e)
    ensures Refines(law, first, events + [e], Step(law, c, e), run', moves')
  {
    run', moves' := RefinesNext(law, c, e, run, moves);
    CountsGrow(events + [e]);
    assert (events + [e])[..|events|] == events;
  }

  lemma {:induction false} RefinesLast(law: Law, first: State, events: seq<Event>, c: State, c': State, n: nat,
                                       run: seq<System.State>, moves: seq<System.Event>)
    returns (run': seq<System.State>, moves': seq<System.Event>)
    requires |events| == n + 1 && Refines(law, first, events[..n], c, run, moves)
    requires Inv(law, c) && Happens(law, c, events[n], c')
    ensures Refines(law, first, events, c', run', moves')
  {
    run', moves' := RefinesLonger(law, first, events[..n], c, events[n], run, moves);
    assert events[..n] + [events[n]] == events;
  }

  lemma {:induction false} PrefixInv(law: Law, states: seq<State>, events: seq<Event>, n: nat)
    requires Run(law, states, events) && |events| == n + 1
    ensures Run(law, states[..n + 1], events[..n]) && states[..n + 1][0] == states[0]
    ensures states[..n + 1][n] == states[n] && Inv(law, states[n])
    ensures Happens(law, states[n], events[n], states[n + 1])
  {
    RunPrefix(law, states, events);
    RunInv(law, states[..n + 1], events[..n]);
  }

  /** Refinement. Forgetting mutexes, condition variables and the insides of calls, every run of the packed
      system is a run of `System`, with the same calls, and not much longer. */
  lemma {:induction false} RunRefines(law: Law, states: seq<State>, events: seq<Event>)
    returns (run: seq<System.State>, moves: seq<System.Event>)
    requires Run(law, states, events)
    ensures Refines(law, states[0], events, states[|events|], run, moves)
    decreases |events|
  {
    if events == [] {
      RefinesAtFirst(law, states[0]);
      run, moves := [states[0].system], [];
    } else {
      var n := |events| - 1;
      PrefixInv(law, states, events, n);
      run, moves := RunRefines(law, states[..n + 1], events[..n]);
      run, moves := RefinesLast(law, states[0], events, states[n], states[n + 1], n, run, moves);
    }
  }

  /** So what `System` promises of the replies holds with the packs in place. */
  lemma {:induction false} RepliesAreFresh(law: Law, states: seq<State>, events: seq<Event>)
    requires Run(law, states, events)
    ensures var s := states[|events|].system;
            System.RepliesInWindow(law, s.client.requests, s.client.caller.replies, s.server.sender.picks)
  {
    var run, moves := RunRefines(law, states, events);
    System.RepliesAreFresh(law, run, moves);
  }

  // ---- No deadlock ----

  /** Nothing can happen but a new call or a wake-up for no reason. */
  ghost predicate Resting(c: State) {
    forall e: Event :: Enabled(c, e) ==> e.NewCall? || (e.Micro? && e.step.SpuriousWake?)
  }

  /** A pack on which a call is under way can move, unless it is a waiter asleep beside a lowered flag. */
  lemma {:induction false} PackMoves(p: P.State)
    requires P.Inv(p) && (p.waiter != P.WOut || p.signaller != P.SOut)
    requires p.waiter == P.Sleep && p.signaller == P.SOut ==> p.flag
    ensures P.Enabled(p, P.WaiterMove) || P.Enabled(p, P.SignallerMove)
  {
  }

  lemma {:induction false} PackGoesOn(c: State, id: Id) returns (e: Event)
    requires Orderly(c) && (WaiterPc(c, id) != P.WOut || SignallerPc(c, id) != P.SOut)
    requires WaiterPc(c, id) == P.Sleep && SignallerPc(c, id) == P.SOut ==> Flag(c.system, id)
    ensures Enabled(c, e) && (e == Micro(id, P.WaiterMove) || e == Micro(id, P.SignallerMove))
  {
    assert P.Inv(PackOf(c, id));
    PackMoves(PackOf(c, id));
    e := Micro(id, if P.Enabled(PackOf(c, id), P.WaiterMove) then P.WaiterMove else P.SignallerMove);
  }

  /** Where the atomic system lets a thread move, something can happen with the packs in place: the thread
      begins a call or goes on with it, or the thread at the other end of the pack does. */
  lemma {:induction false} ThreadGoesOn(c: State, a: Actor) returns (e: Event)
    requires Orderly(c) && System.Enabled(c.system, Move(a))
    ensures Enabled(c, e) && !e.NewCall? && !(e.Micro? && e.step.SpuriousWake?)
  {
    var (k, point) := (c.call(a), PointOf(c.system, a));
    assert CallFits(k, a, point);
    PointEnabled(c.system, a);
    PointsAreOwn(c.system, a);
    match k
    case InWait(id, _) => e := PackGoesOn(c, id);
    case InSignal(id, _) => e := PackGoesOn(c, id);
    case Own =>
      match point
      case Other => e := Code(a);
      case Waits(id) => e := Micro(id, P.CallWait);
      case Signals(id) => e := Micro(id, P.CallSignal);
  }

  /** At rest no thread can move: each is asleep in a wait whose flag is down, or the caller is idle. */
  lemma {:induction false} RestingThread(c: State, a: Actor)
    requires Orderly(c) && Resting(c)
    ensures !System.Enabled(c.system, Move(a))
  {
    if System.Enabled(c.system, Move(a)) {
      var e := ThreadGoesOn(c, a);
    }
  }

  lemma {:induction false} RestingIsStuck(c: State)
    requires Orderly(c) && Resting(c)
    ensures System.Stuck(c.system)
  {
    forall t: C.Thread ensures !System.Enabled(c.system, System.ClientMove(t)) {
      MoveOf(System.ClientMove(t));
      RestingThread(c, ActorOf(System.ClientMove(t)));
    }
    forall t: S.Thread ensures !System.Enabled(c.system, System.ServerMove(t)) {
      MoveOf(System.ServerMove(t));
      RestingThread(c, ActorOf(System.ServerMove(t)));
    }
  }

  /** The caller is between calls, all of them have returned, and no thread is in the middle of one. */
  lemma {:induction false} RestingIsDone(law: Law, states: seq<State>, events: seq<Event>)
    requires Run(law, states, events) && Resting(states[|events|])
    ensures var s := states[|events|].system;
            s.client.caller.pc == C.Idle && |s.client.caller.replies| == NewCalls(events)
  {
    var run, moves := RunRefines(law, states, events);
    RunInv(law, states, events);
    InvIsOrderly(law, states[|events|]);
    RestingIsStuck(states[|events|]);
    System.EveryCallReturns(law, run, moves);
  }

  /** Total correctness with the packs in place and no assumption on fairness: a run with q calls and w
      wake-ups for no reason has at most 301q + 3w + 259 steps; and when nothing can happen but a new
      call, every call has returned. */
  lemma {:induction false} EveryCallReturns(law: Law, states: seq<State>, events: seq<Event>)
    requires Run(law, states, events)
    ensures var s := states[|events|]; var q := NewCalls(events);
            && |events| <= 301 * q + 3 * Wakes(events) + 259
            && (Resting(s) ==> s.system.client.caller.pc == C.Idle && |s.system.client.caller.replies| == q)
  {
    var run, moves := RunRefines(law, states, events);
    System.EveryCallReturns(law, run, moves);
    DebtsAreSmall(states[|events|].call);
    if Resting(states[|events|]) {
      RestingIsDone(law, states, events);
    }
  }
}
