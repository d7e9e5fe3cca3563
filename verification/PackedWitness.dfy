/** The converse of `PackedSystem`: putting the packs in place takes nothing away. Every run of the system with
    atomic waits and signals is what some schedule of mutexes and condition variables does. */
module PackedWitness {
  import opened Handoff
  import System
  import P = ConditionPack
  import opened PackedSystem

  function Last(states: seq<State>): State
    requires |states| > 0
  {
    states[|states| - 1]
  }

  /** No call is under way on a pack and its mutex is free. */
  predicate Unused(p: P.State) { p.owner == P.Free && p.waiter == P.WOut && p.signaller == P.SOut }

  ghost predicate OthersUnused(c: State, id: Id) { forall j: Id :: j != id ==> Unused(PackOf(c, j)) }

  ghost predicate AllUnused(c: State) { forall j: Id :: Unused(PackOf(c, j)) }

  lemma {:induction false} Extend(law: Law, states: seq<State>, events: seq<Event>, e: Event)
    returns (states': seq<State>, events': seq<Event>)
    requires Run(law, states, events) && Enabled(Last(states), e)
    ensures Run(law, states', events') && states'[0] == states[0] && Last(states') == Step(law, Last(states), e)
  {
    RunGrows(law, states, events, e, Step(law, Last(states), e));
    states', events' := states + [Step(law, Last(states), e)], events + [e];
  }

  /** A step of one pack while nobody uses the others. */
  lemma {:induction false} PackStep(law: Law, states: seq<State>, events: seq<Event>, id: Id, step: P.Event)
    returns (states': seq<State>, events': seq<Event>)
    requires Run(law, states, events) && Enabled(Last(states), Micro(id, step)) && OthersUnused(Last(states), id)
    ensures Run(law, states', events') && states'[0] == states[0] && OthersUnused(Last(states'), id)
    ensures PackOf(Last(states'), id) == P.Step(PackOf(Last(states), id), step)
    ensures Last(states').system == SystemAfter(law, Last(states), Micro(id, step))
  {
    var (c, e) := (Last(states), Micro(id, step));
    states', events' := Extend(law, states, events, e);
    RunInv(law, states, events);
    InvIsOrderly(law, c);
    SystemFollows(law, c, e);
    PackFollows(c, e, SystemAfter(law, c, e), id);
    forall j: Id | j != id
      ensures Unused(PackOf(Step(law, c, e), j))
    {
      assert Unused(PackOf(c, j));
      PackFollows(c, e, SystemAfter(law, c, e), j);
    }
  }

  /** With no call under way, every thread is in its own code. */
  lemma {:induction false} UnusedIsOwn(c: State, a: Actor)
    requires CallsInv(c) && AllUnused(c)
    ensures c.call(a) == Own
  {
    var k := c.call(a);
    assert CallFits(k, a, PointOf(c.system, a));
    assert Unused(PackOf(c, if k.Own? then OneFull else k.id));
  }

  /** Pack `id` is as in `p`, the others are not in use, and the system is in state `s`. */
  ghost predicate Using(c: State, id: Id, p: P.State, s: System.State) {
    PackOf(c, id) == p && OthersUnused(c, id) && c.system == s
  }

  /** A step inside a call that has no effect. */
  lemma {:induction false} InnerStep(law: Law, states: seq<State>, events: seq<Event>, id: Id, step: P.Event,
                                     p: P.State, s: System.State)
    returns (states': seq<State>, events': seq<Event>)
    requires Run(law, states, events) && Using(Last(states), id, p, s)
    requires P.Enabled(p, step) && !step.CallWait? && !step.CallSignal?
    requires !(step.WaiterMove? && p.waiter == P.Clear) && !(step.SignallerMove? && p.signaller == P.Set)
    ensures Run(law, states', events') && states'[0] == states[0] && Using(Last(states'), id, P.Step(p, step), s)
  {
    states', events' := PackStep(law, states, events, id, step);
  }

  /** The step that has it. */
  lemma {:induction false} TakeStep(law: Law, states: seq<State>, events: seq<Event>, id: Id, p: P.State,
                                    s: System.State)
    returns (states': seq<State>, events': seq<Event>)
    requires Run(law, states, events) && Using(Last(states), id, p, s) && p.waiter == P.Clear
    requires System.Enabled(s, Move(Waiter(id)))
    ensures Run(law, states', events') && states'[0] == states[0]
    ensures Using(Last(states'), id, P.Step(p, P.WaiterMove), System.Step(law, s, Move(Waiter(id))))
  {
    states', events' := PackStep(law, states, events, id, P.WaiterMove);
  }

  lemma {:induction false} RaiseStep(law: Law, states: seq<State>, events: seq<Event>, id: Id, p: P.State,
                                     s: System.State)
    returns (states': seq<State>, events': seq<Event>)
    requires Run(law, states, events) && Using(Last(states), id, p, s) && p.signaller == P.Set
    requires System.Enabled(s, Move(Signaller(id)))
    ensures Run(law, states', events') && states'[0] == states[0]
    ensures Using(Last(states'), id, P.Step(p, P.SignallerMove), System.Step(law, s, Move(Signaller(id))))
  {
    states', events' := PackStep(law, states, events, id, P.SignallerMove);
  }

  lemma {:induction false} BeginWait(law: Law, states: seq<State>, events: seq<Event>, id: Id, p: P.State)
    returns (states': seq<State>, events': seq<Event>)
    requires Run(law, states, events) && AllUnused(Last(states)) && p == PackOf(Last(states), id)
    requires PointOf(Last(states).system, Waiter(id)) == Waits(id)
    ensures Run(law, states', events') && states'[0] == states[0]
    ensures Using(Last(states'), id, p.(waiter := P.WLock), Last(states).system) && Unused(p)
  {
    RunInv(law, states, events);
    UnusedIsOwn(Last(states), Waiter(id));
    assert Unused(PackOf(Last(states), id));
    states', events' := PackStep(law, states, events, id, P.CallWait);
  }

  lemma {:induction false} BeginSignal(law: Law, states: seq<State>, events: seq<Event>, id: Id, p: P.State)
    returns (states': seq<State>, events': seq<Event>)
    requires Run(law, states, events) && AllUnused(Last(states)) && p == PackOf(Last(states), id)
    requires PointOf(Last(states).system, Signaller(id)) == Signals(id)
    ensures Run(law, states', events') && states'[0] == states[0]
    ensures Using(Last(states'), id, p.(signaller := P.SLock), Last(states).system) && Unused(p)
  {
    RunInv(law, states, events);
    UnusedIsOwn(Last(states), Signaller(id));
    assert Unused(PackOf(Last(states), id));
    states', events' := PackStep(law, states, events, id, P.CallSignal);
  }

  lemma {:induction false} AgainUnused(c: State, id: Id, p: P.State, s: System.State)
    requires Using(c, id, p, s) && Unused(p)
    ensures AllUnused(c)
  {
    forall j: Id ensures Unused(PackOf(c, j)) {
    }
  }

  /** A whole wait on a raised flag, with nobody else on the packs. */
  lemma {:induction false} WaitThrough(law: Law, states: seq<State>, events: seq<Event>, id: Id, s: System.State)
    returns (states': seq<State>, events': seq<Event>)
    requires Run(law, states, events) && AllUnused(Last(states)) && Last(states).system == s
    requires PointOf(s, Waiter(id)) == Waits(id) && System.Enabled(s, Move(Waiter(id))) && Flag(s, id)
    ensures Run(law, states', events') && states'[0] == states[0] && AllUnused(Last(states'))
    ensures Last(states').system == System.Step(law, s, Move(Waiter(id)))
  {
    var (p, s') := (PackOf(Last(states), id), System.Step(law, s, Move(Waiter(id))));
    states', events' := BeginWait(law, states, events, id, p);
    var q := P.State(true, P.ByWaiter, P.Test, P.SOut);
    states', events' := InnerStep(law, states', events', id, P.WaiterMove, p.(waiter := P.WLock), s);
    states', events' := InnerStep(law, states', events', id, P.WaiterMove, q, s);
    states', events' := TakeStep(law, states', events', id, q.(waiter := P.Clear), s);
    states', events' := InnerStep(law, states', events', id, P.WaiterMove,
                                  P.State(false, P.ByWaiter, P.WUnlock, P.SOut), s');
    AgainUnused(Last(states'), id, P.State(false, P.Free, P.WOut, P.SOut), s');
  }

  lemma {:induction false} SignalThrough(law: Law, states: seq<State>, events: seq<Event>, id: Id, s: System.State)
    returns (states': seq<State>, events': seq<Event>)
    requires Run(law, states, events) && AllUnused(Last(states)) && Last(states).system == s
    requires PointOf(s, Signaller(id)) == Signals(id) && System.Enabled(s, Move(Signaller(id)))
    ensures Run(law, states', events') && states'[0] == states[0] && AllUnused(Last(states'))
    ensures Last(states').system == System.Step(law, s, Move(Signaller(id)))
  {
    var (p, s') := (PackOf(Last(states), id), System.Step(law, s, Move(Signaller(id))));
    states', events' := BeginSignal(law, states, events, id, p);
    var q := P.State(p.flag, P.BySignaller, P.WOut, P.Set);
    states', events' := InnerStep(law, states', events', id, P.SignallerMove, p.(signaller := P.SLock), s);
    states', events' := RaiseStep(law, states', events', id, q, s);
    states', events' := InnerStep(law, states', events', id, P.SignallerMove, q.(flag := true, signaller := P.Notify),
                                  s');
    states', events' := InnerStep(law, states', events', id, P.SignallerMove,
                                  q.(flag := true, signaller := P.SUnlock), s');
    AgainUnused(Last(states'), id, P.State(true, P.Free, P.WOut, P.SOut), s');
  }

  /** A step of a thread's own code, or a new call. */
  lemma {:induction false} CodeStep(law: Law, states: seq<State>, events: seq<Event>, e: Event)
    returns (states': seq<State>, events': seq<Event>)
    requires Run(law, states, events) && AllUnused(Last(states)) && Enabled(Last(states), e) && !e.Micro?
    ensures Run(law, states', events') && states'[0] == states[0] && AllUnused(Last(states'))
    ensures Last(states').system == SystemAfter(law, Last(states), e)
  {
    var c := Last(states);
    states', events' := Extend(law, states, events, e);
    RunInv(law, states, events);
    InvIsOrderly(law, c);
    SystemFollows(law, c, e);
    forall j: Id
      ensures Unused(PackOf(Step(law, c, e), j))
    {
      assert Unused(PackOf(c, j));
      PackFollows(c, e, SystemAfter(law, c, e), j);
    }
  }

  lemma {:induction false} PerformMove(law: Law, states: seq<State>, events: seq<Event>, a: Actor, s: System.State)
    returns (states': seq<State>, events': seq<Event>)
    requires Run(law, states, events) && AllUnused(Last(states)) && Last(states).system == s
    requires System.Enabled(s, Move(a)) && PayloadSet(s) && Last(states).call(a) == Own
    ensures Run(law, states', events') && states'[0] == states[0] && AllUnused(Last(states'))
    ensures Last(states').system == System.Step(law, s, Move(a))
  {
    PointsAreOwn(s, a);
    PointEnabled(s, a);
    match PointOf(s, a)
    case Other => states', events' := CodeStep(law, states, events, Code(a));
    case Waits(id) => states', events' := WaitThrough(law, states, events, id, s);
    case Signals(id) => states', events' := SignalThrough(law, states, events, id, s);
  }

  /** One step of the system, with its wait or signal carried out in full. */
  lemma {:induction false} PerformStep(law: Law, states: seq<State>, events: seq<Event>, e: System.Event)
    returns (states': seq<State>, events': seq<Event>)
    requires Run(law, states, events) && AllUnused(Last(states)) && System.Enabled(Last(states).system, e)
    ensures Run(law, states', events') && states'[0] == states[0] && AllUnused(Last(states'))
    ensures Last(states').system == System.Step(law, Last(states).system, e)
  {
    var c := Last(states);
    RunInv(law, states, events);
    InvIsOrderly(law, c);
    UnusedIsOwn(c, ActorOf(e));
    if e.Call? {
      states', events' := CodeStep(law, states, events, NewCall(e.payload));
    } else {
      MoveOf(e);
      states', events' := PerformMove(law, states, events, ActorOf(e), c.system);
    }
  }

  lemma {:induction false} Performs(law: Law, c: State, run: seq<System.State>, moves: seq<System.Event>)
    returns (states: seq<State>, events: seq<Event>)
    requires System.Run(law, run, moves) && Init(c) && c.system == run[0]
    ensures Run(law, states, events) && states[0] == c && AllUnused(Last(states))
    ensures Last(states).system == run[|moves|]
    decreases |moves|
  {
    if moves == [] {
      states, events := [c], [];
    } else {
      var n := |moves| - 1;
      System.RunPrefix(law, run, moves);
      states, events := Performs(law, c, run[..n + 1], moves[..n]);
      states, events := PerformStep(law, states, events, moves[n]);
    }
  }

  ghost predicate Reaches(law: Law, c: State, s: System.State) {
    exists states: seq<State>, events: seq<Event> ::
      Run(law, states, events) && states[0] == c && Last(states).system == s
  }

  ghost predicate SystemReaches(law: Law, start: System.State, s: System.State) {
    exists run: seq<System.State>, moves: seq<System.Event> ::
      System.Run(law, run, moves) && run[0] == start && run[|moves|] == s
  }

  /** With the packs in place exactly the same states of the system are reached as with atomic waits and
      signals. */
  lemma {:induction false} SameReachableStates(law: Law, c: State, s: System.State)
    requires Init(c)
    ensures Reaches(law, c, s) <==> SystemReaches(law, c.system, s)
  {
    if Reaches(law, c, s) {
      var states: seq<State>, events: seq<Event> :|
        Run(law, states, events) && states[0] == c && Last(states).system == s;
      var run, moves := RunRefines(law, states, events);
    }
    if SystemReaches(law, c.system, s) {
      var run: seq<System.State>, moves: seq<System.Event> :|
        System.Run(law, run, moves) && run[0] == c.system && run[|moves|] == s;
      var states, events := Performs(law, c, run, moves);
    }
  }
}
