/** One condition pack at the level of its mutex, condition variable and flag
    (client/threading_stuff.c:32-46, and the same two bodies written out in the server). Every pack
    has one thread that waits on it and one that signals it; the two interleave step by step, and the
    waiter may be woken for no reason. Seen from outside, a pack is an atomic binary semaphore,
    as the protocol's other modules take it; `PackedSystem` puts ten packs in the place of the flags. */
module ConditionPack {

  datatype Owner = Free | ByWaiter | BySignaller

  /** Program points of wait_with_pack. `Sleep` is inside pthread_cond_wait with the mutex released,
      `Relock` is woken and not yet back. */
  datatype WaiterPc = WOut | WLock | Test | Sleep | Relock | Clear | WUnlock

  /** Program points of signal_with_pack. */
  datatype SignallerPc = SOut | SLock | Set | Notify | SUnlock

  datatype State = State(flag: bool, owner: Owner, waiter: WaiterPc, signaller: SignallerPc)

  datatype Event = CallWait | CallSignal | WaiterMove | SignallerMove | SpuriousWake

  predicate Init(s: State) { s.owner == Free && s.waiter == WOut && s.signaller == SOut }

  predicate Enabled(s: State, e: Event) {
    match e
    case CallWait => s.waiter == WOut
    case CallSignal => s.signaller == SOut
    case WaiterMove =>
      && s.waiter != WOut && s.waiter != Sleep
      && (s.waiter == WLock || s.waiter == Relock ==> s.owner == Free)
    case SignallerMove => s.signaller != SOut && (s.signaller == SLock ==> s.owner == Free)
    case SpuriousWake => s.waiter == Sleep
  }

  function Step(s: State, e: Event): State
    requires Enabled(s, e)
  {
    match e
    case CallWait => s.(waiter := WLock)
    case CallSignal => s.(signaller := SLock)
    case SpuriousWake => s.(waiter := Relock)
    case WaiterMove => WaiterStep(s)
    case SignallerMove => SignallerStep(s)
  }

  function WaiterStep(s: State): State {
    match s.waiter
    case WLock => s.(owner := ByWaiter, waiter := Test)
    case Test => if s.flag then s.(waiter := Clear) else s.(owner := Free, waiter := Sleep)
    case Relock => s.(owner := ByWaiter, waiter := Test)
    case Clear => s.(flag := false, waiter := WUnlock)
    case WUnlock => s.(owner := Free, waiter := WOut)
    case _ => s
  }

  function SignallerStep(s: State): State {
    match s.signaller
    case SLock => s.(owner := BySignaller, signaller := Set)
    case Set => s.(flag := true, signaller := Notify)
    case Notify => s.(signaller := SUnlock, waiter := if s.waiter == Sleep then Relock else s.waiter)
    case SUnlock => s.(owner := Free, signaller := SOut)
    case SOut => s
  }

  ghost predicate Run(states: seq<State>, events: seq<Event>) {
    && |states| == |events| + 1
    && forall i :: 0 <= i < |events| ==> Enabled(states[i], events[i]) && states[i + 1] == Step(states[i], events[i])
  }

  lemma {:induction false} RunGrows(states: seq<State>, events: seq<Event>, e: Event)
    requires Run(states, events) && Enabled(states[|events|], e)
    ensures Run(states + [Step(states[|events|], e)], events + [e])
  {
  }

  // ---- The invariant ----

  /** The mutex excludes, the flag is up where the waiter has seen it up, and a waiter asleep beside a
      raised flag is about to be notified. */
  ghost predicate Inv(s: State) {
    && (s.owner == ByWaiter <==> s.waiter == Test || s.waiter == Clear || s.waiter == WUnlock)
    && (s.owner == BySignaller <==> s.signaller == Set || s.signaller == Notify || s.signaller == SUnlock)
    && (s.waiter == Clear || s.signaller == Notify ==> s.flag)
    && (s.flag && s.waiter == Sleep ==> s.signaller == Notify)
  }

  lemma {:induction false} StepKeepsInv(s: State, e: Event)
    requires Inv(s) && Enabled(s, e)
    ensures Inv(Step(s, e))
  {
  }

  lemma {:induction false} RunInv(states: seq<State>, events: seq<Event>)
    requires Run(states, events) && Inv(states[0])
    ensures Inv(states[|events|])
    decreases |events|
  {
    if events != [] {
      var n := |events| - 1;
      RunInv(states[..n + 1], events[..n]);
      StepKeepsInv(states[n], events[n]);
    }
  }

  /** No wake-up is lost: in no reachable state does the waiter sleep beside a raised flag without the
      signaller, holding the mutex, standing right before its notification. */
  lemma {:induction false} NoLostWakeUp(states: seq<State>, events: seq<Event>)
    requires Run(states, events) && Init(states[0])
    ensures var s := states[|events|];
            s.flag && s.waiter == Sleep ==> s.signaller == Notify && s.owner == BySignaller
  {
    RunInv(states, events);
  }

  // ---- Refinement of an atomic binary semaphore ----

  datatype WaitCall = NotWaiting | Waiting | Taken

  datatype SignalCall = NotSignalling | Signalling | Raised

  /** A binary semaphore with the calls under way on it. */
  datatype Semaphore = Semaphore(up: bool, wait: WaitCall, signal: SignalCall)

  /** The semaphore's atomic steps: a call begins, takes effect in one step, and returns. */
  datatype Atomic = BeginWait | Take | EndWait | BeginSignal | Raise | EndSignal

  predicate Possible(a: Semaphore, step: Atomic) {
    match step
    case BeginWait => a.wait == NotWaiting
    case Take => a.wait == Waiting && a.up
    case EndWait => a.wait == Taken
    case BeginSignal => a.signal == NotSignalling
    case Raise => a.signal == Signalling
    case EndSignal => a.signal == Raised
  }

  function Atomically(a: Semaphore, step: Atomic): Semaphore
    requires Possible(a, step)
  {
    match step
    case BeginWait => a.(wait := Waiting)
    case Take => a.(wait := Taken, up := false)
    case EndWait => a.(wait := NotWaiting)
    case BeginSignal => a.(signal := Signalling)
    case Raise => a.(signal := Raised, up := true)
    case EndSignal => a.(signal := NotSignalling)
  }

  function Abstract(s: State): Semaphore {
    Semaphore(
      s.flag,
      if s.waiter == WOut then NotWaiting else if s.waiter == WUnlock then Taken else Waiting,
      if s.signaller == SOut then NotSignalling
      else if s.signaller == SLock || s.signaller == Set then Signalling
      else Raised)
  }

  /** What each micro-step is on the semaphore: one of its atomic steps, or nothing. */
  function Effect(s: State, e: Event): seq<Atomic> {
    match e
    case CallWait => [BeginWait]
    case CallSignal => [BeginSignal]
    case SpuriousWake => []
    case WaiterMove => if s.waiter == Clear then [Take] else if s.waiter == WUnlock then [EndWait] else []
    case SignallerMove => if s.signaller == Set then [Raise] else if s.signaller == SUnlock then [EndSignal] else []
  }

  /** A sequence of atomic steps takes one semaphore to another. */
  predicate Performs(a: Semaphore, steps: seq<Atomic>, b: Semaphore)
    decreases |steps|
  {
    if |steps| == 0 then a == b
    else Possible(a, steps[0]) && Performs(Atomically(a, steps[0]), steps[1..], b)
  }

  function Effects(states: seq<State>, events: seq<Event>): seq<Atomic>
    requires |states| >= |events|
    decreases |events|
  {
    if |events| == 0 then [] else Effect(states[0], events[0]) + Effects(states[1..], events[1..])
  }

  ghost predicate Refines(a: Semaphore, steps: seq<Atomic>, b: Semaphore) {
    if |steps| == 0 then a == b else |steps| == 1 && Possible(a, steps[0]) && b == Atomically(a, steps[0])
  }

  lemma {:induction false} StepRefines(s: State, e: Event)
    requires Inv(s) && Enabled(s, e)
    ensures Refines(Abstract(s), Effect(s, e), Abstract(Step(s, e)))
  {
  }

  lemma {:induction false} PerformsFirst(a: Semaphore, first: seq<Atomic>, b: Semaphore, steps: seq<Atomic>,
                                         c: Semaphore)
    requires Refines(a, first, b) && Performs(b, steps, c)
    ensures Performs(a, first + steps, c)
  {
    if |first| == 0 {
      assert first + steps == steps;
    } else {
      assert (first + steps)[1..] == steps;
    }
  }

  /** Refinement: whatever the interleaving and however often the waiter is woken for nothing, a run of
      the micro-steps performs a run of the atomic semaphore, in which each wait takes a raised flag,
      once, between its call and its return. */
  lemma {:induction false} RunRefines(states: seq<State>, events: seq<Event>)
    requires Run(states, events) && Inv(states[0])
    ensures Performs(Abstract(states[0]), Effects(states, events), Abstract(states[|events|]))
    decreases |events|
  {
    if |events| > 0 {
      StepKeepsInv(states[0], events[0]);
      StepRefines(states[0], events[0]);
      RunRefines(states[1..], events[1..]);
      PerformsFirst(Abstract(states[0]), Effect(states[0], events[0]), Abstract(states[1]),
                    Effects(states[1..], events[1..]), Abstract(states[|events|]));
    }
  }

  function Count(steps: seq<Atomic>, which: Atomic): nat
    decreases |steps|
  {
    if |steps| == 0 then 0 else (if steps[0] == which then 1 else 0) + Count(steps[1..], which)
  }

  function Bit(b: bool): nat { if b then 1 else 0 }

  /** How many raises met a flag already up, and so were lost. */
  function Lost(a: Semaphore, steps: seq<Atomic>): nat
    decreases |steps|
  {
    if |steps| == 0 || !Possible(a, steps[0]) then 0
    else Bit(steps[0] == Raise && a.up) + Lost(Atomically(a, steps[0]), steps[1..])
  }

  /** What has been taken, what is still up and what was lost account for every raise; each wait takes the
      flag once, and each signal raises it once. */
  lemma {:induction false} TakesComeFromRaises(a: Semaphore, steps: seq<Atomic>, b: Semaphore)
    requires Performs(a, steps, b)
    ensures Count(steps, Take) + Bit(b.up) + Lost(a, steps) == Count(steps, Raise) + Bit(a.up)
    ensures Count(steps, Take) + Bit(a.wait == Taken) == Count(steps, EndWait) + Bit(b.wait == Taken)
    ensures Count(steps, Raise) + Bit(a.signal == Raised) == Count(steps, EndSignal) + Bit(b.signal == Raised)
    decreases |steps|
  {
    if |steps| > 0 {
      TakesComeFromRaises(Atomically(a, steps[0]), steps[1..], b);
    }
  }

  // ---- A raised flag is taken ----

  /** Steps left until a waiter inside its call takes a raised flag. */
  function StepsToTake(s: State): nat {
    var waiting :=
      match s.waiter case WLock => 3 case Sleep => 4 case Relock => 3 case Test => 2 case Clear => 1 case _ => 0;
    var signalling := match s.signaller case SLock => 4 case Set => 3 case Notify => 2 case SUnlock => 1 case SOut => 0;
    waiting + signalling
  }

  /** The two threads' own steps and spurious wake-ups; no new call. */
  predicate Internal(e: Event) { e == WaiterMove || e == SignallerMove || e == SpuriousWake }

  /** The waiter is inside wait_with_pack and has not taken the flag. */
  predicate Inside(s: State) { s.waiter != WOut && s.waiter != WUnlock }

  lemma {:induction false} StepGetsCloser(s: State, e: Event)
    requires Inv(s) && s.flag && Inside(s) && Internal(e) && Enabled(s, e)
    ensures StepsToTake(Step(s, e)) < StepsToTake(s)
  {
  }

  lemma {:induction false} SomeoneCanMove(s: State)
    requires Inv(s) && s.flag && Inside(s)
    ensures Enabled(s, WaiterMove) || Enabled(s, SignallerMove)
  {
  }

  /** With the flag up and the waiter inside its call, neither spurious wake-ups nor any schedule can
      hold the waiter back for more than eight steps, and until it has taken the flag some thread can
      always move. */
  lemma {:induction false} RaisedFlagIsTaken(states: seq<State>, events: seq<Event>)
    requires Run(states, events) && Inv(states[0])
    requires forall i :: 0 <= i < |events| ==> Internal(events[i]) && states[i].flag && Inside(states[i])
    ensures |events| + StepsToTake(states[|events|]) <= StepsToTake(states[0]) <= 8
    ensures var s := states[|events|];
            s.flag && Inside(s) ==> Enabled(s, WaiterMove) || Enabled(s, SignallerMove)
    decreases |events|
  {
    if |events| == 0 {
      if states[0].flag && Inside(states[0]) { SomeoneCanMove(states[0]); }
    } else {
      StepGetsCloser(states[0], events[0]);
      StepKeepsInv(states[0], events[0]);
      RaisedFlagIsTaken(states[1..], events[1..]);
    }
  }

  // ---- A condition pack in place ----

  /** A ThreadConditionPack with the two calls under way on it. */
  class Pack {
    var condToVerify: bool
    var owner: Owner
    var waiter: WaiterPc
    var signaller: SignallerPc

    function View(): State
      reads this
    {
      State(condToVerify, owner, waiter, signaller)
    }

    constructor (initially: bool)
      ensures Init(View()) && condToVerify == initially
    {
      condToVerify, owner, waiter, signaller := initially, Free, WOut, SOut;
    }

    /** The next step of wait_with_pack. */
    method MoveWaiter()
      requires Enabled(View(), WaiterMove)
      modifies this
      ensures View() == Step(old(View()), WaiterMove)
    {
      match waiter {
        case WLock => owner := ByWaiter; waiter := Test;
        case Test =>
          if !condToVerify {
            owner := Free;
            waiter := Sleep;
          } else {
            waiter := Clear;
          }
        case Relock => owner := ByWaiter; waiter := Test;
        case Clear => condToVerify := false; waiter := WUnlock;
        case WUnlock => owner := Free; waiter := WOut;
      }
    }

    /** The next step of signal_with_pack. */
    method MoveSignaller()
      requires Enabled(View(), SignallerMove)
      modifies this
      ensures View() == Step(old(View()), SignallerMove)
    {
      match signaller {
        case SLock => owner := BySignaller; signaller := Set;
        case Set => condToVerify := true; signaller := Notify;
        case Notify =>
          if waiter == Sleep { waiter := Relock; }
          signaller := SUnlock;
        case SUnlock => owner := Free; signaller := SOut;
      }
    }

    method Handle(e: Event) returns (happened: bool)
      modifies this
      ensures happened == old(Enabled(View(), e))
      ensures View() == if happened then Step(old(View()), e) else old(View())
    {
      happened := Enabled(View(), e);
      if happened {
        match e {
          case CallWait => waiter := WLock;
          case CallSignal => signaller := SLock;
          case WaiterMove => MoveWaiter();
          case SignallerMove => MoveSignaller();
          case SpuriousWake => waiter := Relock;
        }
      }
    }

    /** Any schedule of calls, steps and spurious wake-ups performs a run of the atomic semaphore and
        loses no wake-up. */
    method Execute(schedule: seq<Event>) returns (ghost states: seq<State>, ghost events: seq<Event>)
      requires Init(View())
      modifies this
      ensures Run(states, events) && states[0] == old(View()) && states[|events|] == View()
      ensures Performs(Abstract(old(View())), Effects(states, events), Abstract(View()))
      ensures condToVerify && waiter == Sleep ==> signaller == Notify && owner == BySignaller
    {
      states, events := [View()], [];
      for i := 0 to |schedule|
        invariant Run(states, events) && states[0] == old(View()) && states[|events|] == View()
      {
        var happened := Handle(schedule[i]);
        if happened {
          RunGrows(states, events, schedule[i]);
          states, events := states + [View()], events + [schedule[i]];
        }
      }
      RunRefines(states, events);
      NoLostWakeUp(states, events);
    }
  }
}
