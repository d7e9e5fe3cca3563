/** The server's globals and the loop bodies of its threads, one step of one thread at a time
    (server/main.c:80-141 and 261-344, server/run_sender.c:14-81, server/data_struct.c:18-120).
    `Execute` interleaves them by any schedule; every execution is a run in the sense of `ServerRuns`,
    so what is proved of runs holds of the program. */
module ServerProgram {
  import opened Handoff
  import opened Server
  import opened ListenerProgram
  import R = ServerRuns

  class Program {
    const law: Law
    const one: ListenerThread
    const two: ListenerThread
    var calculator: Calculator
    var sender: Sender
    var calcToSenderSignal: bool
    var senderSignal: bool
    var calculations: array?<real>
    var calculationsLen: nat

    predicate Valid()
      reads this, one, two
    {
      one != two && one.Valid() && two.Valid()
    }

    function View(): State
      reads this, one, one.batch, one.stock, two, two.batch, two.stock, calculations
    {
      State(one.View(), two.View(), calculator, sender, calcToSenderSignal, senderSignal,
            Floats(calculations), calculationsLen)
    }

    constructor (law: Law)
      ensures Valid() && this.law == law && fresh(one) && fresh(two)
      ensures Init(View()) && |one.port| == |two.port| == 0
    {
      this.law := law;
      one := new ListenerThread();
      two := new ListenerThread();
      calculator := Calculator(AwaitOne, 0, [], [], []);
      sender := Sender(AwaitCalculator, 0, 0, [], 0, [], []);
      calcToSenderSignal, senderSignal := false, true;
      calculations, calculationsLen := null, 0;
    }

    // ---- The calculator's round (server/main.c:89-104) ----

    method WaitListenersWrite()
      requires Valid() && Enabled(View(), CalculatorThread)
      requires calculator.pc == AwaitOne || calculator.pc == AwaitTwo
      modifies this`calculator, one`listenerSignal, two`listenerSignal
      ensures Valid() && View() == CalculatorStep(law, old(View()))
    {
      if calculator.pc == AwaitOne {
        one.WaitListener();
        calculator := calculator.(pc := AwaitTwo);
      } else {
        two.WaitListener();
        calculator := calculator.(pc := GetFirst);
      }
    }

    method ReadBatches()
      requires Valid() && (calculator.pc == GetFirst || calculator.pc == GetSecond)
      modifies this`calculator
      ensures Valid() && View() == CalculatorStep(law, old(View()))
    {
      if calculator.pc == GetFirst {
        var first := one.GetStock();
        calculator := calculator.(pc := GetSecond, first := first[..]);
      } else {
        var second := two.GetStock();
        calculator := calculator.(pc := Server.CleanStock, second := second[..]);
      }
    }

    method CleanBatchStock()
      requires Valid() && calculator.pc == Server.CleanStock
      modifies this`calculator, one`stock, one`stockLen, two`stock, two`stockLen
      ensures Valid() && View() == CalculatorStep(law, old(View()))
    {
      one.CleanStock();
      two.CleanStock();
      calculator := calculator.(pc := SignalOne);
    }

    method SignalRead()
      requires Valid() && (calculator.pc == SignalOne || calculator.pc == SignalTwo)
      modifies this`calculator, one`calcToListenerSignal, two`calcToListenerSignal
      ensures Valid() && View() == CalculatorStep(law, old(View()))
    {
      if calculator.pc == SignalOne {
        one.SignalListener();
        calculator := calculator.(pc := SignalTwo);
      } else {
        two.SignalListener();
        calculator := calculator.(pc := StoreResult);
      }
    }

    method ServerCalculations() returns (results: array<real>)
      ensures fresh(results) && Floats(results) == Calculation(law, calculator)
    {
      var u := law(calculator.first + calculator.second);
      results := new real[][u.u1, u.u2, u.u3, u.u4];
    }

    method CalculateRes()
      requires Valid() && (calculator.pc == StoreResult || calculator.pc == StoreLength)
      modifies this`calculator, this`calculations, this`calculationsLen
      ensures Valid() && View() == CalculatorStep(law, old(View()))
    {
      if calculator.pc == StoreResult {
        calculations := ServerCalculations();
        calculator := calculator.(pc := StoreLength, made := calculator.made + [Floats(calculations)]);
      } else {
        calculationsLen := 4;
        calculator := calculator.(pc := AwaitSender);
      }
    }

    method WaitForSender()
      requires Valid() && calculator.pc == AwaitSender && senderSignal
      modifies this`calculator, this`senderSignal
      ensures Valid() && View() == CalculatorStep(law, old(View()))
    {
      senderSignal := false;
      calculator := calculator.(pc := SignalSender);
    }

    method SignalCalculated()
      requires Valid() && calculator.pc == SignalSender
      modifies this`calculator, this`calcToSenderSignal
      ensures Valid() && View() == CalculatorStep(law, old(View()))
    {
      ghost var s := View();
      calcToSenderSignal := true;
      calculator := calculator.(pc := AwaitOne, rounds := calculator.rounds + 1);
      assert one.View() == s.one && two.View() == s.two;
    }

    method MoveCalculator()
      requires Valid() && Enabled(View(), CalculatorThread)
      modifies this, one, two
      ensures Valid() && View() == CalculatorStep(law, old(View()))
    {
      match calculator.pc {
        case AwaitOne => WaitListenersWrite();
        case AwaitTwo => WaitListenersWrite();
        case GetFirst => ReadBatches();
        case GetSecond => ReadBatches();
        case CleanStock => CleanBatchStock();
        case SignalOne => SignalRead();
        case SignalTwo => SignalRead();
        case StoreResult => CalculateRes();
        case StoreLength => CalculateRes();
        case AwaitSender => WaitForSender();
        case SignalSender => SignalCalculated();
      }
    }

    // ---- The sender's round (server/run_sender.c:16-26) ----

    method WaitForCalculator()
      requires Valid() && sender.pc == AwaitCalculator && calcToSenderSignal
      modifies this`sender, this`calcToSenderSignal
      ensures Valid() && View() == SenderStep(old(View()))
    {
      calcToSenderSignal := false;
      sender := sender.(pc := FetchLength);
    }

    method SendCalcs()
      requires Valid() && (sender.pc == FetchLength || sender.pc == FetchResult || sender.pc == Send)
      modifies this`sender
      ensures Valid() && View() == SenderStep(old(View()))
    {
      if sender.pc == FetchLength {
        sender := sender.(pc := FetchResult, len := calculationsLen);
      } else if sender.pc == FetchResult {
        var newest := if |calculator.made| > 0 then |calculator.made| - 1 else 0;
        sender := sender.(pc := Send, calcs := Floats(calculations), pick := newest);
      } else {
        sender := sender.(pc := SignalReady, sent := sender.sent + [sender.Datagram()],
                          picks := sender.picks + [sender.pick]);
      }
    }

    method SignalSenderReady()
      requires Valid() && sender.pc == SignalReady
      modifies this`sender, this`senderSignal
      ensures Valid() && View() == SenderStep(old(View()))
    {
      senderSignal := true;
      sender := sender.(pc := AwaitCalculator, rounds := sender.rounds + 1);
    }

    method MoveSender()
      requires Valid() && Enabled(View(), SenderThread)
      modifies this
      ensures Valid() && View() == SenderStep(old(View()))
    {
      match sender.pc {
        case AwaitCalculator => WaitForCalculator();
        case FetchLength => SendCalcs();
        case FetchResult => SendCalcs();
        case Send => SendCalcs();
        case SignalReady => SignalSenderReady();
      }
    }

    // ---- All four threads ----

    method Move(t: Thread)
      requires Valid() && Enabled(View(), t)
      modifies this, one, two
      ensures Valid() && View() == Step(law, old(View()), t)
    {
      match t {
        case ListenerOne => one.Move();
        case ListenerTwo => two.Move();
        case CalculatorThread => MoveCalculator();
        case SenderThread => MoveSender();
      }
    }

    /** One event: a datagram arrives, or a thread takes its step if it is not blocked. */
    method Handle(e: R.Event) returns (happened: bool)
      requires Valid()
      modifies this, one, two
      ensures Valid() && (happened <==> (e.Move? ==> old(Enabled(View(), e.thread))))
      ensures if happened then R.Happens(law, old(View()), e, View()) else View() == old(View())
    {
      match e {
        case Move(t) =>
          happened := Enabled(View(), t);
          if happened { Move(t); }
        case One(v) => one.Arrive(v); happened := true;
        case Two(v) => two.Arrive(v); happened := true;
      }
    }

    /** Interleave the threads and the arrivals as `schedule` says, passing over threads that are
        blocked. What was executed is a run, so every datagram sent carries the law at the pair of
        batches of its own number or the next, and no slot is touched by two threads at once. */
    method Execute(schedule: seq<R.Event>) returns (ghost states: seq<State>, ghost events: seq<R.Event>)
      requires Valid() && Init(View())
      modifies this, one, two
      ensures R.Run(law, states, events) && states[|events|] == View()
      ensures R.Exclusive(View())
      ensures forall k :: 0 <= k < |sender.sent| ==>
                || (k < |one.port| && k < |two.port| && sender.sent[k] == law(one.port[k] + two.port[k]).Floats())
                || (k + 1 < |one.port| && k + 1 < |two.port|
                    && sender.sent[k] == law(one.port[k + 1] + two.port[k + 1]).Floats())
    {
      states, events := [View()], [];
      for i := 0 to |schedule|
        invariant Valid() && R.Run(law, states, events) && states[|events|] == View()
      {
        var happened := Handle(schedule[i]);
        if happened {
          R.RunGrows(law, states, events, schedule[i], View());
          states, events := states + [View()], events + [schedule[i]];
        }
      }
      R.Exclusion(law, states, events);
      R.SentWindow(law, states, events);
      assert states[|events|].sender == sender;
    }
  }
}
