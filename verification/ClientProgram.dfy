/** The client's globals and the steps of its threads, in place (client/main.c:114-160 and 341-479,
    client/run_sender.c:19-110, client/data_struct.c:13-76). */
module ClientProgram {
  import opened Handoff
  import opened Client
  import opened ListenerProgram

  class Program {
    const listener: ListenerThread
    var caller: Caller
    var sender: Sender
    var senderToSignal: bool
    var senderFromSignal: bool
    var stockFirst: array?<real>
    var stockFirstLen: nat
    var stockSecond: array?<real>
    var stockSecondLen: nat
    var requests: seq<Vec>

    /** The lengths are those of what is stored. */
    predicate Valid()
      reads this, listener
    {
      && listener.Valid()
      && stockFirstLen == (if stockFirst == null then 0 else stockFirst.Length)
      && stockSecondLen == (if stockSecond == null then 0 else stockSecond.Length)
    }

    function View(): State
      reads this, stockFirst, stockSecond, listener, listener.batch, listener.stock
    {
      State(caller, sender, listener.View(), senderToSignal, senderFromSignal,
            Floats(stockFirst), Floats(stockSecond), requests)
    }

    /** initialize_globals, with fill_sender_stock's six and seven zeros. */
    constructor ()
      ensures Valid() && fresh(listener) && Init(View()) && |listener.port| == 0
    {
      listener := new ListenerThread();
      caller := Caller(Idle, 0, [], [], []);
      sender := Sender(AwaitCalculator, 0, [], [], [], []);
      senderToSignal, senderFromSignal := true, false;
      stockFirst := new real[6](i => 0.0);
      stockSecond := new real[7](i => 0.0);
      stockFirstLen, stockSecondLen := 6, 7;
      requests := [seq(6, i => 0.0) + seq(7, i => 0.0)];
    }

    // ---- get_u (client/main.c:450-479) ----

    method CallGetU(payload: Vec)
      requires Valid()
      requires caller.pc == Idle && |payload| == PAYLOAD_LEN
      modifies this`caller, this`requests
      ensures Valid() && View() == Call(old(View()), payload)
    {
      caller := caller.(pc := AwaitSender, payload := payload);
      requests := requests + [payload];
    }

    method WaitSender()
      requires Valid()
      requires caller.pc == AwaitSender && senderFromSignal && |caller.payload| == PAYLOAD_LEN
      modifies this`caller, this`senderFromSignal
      ensures Valid() && View() == CallerStep(old(View()))
    {
      senderFromSignal := false;
      caller := caller.(pc := PutFirst);
    }

    method FillStock()
      requires Valid()
      requires (caller.pc == PutFirst || caller.pc == PutSecond) && |caller.payload| == PAYLOAD_LEN
      modifies this`caller, this`stockFirst, this`stockFirstLen, this`stockSecond, this`stockSecondLen
      ensures Valid() && View() == CallerStep(old(View()))
    {
      if caller.pc == PutFirst {
        stockFirst := NewFloats(caller.payload[..6]);
        stockFirstLen := 6;
        caller := caller.(pc := PutSecond);
      } else {
        stockSecond := NewFloats(caller.payload[6..]);
        stockSecondLen := 7;
        caller := caller.(pc := SignalSender);
      }
    }

    method TellSender()
      requires Valid()
      requires caller.pc == SignalSender && |caller.payload| == PAYLOAD_LEN
      modifies this`caller, this`senderToSignal
      ensures Valid() && View() == CallerStep(old(View()))
    {
      senderToSignal := true;
      caller := caller.(pc := AwaitListener);
    }

    method ReadListenerBatch()
      requires Valid()
      requires caller.pc == AwaitListener || caller.pc == GetBatch || caller.pc == Client.CleanStock
      requires caller.pc == AwaitListener ==> listener.listenerSignal
      requires |caller.payload| == PAYLOAD_LEN
      modifies this`caller, listener`listenerSignal, listener`stock, listener`stockLen
      ensures Valid() && View() == CallerStep(old(View()))
    {
      if caller.pc == AwaitListener {
        listener.WaitListener();
        caller := caller.(pc := GetBatch);
      } else if caller.pc == GetBatch {
        var batch := listener.GetStock();
        caller := caller.(pc := Client.CleanStock, u := Reply(batch[..]));
      } else {
        listener.CleanStock();
        caller := caller.(pc := SignalListener);
      }
    }

    method ReturnU()
      requires Valid()
      requires caller.pc == SignalListener && |caller.payload| == PAYLOAD_LEN
      modifies this`caller, listener`calcToListenerSignal
      ensures Valid() && View() == CallerStep(old(View()))
    {
      listener.SignalListener();
      caller := caller.(pc := Idle, rounds := caller.rounds + 1, replies := caller.replies + [caller.u]);
    }

    method MoveCaller()
      requires Valid()
      requires Enabled(View(), CallerThread) && |caller.payload| == PAYLOAD_LEN
      modifies this, listener
      ensures Valid() && View() == CallerStep(old(View()))
    {
      match caller.pc {
        case AwaitSender => WaitSender();
        case PutFirst => FillStock();
        case PutSecond => FillStock();
        case SignalSender => TellSender();
        case AwaitListener => ReadListenerBatch();
        case GetBatch => ReadListenerBatch();
        case CleanStock => ReadListenerBatch();
        case SignalListener => ReturnU();
      }
    }

    // ---- run_sender (client/run_sender.c:25-48) ----

    method WaitForCalculator()
      requires Valid()
      requires sender.pc == AwaitCalculator && senderToSignal
      modifies this`sender, this`senderToSignal
      ensures Valid() && View() == SenderStep(old(View()))
    {
      senderToSignal := false;
      sender := sender.(pc := FetchFirst);
    }

    method FetchBatches()
      requires Valid()
      requires sender.pc == FetchFirst || sender.pc == FetchSecond
      modifies this`sender
      ensures Valid() && View() == SenderStep(old(View()))
    {
      if sender.pc == FetchFirst {
        var first := CopyArrOfFloats(stockFirst, stockFirstLen);
        sender := sender.(pc := FetchSecond, first := first[..]);
      } else {
        var second := CopyArrOfFloats(stockSecond, stockSecondLen);
        sender := sender.(pc := SignalCalculator, second := second[..]);
      }
    }

    method TellCalculator()
      requires Valid()
      requires sender.pc == SignalCalculator
      modifies this`sender, this`senderFromSignal
      ensures Valid() && View() == SenderStep(old(View()))
    {
      senderFromSignal := true;
      sender := sender.(pc := SendFirst);
    }

    method SendCalcs()
      requires Valid()
      requires sender.pc == SendFirst || sender.pc == SendSecond
      modifies this`sender
      ensures Valid() && View() == SenderStep(old(View()))
    {
      if sender.pc == SendFirst {
        sender := sender.(pc := SendSecond, outOne := sender.outOne + [sender.first]);
      } else {
        sender := sender.(pc := AwaitCalculator, rounds := sender.rounds + 1,
                          outTwo := sender.outTwo + [sender.second]);
      }
    }

    method MoveSender()
      requires Valid()
      requires Enabled(View(), SenderThread)
      modifies this
      ensures Valid() && View() == SenderStep(old(View()))
    {
      match sender.pc {
        case AwaitCalculator => WaitForCalculator();
        case FetchFirst => FetchBatches();
        case FetchSecond => FetchBatches();
        case SignalCalculator => TellCalculator();
        case SendFirst => SendCalcs();
        case SendSecond => SendCalcs();
      }
    }

    method Move(t: Thread)
      requires Valid()
      requires Enabled(View(), t) && (caller.pc != Idle ==> |caller.payload| == PAYLOAD_LEN)
      modifies this, listener
      ensures Valid() && View() == Step(old(View()), t)
    {
      match t {
        case CallerThread => MoveCaller();
        case SenderThread => MoveSender();
        case ListenerThread => listener.Move();
      }
    }
  }
}
