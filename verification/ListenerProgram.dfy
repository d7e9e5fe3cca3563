/** The listener thread and the stock slot it shares, one step at a time, in place
    (server/run_listener.c:17-117, client/run_listener.c:17-50, server/data_struct.c:24-78 and 129-134). */
module ListenerProgram {
  import opened Handoff

  /** What a `float *` points to. */
  function Floats(p: array?<real>): Vec
    reads p
  {
    if p == null then [] else p[..]
  }

  method CopyArrOfFloats(arr: array?<real>, size: nat) returns (copy: array<real>)
    requires size <= |Floats(arr)|
    ensures fresh(copy) && copy[..] == Floats(arr)[..size]
  {
    copy := new real[size];
    for i := 0 to size
      invariant forall k :: 0 <= k < i ==> copy[k] == Floats(arr)[k]
    {
      copy[i] := arr[i];
    }
  }

  /** A batch in an array of its own. */
  method NewFloats(batch: Vec) returns (p: array<real>)
    ensures fresh(p) && p[..] == batch
  {
    p := new real[|batch|](i requires 0 <= i < |batch| => batch[i]);
  }

  /** A slot with its two condition packs, its port and its listener. The slot is a pointer and a length
      kept beside it; what it points to is never written after it has been stored. */
  class ListenerThread {
    var pc: ListenerPc
    var rounds: nat
    var batch: array<real>
    var listenerSignal: bool
    var calcToListenerSignal: bool
    var stock: array?<real>
    var stockLen: nat
    var port: seq<Vec>

    /** The length is the stored batch's own. */
    predicate Valid()
      reads this
    {
      stockLen == if stock == null then 0 else stock.Length
    }

    function View(): Station
      reads this, batch, stock
    {
      var slot := if stock == null then Null else Batch(stock[..]);
      Station(Listener(pc, rounds, batch[..]), Mailbox(listenerSignal, calcToListenerSignal, slot), port)
    }

    constructor ()
      ensures Valid() && FreshListener(View().listener) && IdleBox(View().box) && port == []
    {
      pc, rounds := Receive, 0;
      batch := new real[0];
      listenerSignal, calcToListenerSignal := false, true;
      stock, stockLen := null, 0;
      port := [];
    }

    method Arrive(datagram: Vec)
      modifies this`port
      ensures View() == old(View()).Arrive(datagram)
    {
      port := port + [datagram];
    }

    method ReceivePacket()
      requires pc == Receive && ListenerEnabled(View())
      modifies this`pc, this`batch
      ensures View() == ListenerStep(old(View()))
    {
      batch := NewFloats(port[rounds]);
      pc := AwaitEmpty;
    }

    method WaitUntilCalcReads()
      requires pc == AwaitEmpty && ListenerEnabled(View())
      modifies this`pc, this`calcToListenerSignal
      ensures View() == ListenerStep(old(View()))
    {
      calcToListenerSignal := false;
      pc := Store;
    }

    method StoreBatch()
      requires pc == Store
      modifies this`pc, this`stock, this`stockLen
      ensures Valid() && View() == ListenerStep(old(View()))
    {
      stock := CopyArrOfFloats(batch, batch.Length);
      assert stock[..] == batch[..];
      stockLen := batch.Length;
      pc := SignalFull;
    }

    method SignalListenerReady()
      requires pc == SignalFull
      modifies this`pc, this`rounds, this`listenerSignal
      ensures View() == ListenerStep(old(View()))
    {
      listenerSignal := true;
      rounds := rounds + 1;
      pc := Receive;
    }

    /** run_listener's next step. */
    method Move()
      requires Valid() && ListenerEnabled(View())
      modifies this
      ensures Valid() && View() == ListenerStep(old(View()))
    {
      match pc {
        case Receive => ReceivePacket();
        case AwaitEmpty => WaitUntilCalcReads();
        case Store => StoreBatch();
        case SignalFull => SignalListenerReady();
      }
    }

    // ---- What the reading thread does to the slot ----

    method WaitListener()
      requires listenerSignal
      modifies this`listenerSignal
      ensures View() == ReaderStep(old(View()), Take)
    {
      listenerSignal := false;
    }

    method GetStock() returns (copy: array<real>)
      requires Valid()
      ensures fresh(copy) && copy[..] == Copy(View().box.slot)
    {
      copy := CopyArrOfFloats(stock, stockLen);
      assert copy[..] == Floats(stock);
    }

    method CleanStock()
      modifies this`stock, this`stockLen
      ensures Valid() && View() == ReaderStep(old(View()), Clean)
    {
      stock, stockLen := null, 0;
    }

    method SignalListener()
      modifies this`calcToListenerSignal
      ensures View() == ReaderStep(old(View()), Give)
    {
      calcToListenerSignal := true;
    }
  }
}
