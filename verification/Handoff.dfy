/** The pieces both programs share: float vectors, the one-slot stock guarded by two condition
    packs, and the listener thread that fills it (server/run_listener.c, client/run_listener.c). */
module Handoff {
  type Vec = seq<real>

  /** What a stock points to: NULL, or a batch of floats. */
  datatype Slot = Null | Batch(floats: Vec)

  /** The four numbers of a command, and the buffer they are stored and sent as. */
  datatype Command = Command(u1: real, u2: real, u3: real, u4: real) {
    function Floats(): Vec { [u1, u2, u3, u4] }
  }

  /** What the server computes from the numbers it received. */
  type Law = Vec -> Command

  function Bit(b: bool): nat { if b then 1 else 0 }

  /** Copying a NULL batch of length zero yields an empty buffer. */
  function Copy(slot: Slot): Vec { if slot == Null then [] else slot.floats }

  /** One stock slot with its pair of condition packs: `full` is raised by the listener, `empty` by
      the thread that reads the slot. */
  datatype Mailbox = Mailbox(full: bool, empty: bool, slot: Slot)

  /** Initial flags: the slot is empty and the listener may fill it. */
  predicate IdleBox(box: Mailbox) { !box.full && box.empty && box.slot == Null }

  /** Program points of a listener's loop, each naming the step it is about to take. */
  datatype ListenerPc = Receive | AwaitEmpty | Store | SignalFull

  /** `rounds` counts finished rounds of its loop, `batch` is the packet unpacked in this one. */
  datatype Listener = Listener(pc: ListenerPc, rounds: nat, batch: Vec) {
    function At(): nat {
      match pc case Receive => 0 case AwaitEmpty => 1 case Store => 2 case SignalFull => 3
    }

    function Received(): nat { rounds + Bit(At() > 0) }

    function Taken(): nat { rounds + Bit(At() > 1) }

    function Stored(): nat { rounds + Bit(At() > 2) }

    function Steps(): nat { 4 * rounds + At() }
  }

  predicate FreshListener(l: Listener) { l.pc == Receive && l.rounds == 0 }

  /** A listener with its slot and its UDP port. The port is the log of every datagram delivered to
      it, in order; the listener's round counter is the read cursor, so the FIFO queue of waiting
      datagrams is the rest of the log. */
  datatype Station = Station(listener: Listener, box: Mailbox, port: seq<Vec>) {
    function Queue(): seq<Vec>
      requires listener.Received() <= |port|
    {
      port[listener.Received()..]
    }

    function Arrive(v: Vec): Station { this.(port := port + [v]) }
  }

  predicate ListenerEnabled(st: Station) {
    match st.listener.pc
    case Receive => st.listener.rounds < |st.port|
    case AwaitEmpty => st.box.empty
    case Store => true
    case SignalFull => true
  }

  function ListenerStep(st: Station): Station
    requires ListenerEnabled(st)
  {
    var l := st.listener;
    match l.pc
    case Receive => st.(listener := l.(pc := AwaitEmpty, batch := st.port[l.rounds]))
    case AwaitEmpty => st.(listener := l.(pc := Store), box := st.box.(empty := false))
    case Store => st.(listener := l.(pc := SignalFull), box := st.box.(slot := Batch(l.batch)))
    case SignalFull =>
      st.(listener := l.(pc := Receive, rounds := l.rounds + 1), box := st.box.(full := true))
  }

  /** What the reading thread can do to a station: consume `full`, empty the slot, raise `empty`. */
  datatype ReaderEvent = Take | Clean | Give | Nothing

  function ReaderStep(st: Station, e: ReaderEvent): Station {
    match e
    case Take => st.(box := st.box.(full := false))
    case Clean => st.(box := st.box.(slot := Null))
    case Give => st.(box := st.box.(empty := true))
    case Nothing => st
  }

  /** What ties a listener, its slot and its port to the reader's progress: `takes` rounds in which
      the reader has consumed `full`, `cleaned` rounds in which it has emptied the slot, `gives`
      rounds in which it has raised `empty` again. */
  ghost predicate StationInv(st: Station, takes: nat, cleaned: nat, gives: nat) {
    var l := st.listener;
    && gives <= cleaned <= takes <= gives + 1
    && Bit(st.box.full) == l.rounds - takes
    && Bit(st.box.empty) == 1 + gives - l.Taken()
    && l.Received() <= |st.port|
    && (l.At() > 0 ==> l.batch == st.port[l.rounds])
    && st.box.slot == if l.Stored() > cleaned then Batch(st.port[cleaned]) else Null
  }

  /** The slot's single token is in one of the two flags or held by exactly one of the threads. */
  lemma {:induction false} TokenConserved(st: Station, takes: nat, cleaned: nat, gives: nat)
    requires StationInv(st, takes, cleaned, gives)
    ensures Bit(st.box.full) + Bit(st.box.empty) + Bit(st.listener.At() > 1) + (takes - gives) == 1
  {
  }

  lemma {:induction false} ListenerStepKeeps(st: Station, takes: nat, cleaned: nat, gives: nat)
    requires StationInv(st, takes, cleaned, gives) && ListenerEnabled(st)
    ensures StationInv(ListenerStep(st), takes, cleaned, gives)
    ensures ListenerStep(st).listener.Steps() == st.listener.Steps() + 1
    ensures ListenerStep(st).port == st.port
    // nothing unread is overwritten and no raised flag is raised again
    ensures st.listener.pc == Store ==> st.box.slot == Null
    ensures st.listener.pc == SignalFull ==> !st.box.full
  {
  }

  /** The reader's three events in turn; while it may read, the slot holds the datagram of its
      current round, the listener is outside its critical section, and `empty` is not yet raised. */
  lemma {:induction false} ReaderStepKeeps(st: Station, takes: nat, cleaned: nat, gives: nat, e: ReaderEvent)
    requires StationInv(st, takes, cleaned, gives)
    requires e == Take ==> st.box.full
    requires e == Clean ==> cleaned < takes
    requires e == Give ==> gives < cleaned
    ensures StationInv(ReaderStep(st, e), takes + Bit(e == Take), cleaned + Bit(e == Clean), gives + Bit(e == Give))
    ensures e == Take ==> takes == gives
    ensures e == Give ==> !st.box.empty
  {
  }

  lemma {:induction false} ReaderFindsBatch(st: Station, takes: nat, cleaned: nat, gives: nat)
    requires StationInv(st, takes, cleaned, gives) && cleaned < takes
    ensures cleaned < |st.port| && st.box.slot == Batch(st.port[cleaned])
    ensures st.listener.At() <= 1
  {
  }
}
