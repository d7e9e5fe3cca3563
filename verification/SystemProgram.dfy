/** Client and server programs side by side, their seven threads and three ports driven by any
    schedule; what is executed is a run in the sense of `System`. */
module SystemProgram {
  import opened Handoff
  import opened System
  import C = Client
  import S = Server
  import CP = ClientProgram
  import SP = ServerProgram

  class Programs {
    const client: CP.Program
    const server: SP.Program

    predicate Valid()
      reads this, client, client.listener, server, server.one, server.two
    {
      client.Valid() && server.Valid() && client.listener != server.one && client.listener != server.two
    }

    function View(): State
      reads this, client, client.stockFirst, client.stockSecond
      reads client.listener, client.listener.batch, client.listener.stock, server, server.calculations
      reads server.one, server.one.batch, server.one.stock, server.two, server.two.batch, server.two.stock
    {
      State(client.View(), server.View())
    }

    constructor (law: Law)
      ensures Valid() && server.law == law && Init(View())
      ensures fresh(client) && fresh(client.listener) && fresh(server) && fresh(server.one) && fresh(server.two)
    {
      client := new CP.Program();
      server := new SP.Program(law);
    }

    /** What the client's sender sends reaches the server's ports. */
    method Deliver(w: C.Sender)
      requires Valid()
      modifies server.one, server.two
      ensures Valid() && client.View() == old(client.View())
      ensures server.View() == Delivered(old(server.View()), w)
    {
      if w.pc == C.SendFirst {
        server.one.Arrive(w.first);
      } else if w.pc == C.SendSecond {
        server.two.Arrive(w.second);
      }
    }

    method MoveClient(t: C.Thread)
      requires Valid() && Enabled(View(), ClientMove(t))
      modifies client, client.listener, server.one, server.two
      ensures Valid() && View() == Step(server.law, old(View()), ClientMove(t))
    {
      var w := client.sender;
      client.Move(t);
      if t == C.SenderThread {
        Deliver(w);
      }
    }

    /** And what the server's sender sends, the client's port. */
    method Answer(w: S.Sender)
      requires Valid()
      modifies client.listener
      ensures Valid() && server.View() == old(server.View())
      ensures client.View() == Answered(old(client.View()), w)
    {
      if w.pc == S.Send {
        client.listener.Arrive(w.Datagram());
      }
    }

    method MoveServer(t: S.Thread)
      requires Valid() && Enabled(View(), ServerMove(t))
      modifies client.listener, server, server.one, server.two
      ensures Valid() && View() == Step(server.law, old(View()), ServerMove(t))
    {
      var w := server.sender;
      server.Move(t);
      if t == S.SenderThread {
        Answer(w);
      }
    }

    method Handle(e: Event) returns (happened: bool)
      requires Valid()
      modifies client, client.listener, server, server.one, server.two
      ensures Valid() && happened == old(Enabled(View(), e))
      ensures View() == if happened then Step(server.law, old(View()), e) else old(View())
    {
      happened := Enabled(View(), e);
      if happened {
        match e {
          case Call(p) => client.CallGetU(p);
          case ClientMove(t) => MoveClient(t);
          case ServerMove(t) => MoveServer(t);
        }
      }
    }

    /** Run both programs by any schedule. Afterwards every reply `get_u` has returned is the law at the
        payload of its own call or of the one before, and no port holds more than two datagrams. */
    method Execute(schedule: seq<Event>) returns (ghost states: seq<State>, ghost events: seq<Event>)
      requires Valid() && Init(View())
      modifies client, client.listener, server, server.one, server.two
      ensures Run(server.law, states, events) && states[|events|] == View()
      ensures RepliesInWindow(server.law, client.requests, client.caller.replies, server.sender.picks)
      ensures TwoOutstanding(View())
    {
      states, events := [View()], [];
      for i := 0 to |schedule|
        invariant Valid() && Run(server.law, states, events) && states[|events|] == View()
      {
        var happened := Handle(schedule[i]);
        if happened {
          RunGrows(server.law, states, events, schedule[i]);
          states, events := states + [View()], events + [schedule[i]];
        }
      }
      RepliesAreFresh(server.law, states, events);
      AtMostTwoOutstanding(server.law, states, events);
    }
  }
}
