/** The class TcpClient over the class Connector. */
module TcpClients {
  import opened Channels
  import C = ConnectorModel
  import CT = ConnectorTheorems
  import opened ClientModel
  import opened ClientTheorems
  import opened Connectors

  class TcpClient {
    const connector: Connector
    var retry: bool
    var connect_: bool
    var connection: C.Option<nat>
    var conns: seq<Conn>
    var bornIn: nat
    var iteration: nat

    ghost function Abs(): State
      reads this, connector
    {
      State(connector.Abs(), retry, connect_, connection, conns, bornIn, iteration, false)
    }

    /** At most one connection is up, it is the owned one, and the connector agrees. */
    ghost predicate Valid()
      reads this, connector
    {
      Inv(Abs())
    }

    constructor ()
      ensures Abs() == Init() && Valid() && fresh(connector)
    {
      connector := new Connector();
      retry, connect_, connection, conns, bornIn, iteration := false, true, C.None, [], 0, 0;
    }

    method Connect(r: C.ConnectResult)
      requires Valid() && C.SafeToStart(connector.Abs(), r)
      modifies this`connect_, connector
      ensures Abs() == Step(old(Abs()), Event.Connect(r)) && Valid()
      ensures connection.None?
    {
      StepInv(Abs(), Event.Connect(r));
      connect_ := true;
      connector.Start(r);
    }

    method Disconnect()
      requires Valid()
      modifies this`connect_
      ensures Abs() == Step(old(Abs()), Event.Disconnect) && Valid()
    {
      StepInv(Abs(), Event.Disconnect);
      connect_ := false;
    }

    method Stop(late: bool)
      requires Valid()
      modifies this`connect_, connector
      ensures Abs() == Step(old(Abs()), Event.Stop(late)) && Valid()
      ensures connector.timers == {}
    {
      StepInv(Abs(), Event.Stop(late));
      connect_ := false;
      connector.Stop(late);
    }

    /** The poller reports the connector's channel; the connector may hand over its socket. */
    method HandleConnector(flags: set<Flag>, err: bool, selfConnect: bool)
      requires Valid() && connector.registered
      modifies this`connection, this`conns, this`bornIn, connector
      ensures Abs() == Step(old(Abs()), Event.Ready(flags, err, selfConnect)) && Valid()
      ensures old(connection).None? && ReportMade(old(Abs()), flags, err, selfConnect, Abs())
    {
      InvReport(Abs(), flags, err, selfConnect);
      StepInv(Abs(), Event.Ready(flags, err, selfConnect));
      assert connection.None?;
      var k := connector.channel_.value;
      connector.HandleEvent(flags, err, selfConnect);
      if connector.sockets[k].Given? {
        NewConnection();
      }
    }

    /** newConnection. */
    method NewConnection()
      modifies this`connection, this`conns, this`bornIn
      ensures Abs() == ClientModel.NewConnection(old(Abs()))
    {
      connection := C.Some(|conns|);
      conns := conns + [Up];
      bornIn := iteration;
    }

    /** removeConnection, called by the owned connection when it closes. */
    method RemoveConnection(r: C.ConnectResult)
      requires Valid() && Reportable(Abs()).Some?
      modifies this`connection, this`conns, connector
      ensures Abs() == Step(old(Abs()), ConnCloses(r)) && Valid()
      ensures connection.None? && forall k | 0 <= k < |conns| :: !conns[k].Up?
      ensures connector.registered <==> retry && connect_ && r.InProgress?
    {
      CloseKeeps(Abs(), r);
      var k := |conns| - 1;
      assert connection == C.Some(k);
      connection := C.None;
      conns := conns[k := Closing];
      if retry && connect_ {
        connector.Restart(r);
      }
    }
  }
}
