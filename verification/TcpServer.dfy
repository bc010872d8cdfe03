/** The class TcpServer over its thread pool, with the functor queues of its loops as
    environment. */
module TcpServers {
  import opened ThreadPools
  import opened ConnectionStatus
  import opened ServerModel
  import opened ServerTheorems

  class TcpServer {
    const threadPool: EventLoopThreadPool   // loop 0 is the base loop, 1..n are the I/O loops
    var nextConnId: nat
    var connections: set<nat>
    var conns: map<nat, Conn>
    var queues: seq<seq<Task>>

    ghost function Abs(): State
      reads this, threadPool
    {
      State(|threadPool.loops|, threadPool.next, nextConnId, connections, conns, queues, false)
    }

    ghost predicate PoolOk()
      reads threadPool
    {
      && threadPool.Valid() && threadPool.baseLoop == 0
      && forall i | 0 <= i < |threadPool.loops| :: threadPool.loops[i] == i + 1
    }

    ghost predicate Valid()
      reads this, threadPool
    {
      PoolOk() && Inv(Abs())
    }

    constructor (ioLoops: nat)
      ensures Abs() == Init(ioLoops) && Valid() && fresh(threadPool)
    {
      var pool := new EventLoopThreadPool(0);
      pool.SetThreadNum(ioLoops);
      pool.Start(seq(ioLoops, i => i + 1));
      threadPool := pool;
      nextConnId, connections, conns := 1, {}, map[];
      queues := seq(ioLoops + 1, _ => []);
      new;
      RunInv(ioLoops, []);
    }

    method Post(l: nat, t: Task)
      requires l < |queues|
      modifies this`queues
      ensures Abs() == Enqueue(old(Abs()), l, t)
    {
      queues := queues[l := queues[l] + [t]];
    }

    method NewConnection()
      requires Valid()
      modifies this, threadPool
      ensures Abs() == ServerModel.NewConnection(old(Abs())) && Valid()
    {
      AcceptKeeps(Abs());
      Accept();
    }

    method Accept()
      requires PoolOk() && |queues| == |threadPool.loops| + 1
      modifies this, threadPool
      ensures Abs() == ServerModel.NewConnection(old(Abs())) && PoolOk()
    {
      var c := nextConnId;
      nextConnId := nextConnId + 1;
      var l := threadPool.GetNextLoop();
      conns := conns[c := Conn(l, Connecting, false, [])];
      connections := connections + {c};
      if l == 0 {
        ConnectEstablished(c);
      } else {
        Post(l, Establish(c));
      }
    }

    method RemoveConnectionInLoop(c: nat)
      requires c in connections && c in conns && conns[c].loop < |queues|
      modifies this`connections, this`queues
      ensures Abs() == ServerModel.RemoveConnectionInLoop(old(Abs()), c)
    {
      connections := connections - {c};
      Post(conns[c].loop, Destroy(c));
    }

    /** The close callback of a connection. */
    method RemoveConnection(c: nat)
      requires c in connections && c in conns && conns[c].loop < |queues|
      modifies this`connections, this`queues
      ensures Abs() == ServerModel.RemoveConnection(old(Abs()), c)
    {
      if conns[c].loop == 0 {
        RemoveConnectionInLoop(c);
      } else {
        Post(0, Remove(c));
      }
    }

    method ConnectEstablished(c: nat)
      requires c in conns && conns[c].status.Connecting?
      modifies this`conns
      ensures Abs() == ServerModel.ConnectEstablished(old(Abs()), c)
    {
      var x := conns[c];
      conns := conns[c := x.(status := Connected, attached := true, calls := x.calls + [WentUp])];
    }

    method ConnectDestroyed(c: nat)
      requires c in conns && (conns[c].status.Connected? || conns[c].status.Disconnecting?)
      modifies this`conns
      ensures Abs() == ServerModel.ConnectDestroyed(old(Abs()), c)
    {
      var x := conns[c];
      conns := conns[c := x.(status := Disconnected, attached := false, calls := x.calls + [WentDown])];
    }

    method HandleClose(c: nat)
      requires Valid() && c in conns && conns[c].attached
      modifies this`conns, this`connections, this`queues
      ensures Abs() == ServerModel.HandleClose(old(Abs()), c) && Valid()
    {
      CloseKeeps(Abs(), c);
      assert ConnOk(Abs(), c);
      conns := conns[c := conns[c].(attached := false)];
      RemoveConnection(c);
    }

    /** The next functor of loop `l`. */
    method RunTask(l: nat)
      requires Valid() && l < |queues| && queues[l] != []
      modifies this
      ensures Abs() == Step(old(Abs()), Event.RunTask(l)) && Valid()
    {
      StepInv(Abs(), Event.RunTask(l));
      PopKeeps(Abs(), l);
      var t := queues[l][0];
      queues := queues[l := queues[l][1..]];
      match t
      case Establish(c) => ConnectEstablished(c);
      case Remove(c) => RemoveConnectionInLoop(c);
      case Destroy(c) => ConnectDestroyed(c);
    }
  }
}
