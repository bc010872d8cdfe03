/** The life of a connection between TcpServer.cc and TcpConnection.cc: accepted and erased on
    the base loop, established, closed and destroyed on its I/O loop, with functors carrying it
    from one to the other. */
module ServerModel {
  import opened ConnectionStatus
  import ThreadPools
  import Channels

  datatype Callback = WentUp | WentDown

  datatype Conn = Conn(
    loop: nat,                // 0 is the base loop, 1..n are the I/O loops
    status: Status,
    attached: bool,           // its channel waits for events
    calls: seq<Callback>)     // history: connectionCallback_ invocations

  datatype Task = Establish(conn: nat) | Remove(conn: nat) | Destroy(conn: nat)

  datatype State = State(
    ioLoops: nat,
    next: nat,                    // of the thread pool
    nextConnId: nat,
    connections: set<nat>,        // connections_, by number
    conns: map<nat, Conn>,        // every connection ever made
    queues: seq<seq<Task>>,       // pending functors of each loop
    fault: bool)

  datatype Event =
    | Accept
    | CloseEvent(conn: nat)       // an event whose handling calls handleClose
    | Shutdown(conn: nat)         // on the connection's own loop
    | RunTask(loop: nat)

  function Init(ioLoops: nat): State {
    State(ioLoops, 0, 1, {}, map[], seq(ioLoops + 1, _ => []), false)
  }

  function Fail(s: State): State { s.(fault := true) }

  function Enqueue(s: State, l: nat, t: Task): State {
    if |s.queues| <= l then Fail(s) else s.(queues := s.queues[l := s.queues[l] + [t]])
  }

  function Update(s: State, c: nat, conn: Conn): State {
    s.(conns := s.conns[c := conn])
  }

  function ConnectEstablished(s: State, c: nat): State {
    if c !in s.conns || !s.conns[c].status.Connecting? then Fail(s)
    else
      var x := s.conns[c];
      Update(s, c, x.(status := Connected, attached := true, calls := x.calls + [WentUp]))
  }

  function ConnectDestroyed(s: State, c: nat): State {
    if c !in s.conns || !(s.conns[c].status.Connected? || s.conns[c].status.Disconnecting?) then Fail(s)
    else
      var x := s.conns[c];
      Update(s, c, x.(status := Disconnected, attached := false, calls := x.calls + [WentDown]))
  }

  function RemoveConnectionInLoop(s: State, c: nat): State {
    if c !in s.connections || c !in s.conns then Fail(s)
    else Enqueue(s.(connections := s.connections - {c}), s.conns[c].loop, Destroy(c))
  }

  /** removeConnection is runInLoop on the base loop: at once if this is the base loop's thread. */
  function RemoveConnection(s: State, c: nat): State
    requires c in s.conns
  {
    if s.conns[c].loop == 0 then RemoveConnectionInLoop(s, c) else Enqueue(s, 0, Remove(c))
  }

  function HandleClose(s: State, c: nat): State {
    if c !in s.conns || !(s.conns[c].status.Connected? || s.conns[c].status.Disconnecting?) then Fail(s)
    else RemoveConnection(Update(s, c, s.conns[c].(attached := false)), c)
  }

  function NewConnection(s: State): State {
    var c := s.nextConnId;
    var l := if s.ioLoops == 0 then 0 else 1 + s.next;
    var s1 := s.(nextConnId := c + 1,
                 next := ThreadPools.NextIndex(s.next, s.ioLoops),
                 connections := s.connections + {c},
                 conns := s.conns[c := Conn(l, Connecting, false, [])]);
    if l == 0 then ConnectEstablished(s1, c) else Enqueue(s1, l, Establish(c))
  }

  function RunHead(s: State, l: nat): State {
    if |s.queues| <= l || s.queues[l] == [] then s
    else
      var s1 := s.(queues := s.queues[l := s.queues[l][1..]]);
      match s.queues[l][0]
      case Establish(c) => ConnectEstablished(s1, c)
      case Remove(c) => RemoveConnectionInLoop(s1, c)
      case Destroy(c) => ConnectDestroyed(s1, c)
  }

  function Step(s: State, e: Event): State {
    if s.fault then s
    else
      match e
      case Accept => NewConnection(s)
      case CloseEvent(c) => if c in s.conns && s.conns[c].attached then HandleClose(s, c) else s
      case Shutdown(c) =>
        if c in s.conns && s.conns[c].status.Connected?
        then Update(s, c, s.conns[c].(status := Disconnecting))
        else s
      case RunTask(l) => RunHead(s, l)
  }

  /** One callback of the connection's channel; `eof` says that a read would return zero. */
  function OnCallback(s: State, c: nat, cb: Channels.Callback, eof: bool): State {
    match cb
    case CloseCallback => HandleClose(s, c)
    case ReadCallback => if eof then HandleClose(s, c) else s
    case ErrorCallback => s
    case WriteCallback => s
  }

  /** Channel::handleEvent of connection `c`, as far as closing is concerned. */
  function Report(s: State, c: nat, cbs: seq<Channels.Callback>, eof: bool): State
    decreases |cbs|
  {
    if s.fault || cbs == [] then s else Report(OnCallback(s, c, cbs[0], eof), c, cbs[1..], eof)
  }

  function Run(s: State, es: seq<Event>): State
    decreases |es|
  {
    if es == [] then s else Step(Run(s, es[..|es| - 1]), es[|es| - 1])
  }

  ghost predicate Reachable(s: State) {
    exists n, es :: s == Run(Init(n), es)
  }
}

module ServerTheorems {
  import opened ConnectionStatus
  import ThreadPools
  import Channels
  import opened ServerModel

  // Where a connection is in its life.
  datatype Stage = Fresh | Live | Closed | Erased | Gone

  datatype Post = Nothing | Posted(loop: nat, task: Task)

  function StageOf(s: State, c: nat): Stage
    requires c in s.conns
  {
    var x := s.conns[c];
    if x.status.Connecting? then Fresh
    else if x.status.Disconnected? then Gone
    else if x.attached then Live
    else if c in s.connections then Closed
    else Erased
  }

  /** The functor that carries the connection on, and the loop it waits in. */
  function Expected(s: State, c: nat): Post
    requires c in s.conns
  {
    match StageOf(s, c)
    case Fresh => Posted(s.conns[c].loop, Establish(c))
    case Live => Nothing
    case Closed => Posted(0, Remove(c))
    case Erased => Posted(s.conns[c].loop, Destroy(c))
    case Gone => Nothing
  }

  ghost predicate ConnOk(s: State, c: nat)
    requires c in s.conns
  {
    var x := s.conns[c];
    && x.loop < |s.queues|
    && (match StageOf(s, c)
        case Fresh => c in s.connections && !x.attached && x.calls == [] && x.loop != 0
        case Live => c in s.connections && x.calls == [WentUp]
        case Closed => x.calls == [WentUp] && x.loop != 0
        case Erased => x.calls == [WentUp]
        case Gone => c !in s.connections && !x.attached && x.calls == [WentUp, WentDown])
  }

  /** Every pending functor is the one its connection waits for. */
  ghost predicate TaskOk(s: State, l: nat, t: Task) {
    t.conn in s.conns && Expected(s, t.conn) == Posted(l, t)
  }

  ghost predicate QueueOk(s: State, l: nat)
    requires l < |s.queues|
  {
    && (forall t | t in s.queues[l] :: TaskOk(s, l, t))
    && (forall i, j | 0 <= i < j < |s.queues[l]| :: s.queues[l][i] != s.queues[l][j])
  }

  /** A connection that waits for a functor has it pending. */
  ghost predicate Carried(s: State, c: nat)
    requires c in s.conns
  {
    var p := Expected(s, c);
    p.Posted? ==> p.loop < |s.queues| && p.task in s.queues[p.loop]
  }

  ghost predicate Inv(s: State) {
    && !s.fault
    && |s.queues| == s.ioLoops + 1
    && (s.next == 0 || s.next < s.ioLoops)
    && s.connections <= s.conns.Keys
    && (forall c | c in s.conns :: c < s.nextConnId && ConnOk(s, c) && Carried(s, c))
    && (forall l | 0 <= l < |s.queues| :: QueueOk(s, l))
  }

  /** One connection moves on; its old functor has left the queues, its new one has been added,
      and everything about the others is as it was. */
  lemma Moved(s: State, r: State, c: nat)
    requires Inv(s) && c in s.conns && !r.fault
    requires r.ioLoops == s.ioLoops && r.next == s.next && r.nextConnId == s.nextConnId
    requires c in r.conns && r.conns == s.conns[c := r.conns[c]] && r.conns[c].loop == s.conns[c].loop
    requires r.connections == s.connections || r.connections == s.connections - {c}
    requires ConnOk(r, c) && |r.queues| == |s.queues|
    requires forall l | 0 <= l < |s.queues| ::
      && (forall t: Task | t.conn != c :: t in r.queues[l] <==> t in s.queues[l])
      && (forall t | t in r.queues[l] && t.conn == c :: Expected(r, c) == Posted(l, t))
      && (forall i, j | 0 <= i < j < |r.queues[l]| :: r.queues[l][i] != r.queues[l][j])
    requires Carried(r, c)
    ensures Inv(r)
  {
    forall d | d in s.conns && d != c
      ensures d in r.conns && StageOf(r, d) == StageOf(s, d) && ConnOk(r, d) && Carried(r, d)
    {
      assert ConnOk(s, d) && Carried(s, d);
    }
    forall l | 0 <= l < |r.queues|
      ensures QueueOk(r, l)
    {
      assert QueueOk(s, l);
      forall t | t in r.queues[l]
        ensures TaskOk(r, l, t)
      {
        if t.conn != c { assert t in s.queues[l] && TaskOk(s, l, t); }
      }
    }
  }

  /** The functors of one connection are all the one it waits for. */
  lemma TasksOf(s: State, c: nat)
    requires Inv(s) && c in s.conns
    ensures forall l | 0 <= l < |s.queues| :: forall t | t in s.queues[l] && t.conn == c :: Expected(s, c) == Posted(l, t)
  {
    forall l | 0 <= l < |s.queues|
      ensures forall t | t in s.queues[l] && t.conn == c :: Expected(s, c) == Posted(l, t)
    {
      assert QueueOk(s, l);
    }
  }

  ghost predicate Distinct(q: seq<Task>) {
    forall i, j | 0 <= i < j < |q| :: q[i] != q[j]
  }

  lemma AppendDistinct(q: seq<Task>, t: Task)
    requires Distinct(q) && t !in q
    ensures Distinct(q + [t]) && forall u :: u in q + [t] <==> u in q || u == t
  {}

  lemma TailDistinct(q: seq<Task>)
    requires Distinct(q) && q != []
    ensures Distinct(q[1..]) && q[0] !in q[1..] && forall u :: u in q <==> u == q[0] || u in q[1..]
  {
    assert q == [q[0]] + q[1..];
  }

  /** handleClose of a live connection. */
  lemma CloseKeeps(s: State, c: nat)
    requires Inv(s) && c in s.conns && s.conns[c].attached
    ensures Inv(HandleClose(s, c))
  {
    var r := HandleClose(s, c);
    assert ConnOk(s, c) && StageOf(s, c).Live?;
    TasksOf(s, c);
    var l := 0;
    var t := if s.conns[c].loop == 0 then Destroy(c) else Remove(c);
    assert QueueOk(s, 0) && r.queues == s.queues[0 := s.queues[0] + [t]];
    AppendDistinct(s.queues[0], t);
    forall k | 0 <= k < |s.queues|
      ensures forall u: Task | u.conn != c :: u in r.queues[k] <==> u in s.queues[k]
      ensures forall u | u in r.queues[k] && u.conn == c :: Expected(r, c) == Posted(k, u)
      ensures Distinct(r.queues[k])
    {
      assert QueueOk(s, k);
    }
    Moved(s, r, c);
  }

  /** The head of a queue, taken out: nothing of its connection is left. */
  lemma PopKeeps(s: State, l: nat)
    requires Inv(s) && l < |s.queues| && s.queues[l] != []
    ensures var t := s.queues[l][0]; var q := s.queues[l := s.queues[l][1..]];
      && t.conn in s.conns && Expected(s, t.conn) == Posted(l, t) && ConnOk(s, t.conn)
      && (forall k | 0 <= k < |q| ::
            && (forall u: Task | u.conn != t.conn :: u in q[k] <==> u in s.queues[k])
            && (forall u: Task | u in q[k] :: u.conn != t.conn)
            && Distinct(q[k]))
  {
    var t := s.queues[l][0];
    assert QueueOk(s, l) && TaskOk(s, l, t);
    TailDistinct(s.queues[l]);
    TasksOf(s, t.conn);
    var q := s.queues[l := s.queues[l][1..]];
    forall k | 0 <= k < |q|
      ensures forall u: Task | u.conn != t.conn :: u in q[k] <==> u in s.queues[k]
      ensures forall u: Task | u in q[k] :: u.conn != t.conn
      ensures Distinct(q[k])
    {
      assert QueueOk(s, k);
      forall u: Task | u in q[k]
        ensures u.conn != t.conn
      {
        assert u in s.queues[k];
      }
    }
  }

  lemma RunEstablish(s: State, l: nat)
    requires Inv(s) && l < |s.queues| && s.queues[l] != [] && s.queues[l][0].Establish?
    ensures Inv(RunHead(s, l))
  {
    PopKeeps(s, l);
    Moved(s, RunHead(s, l), s.queues[l][0].conn);
  }

  lemma RunDestroy(s: State, l: nat)
    requires Inv(s) && l < |s.queues| && s.queues[l] != [] && s.queues[l][0].Destroy?
    ensures Inv(RunHead(s, l))
  {
    PopKeeps(s, l);
    Moved(s, RunHead(s, l), s.queues[l][0].conn);
  }

  lemma RunRemove(s: State, l: nat)
    requires Inv(s) && l < |s.queues| && s.queues[l] != [] && s.queues[l][0].Remove?
    ensures Inv(RunHead(s, l))
  {
    PopKeeps(s, l);
    var c := s.queues[l][0].conn;
    var q := s.queues[l := s.queues[l][1..]];
    var io := s.conns[c].loop;
    var r := RunHead(s, l);
    assert c in s.connections && r.queues == q[io := q[io] + [Destroy(c)]];
    AppendDistinct(q[io], Destroy(c));
    Moved(s, r, c);
  }

  lemma ShutdownKeeps(s: State, c: nat)
    requires Inv(s) && c in s.conns && s.conns[c].status.Connected?
    ensures Inv(Update(s, c, s.conns[c].(status := Disconnecting)))
  {
    var r := Update(s, c, s.conns[c].(status := Disconnecting));
    TasksOf(s, c);
    assert ConnOk(s, c) && Carried(s, c) && StageOf(r, c) == StageOf(s, c);
    forall k | 0 <= k < |s.queues|
      ensures Distinct(r.queues[k])
    {
      assert QueueOk(s, k);
    }
    Moved(s, r, c);
  }

  /** A connection `c` has been added, with `q` as its functors on loop `l`, and nothing else has
      changed. */
  ghost predicate Joined(s: State, r: State, c: nat, l: nat, q: seq<Task>) {
    && c !in s.conns && c in r.conns && r.conns == s.conns[c := r.conns[c]]
    && r.connections == s.connections + {c}
    && l < |s.queues| && r.queues == s.queues[l := s.queues[l] + q]
    && (forall t | t in q :: t.conn == c)
  }

  lemma JoinedConns(s: State, r: State, c: nat, l: nat, q: seq<Task>)
    requires Inv(s) && Joined(s, r, c, l, q)
    ensures forall d | d in s.conns :: d in r.conns && StageOf(r, d) == StageOf(s, d) && ConnOk(r, d) && Carried(r, d)
  {
    forall d | d in s.conns
      ensures d in r.conns && StageOf(r, d) == StageOf(s, d) && ConnOk(r, d) && Carried(r, d)
    {
      assert ConnOk(s, d) && Carried(s, d);
    }
  }

  lemma JoinedQueues(s: State, r: State, c: nat, l: nat, q: seq<Task>)
    requires Inv(s) && Joined(s, r, c, l, q) && |q| <= 1
    requires forall t | t in q :: Expected(r, c) == Posted(l, t)
    ensures forall k | 0 <= k < |r.queues| :: QueueOk(r, k)
  {
    forall k | 0 <= k < |r.queues|
      ensures QueueOk(r, k)
    {
      assert QueueOk(s, k);
      forall t | t in r.queues[k]
        ensures TaskOk(r, k, t)
      {
        if t in s.queues[k] { assert TaskOk(s, k, t); }
      }
      if k == l && q != [] { AppendDistinct(s.queues[l], q[0]); }
    }
  }

  lemma AcceptKeeps(s: State)
    requires Inv(s)
    ensures Inv(NewConnection(s))
  {
    var c := s.nextConnId;
    var r := NewConnection(s);
    var l := r.conns[c].loop;
    var q := if l == 0 then [] else [Establish(c)];
    assert l == 0 ==> s.queues[0] + [] == s.queues[0];
    JoinedConns(s, r, c, l, q);
    JoinedQueues(s, r, c, l, q);
    assert ConnOk(r, c) && Carried(r, c);
  }

  lemma StepInv(s: State, e: Event)
    requires Inv(s)
    ensures Inv(Step(s, e))
  {
    match e
    case Accept => AcceptKeeps(s);
    case CloseEvent(c) => if c in s.conns && s.conns[c].attached { CloseKeeps(s, c); }
    case Shutdown(c) => if c in s.conns && s.conns[c].status.Connected? { ShutdownKeeps(s, c); }
    case RunTask(l) =>
      if l < |s.queues| && s.queues[l] != [] {
        match s.queues[l][0]
        case Establish(_) => RunEstablish(s, l);
        case Remove(_) => RunRemove(s, l);
        case Destroy(_) => RunDestroy(s, l);
      }
  }

  lemma {:induction false} RunInv(n: nat, es: seq<Event>)
    ensures Inv(Run(Init(n), es))
    decreases |es|
  {
    if es != [] {
      RunInv(n, es[..|es| - 1]);
      StepInv(Run(Init(n), es[..|es| - 1]), es[|es| - 1]);
    }
  }

  lemma ReachableInv(s: State)
    requires Reachable(s)
    ensures Inv(s)
  {
    var n, es :| s == Run(Init(n), es);
    RunInv(n, es);
  }

  /** For any number of I/O loops and any interleaving: the assertions on establish, erase and
      destroy never fail; the map holds exactly the connections that have not been erased; each
      connection has gone through a prefix of "up, down". */
  lemma ServerLifecycle(s: State, c: nat)
    requires Reachable(s) && c in s.conns
    ensures !s.fault
    ensures s.conns[c].calls <= [WentUp, WentDown]
    ensures s.conns[c].loop < |s.queues|
    ensures c in s.connections <==> Destroy(c) !in s.queues[s.conns[c].loop] && !s.conns[c].status.Disconnected?
    ensures s.conns[c].calls == [WentUp, WentDown] <==> s.conns[c].status.Disconnected?
  {
    ReachableInv(s);
    assert ConnOk(s, c) && Carried(s, c);
    TasksOf(s, c);
  }

  /** Nothing is stuck and nothing is done twice: a connection that is neither live nor gone has
      exactly one functor pending, in the loop that has to run it, and any other has none. */
  lemma AlwaysCarriedOn(s: State, c: nat)
    requires Reachable(s) && c in s.conns
    ensures var p := Expected(s, c);
      (p.Posted? ==> p.loop < |s.queues| && p.task in s.queues[p.loop]) &&
      (forall l, t | 0 <= l < |s.queues| && t in s.queues[l] && t.conn == c :: p == Posted(l, t))
    ensures forall l, i, j | 0 <= l < |s.queues| && 0 <= i < j < |s.queues[l]| ::
      !(s.queues[l][i].conn == c && s.queues[l][j].conn == c)
  {
    ReachableInv(s);
    assert Carried(s, c);
    TasksOf(s, c);
    forall l, i, j | 0 <= l < |s.queues| && 0 <= i < j < |s.queues[l]|
      ensures !(s.queues[l][i].conn == c && s.queues[l][j].conn == c)
    {
      assert QueueOk(s, l) && s.queues[l][i] in s.queues[l] && s.queues[l][j] in s.queues[l];
    }
  }

  // ---- accepting --------------------------------------------------------------------------------

  /** The loop on which the round robin puts connection `c` of a server with `n` I/O loops. */
  function HomeOf(c: nat, n: nat): nat
    requires 0 < c
  {
    if n == 0 then 0 else 1 + (c - 1) % n
  }

  ghost predicate HomesOk(s: State) {
    && 0 < s.nextConnId
    && (0 < s.ioLoops ==> s.next == (s.nextConnId - 1) % s.ioLoops)
    && (forall c | c in s.conns :: 0 < c < s.nextConnId && s.conns[c].loop == HomeOf(c, s.ioLoops))
  }

  lemma HomeStep(s: State, e: Event)
    requires Inv(s) && HomesOk(s)
    ensures HomesOk(Step(s, e))
  {
    if e.Accept? {
      AcceptHome(s);
    } else {
      LoopsStay(s, e);
    }
  }

  lemma AcceptHome(s: State)
    requires Inv(s) && HomesOk(s)
    ensures HomesOk(NewConnection(s))
  {
    if 0 < s.ioLoops { ThreadPools.DivStep(s.nextConnId - 1, s.ioLoops); }
  }

  /** Only newConnection makes connections, and none moves to another loop. */
  lemma LoopsStay(s: State, e: Event)
    requires !e.Accept?
    ensures var r := Step(s, e);
      && r.nextConnId == s.nextConnId && r.next == s.next && r.ioLoops == s.ioLoops && r.conns.Keys == s.conns.Keys
      && (forall c | c in s.conns :: r.conns[c].loop == s.conns[c].loop)
  {}

  lemma {:induction false} HomeRun(n: nat, es: seq<Event>)
    ensures HomesOk(Run(Init(n), es))
    decreases |es|
  {
    if es == [] {
      if 0 < n { ThreadPools.DivUnique(0, n, 0, 0); }
    } else {
      HomeRun(n, es[..|es| - 1]);
      RunInv(n, es[..|es| - 1]);
      HomeStep(Run(Init(n), es[..|es| - 1]), es[|es| - 1]);
    }
  }

  /** Connection k lives on I/O loop 1 + (k - 1) mod n, or on the base loop if there is no other. */
  lemma HomeLoop(s: State, c: nat)
    requires Reachable(s) && c in s.conns
    ensures 0 < c && s.conns[c].loop == if s.ioLoops == 0 then 0 else 1 + (c - 1) % s.ioLoops
  {
    var n, es :| s == Run(Init(n), es);
    HomeRun(n, es);
  }

  /** newConnection makes one connection under the next number, in the map at once, live if it
      belongs to the base loop and waiting to be established otherwise; no other changes. */
  lemma AcceptMakesOne(s: State, r: State)
    requires Reachable(s) && r == Step(s, Accept)
    ensures var c := s.nextConnId;
      && r.nextConnId == c + 1 && c !in s.conns && c in r.conns && r.connections == s.connections + {c}
      && StageOf(r, c) == (if s.ioLoops == 0 then Live else Fresh)
      && r.conns.Keys == s.conns.Keys + {c}
      && (forall d | d in s.conns :: r.conns[d] == s.conns[d])
  {
    ReachableInv(s);
  }

  /** shutdown turns a connected connection into a disconnecting one and does nothing to any other. */
  lemma ShutdownMarks(s: State, c: nat, r: State)
    requires Reachable(s) && c in s.conns && r == Step(s, Shutdown(c))
    ensures c in r.conns && r.conns[c].status == (if s.conns[c].status.Connected? then Disconnecting else s.conns[c].status)
    ensures StageOf(r, c) == StageOf(s, c) && r.connections == s.connections && r.queues == s.queues
    ensures forall d | d in s.conns && d != c :: d in r.conns && r.conns[d] == s.conns[d]
  {
    ReachableInv(s);
  }

  // ---- the stages of a connection ---------------------------------------------------------------

  function Rank(stage: Stage): nat {
    match stage
    case Fresh => 0
    case Live => 1
    case Closed => 2
    case Erased => 3
    case Gone => 4
  }

  /** What each functor does: establish takes its connection from fresh to live, remove from closed
      to erased, destroy from erased to gone; no other connection changes. */
  lemma TaskAdvances(s: State, l: nat, r: State)
    requires Reachable(s) && l < |s.queues| && s.queues[l] != [] && r == Step(s, RunTask(l))
    ensures var t := s.queues[l][0];
      && t.conn in s.conns && t.conn in r.conns
      && (t.Establish? ==> StageOf(s, t.conn) == Fresh && StageOf(r, t.conn) == Live)
      && (t.Remove? ==> StageOf(s, t.conn) == Closed && StageOf(r, t.conn) == Erased)
      && (t.Destroy? ==> StageOf(s, t.conn) == Erased && StageOf(r, t.conn) == Gone)
      && (forall d | d in s.conns && d != t.conn :: d in r.conns && r.conns[d] == s.conns[d] && StageOf(r, d) == StageOf(s, d))
  {
    ReachableInv(s);
    HeadExpected(s, l);
    HeadAdvances(s, l);
  }

  lemma HeadExpected(s: State, l: nat)
    requires Inv(s) && l < |s.queues| && s.queues[l] != []
    ensures var t := s.queues[l][0]; t.conn in s.conns && Expected(s, t.conn) == Posted(l, t) && ConnOk(s, t.conn)
  {
    assert QueueOk(s, l) && TaskOk(s, l, s.queues[l][0]);
  }

  lemma HeadAdvances(s: State, l: nat)
    requires !s.fault && l < |s.queues| && s.queues[l] != []
    requires var t := s.queues[l][0]; t.conn in s.conns && Expected(s, t.conn) == Posted(l, t) && ConnOk(s, t.conn)
    ensures var t := s.queues[l][0]; var r := RunHead(s, l);
      && t.conn in r.conns
      && (t.Establish? ==> StageOf(s, t.conn) == Fresh && StageOf(r, t.conn) == Live)
      && (t.Remove? ==> StageOf(s, t.conn) == Closed && StageOf(r, t.conn) == Erased)
      && (t.Destroy? ==> StageOf(s, t.conn) == Erased && StageOf(r, t.conn) == Gone)
      && (forall d | d in s.conns && d != t.conn :: d in r.conns && r.conns[d] == s.conns[d] && StageOf(r, d) == StageOf(s, d))
  {}

  /** A close event takes its connection from live to closed, or to erased on the base loop. */
  lemma CloseAdvances(s: State, c: nat, r: State)
    requires Reachable(s) && c in s.conns && s.conns[c].attached && r == Step(s, CloseEvent(c))
    ensures c in r.conns && StageOf(s, c) == Live
    ensures StageOf(r, c) == if s.conns[c].loop == 0 then Erased else Closed
    ensures forall d | d in s.conns && d != c :: d in r.conns && r.conns[d] == s.conns[d] && StageOf(r, d) == StageOf(s, d)
  {
    ReachableInv(s);
    assert ConnOk(s, c);
  }

  lemma StageForward(s: State, e: Event, c: nat)
    requires Reachable(s) && c in s.conns
    ensures var r := Step(s, e); c in r.conns && Rank(StageOf(s, c)) <= Rank(StageOf(r, c))
  {
    ReachableInv(s);
    assert ConnOk(s, c);
    match e
    case Accept => AcceptKeeps(s);
    case CloseEvent(d) => if d in s.conns && s.conns[d].attached { CloseAdvances(s, d, Step(s, e)); }
    case Shutdown(d) =>
    case RunTask(l) => if l < |s.queues| && s.queues[l] != [] { TaskAdvances(s, l, Step(s, e)); }
  }

  lemma StepReachable(s: State, e: Event)
    requires Reachable(s)
    ensures Reachable(Step(s, e))
  {
    var n, es :| s == Run(Init(n), es);
    assert (es + [e])[..|es|] == es;
    assert Step(s, e) == Run(Init(n), es + [e]);
  }

  /** A connection never goes back to an earlier stage. */
  lemma {:induction false} NeverBack(s: State, es: seq<Event>, c: nat)
    requires Reachable(s) && c in s.conns
    ensures var r := Run(s, es); Reachable(r) && c in r.conns && Rank(StageOf(s, c)) <= Rank(StageOf(r, c))
    decreases |es|
  {
    if es != [] {
      NeverBack(s, es[..|es| - 1], c);
      StageForward(Run(s, es[..|es| - 1]), es[|es| - 1], c);
      StepReachable(Run(s, es[..|es| - 1]), es[|es| - 1]);
    }
  }

  // ---- handleClose twice ------------------------------------------------------------------

  /** The report carries a hang-up without input, and something to read, and the read finds the
      end of the stream: both the close and the read callback call handleClose. */
  predicate ClosesTwice(flags: set<Channels.Flag>, eof: bool) {
    && Channels.Hup in flags && Channels.In !in flags
    && (Channels.Pri in flags || Channels.RdHup in flags) && eof
  }

  predicate Closes(flags: set<Channels.Flag>, eof: bool) {
    || (Channels.Hup in flags && Channels.In !in flags)
    || ((Channels.In in flags || Channels.Pri in flags || Channels.RdHup in flags) && eof)
  }

  lemma {:induction false} ReportConcat(s: State, c: nat, a: seq<Channels.Callback>, b: seq<Channels.Callback>, eof: bool)
    ensures Report(s, c, a + b, eof) == Report(Report(s, c, a, eof), c, b, eof)
    decreases |a|
  {
    if a == [] {
      assert a + b == b;
    } else if !s.fault {
      assert (a + b)[0] == a[0] && (a + b)[1..] == a[1..] + b;
      ReportConcat(OnCallback(s, c, a[0], eof), c, a[1..], b, eof);
    }
  }

  lemma ReportOne(s: State, c: nat, cb: Channels.Callback, eof: bool)
    ensures Report(s, c, [cb], eof) == if s.fault then s else OnCallback(s, c, cb, eof)
  {
    assert [cb][1..] == [];
  }

  /** What a report amounts to: the close callback if it is due, then the read callback. */
  lemma ReportCloses(s: State, c: nat, flags: set<Channels.Flag>, eof: bool)
    requires !s.fault
    ensures var hup := Channels.Hup in flags && Channels.In !in flags;
      var end := (Channels.In in flags || Channels.Pri in flags || Channels.RdHup in flags) && eof;
      var s1 := if hup then HandleClose(s, c) else s;
      Report(s, c, Channels.Dispatch(flags), eof) == if end && !s1.fault then HandleClose(s1, c) else s1
  {
    var h := if Channels.Hup in flags && Channels.In !in flags then [Channels.CloseCallback] else [];
    var e := if Channels.Err in flags || Channels.Nval in flags then [Channels.ErrorCallback] else [];
    var r := if Channels.In in flags || Channels.Pri in flags || Channels.RdHup in flags
      then [Channels.ReadCallback] else [];
    var w := if Channels.Out in flags then [Channels.WriteCallback] else [];
    assert Channels.Dispatch(flags) == h + (e + (r + w));
    ReportConcat(s, c, h, e + (r + w), eof);
    ReportOne(s, c, Channels.CloseCallback, eof);
    var s1 := if h != [] then HandleClose(s, c) else s;
    ReportConcat(s1, c, e, r + w, eof);
    ReportOne(s1, c, Channels.ErrorCallback, eof);
    ReportConcat(s1, c, r, w, eof);
    ReportOne(s1, c, Channels.ReadCallback, eof);
    var s2 := if r != [] && eof && !s1.fault then HandleClose(s1, c) else s1;
    ReportOne(s2, c, Channels.WriteCallback, eof);
  }

  /** The base loop runs its next `n` functors. */
  function RunBase(s: State, n: nat): State
    decreases n
  {
    if n == 0 then s else RunBase(Step(s, RunTask(0)), n - 1)
  }

  lemma {:induction false} FaultStays(s: State, n: nat)
    requires s.fault
    ensures RunBase(s, n).fault
    decreases n
  {
    if n != 0 { FaultStays(s, n - 1); }
  }

  /** One functor of the base loop: the rest of its queue stays in place and nothing is added
      to the map. */
  lemma BaseStep(s: State)
    requires !s.fault && |s.queues| > 0 && s.queues[0] != []
    ensures var r := Step(s, RunTask(0));
      r.fault || (|r.queues| == |s.queues| && s.queues[0][1..] <= r.queues[0] && r.connections <= s.connections)
  {}

  /** A functor that erases a connection which is not in the map fails when its turn comes. */
  lemma {:induction false} StaleRemove(s: State, c: nat, i: nat)
    requires !s.fault && |s.queues| > 0 && i < |s.queues[0]| && s.queues[0][i] == Remove(c) && c !in s.connections
    ensures RunBase(s, i + 1).fault
    decreases i
  {
    var r := Step(s, RunTask(0));
    BaseStep(s);
    if r.fault {
      FaultStays(r, i);
    } else {
      assert s.queues[0][1..][i - 1] == Remove(c);
      StaleRemove(r, c, i - 1);
    }
  }

  /** So does the second of two functors that erase the same connection. */
  lemma {:induction false} DoubleRemove(s: State, c: nat, i: nat, j: nat)
    requires !s.fault && |s.queues| > 0 && i < j < |s.queues[0]|
    requires s.queues[0][i] == Remove(c) && s.queues[0][j] == Remove(c)
    ensures RunBase(s, j + 1).fault
    decreases i
  {
    var r := Step(s, RunTask(0));
    BaseStep(s);
    if r.fault {
      FaultStays(r, j);
    } else {
      assert s.queues[0][1..][j - 1] == Remove(c);
      if i == 0 {
        StaleRemove(r, c, j - 1);
      } else {
        assert s.queues[0][1..][i - 1] == Remove(c);
        DoubleRemove(r, c, i - 1, j - 1);
      }
    }
  }

  /** Two calls of handleClose in a row fail: at once on the base loop, and otherwise when the
      base loop has run the functors that are pending. */
  lemma DoubleCloseFaults(s: State, c: nat)
    requires Reachable(s) && c in s.conns && s.conns[c].attached
    ensures var r := HandleClose(HandleClose(s, c), c);
      && !HandleClose(s, c).fault
      && (r.fault <==> s.conns[c].loop == 0)
      && RunBase(r, |s.queues[0]| + 2).fault
  {
    ReachableInv(s);
    CloseKeeps(s, c);
    var n := |s.queues[0]|;
    var r := HandleClose(HandleClose(s, c), c);
    if s.conns[c].loop == 0 {
      FaultStays(r, n + 2);
    } else {
      assert r.queues[0] == s.queues[0] + [Remove(c)] + [Remove(c)];
      assert r.queues[0][n] == Remove(c) && r.queues[0][n + 1] == Remove(c);
      DoubleRemove(r, c, n, n + 1);
    }
  }

  /** One report for a live connection: it either leaves the server alone or is one close event
      of the lifecycle above, exactly unless it closes twice; and then an assertion fails. */
  lemma ReportOutcome(s: State, c: nat, flags: set<Channels.Flag>, eof: bool)
    requires Reachable(s) && c in s.conns && s.conns[c].attached
    ensures var r := Report(s, c, Channels.Dispatch(flags), eof);
      && |s.queues| > 0
      && (!ClosesTwice(flags, eof) ==> r == if Closes(flags, eof) then Step(s, CloseEvent(c)) else s)
      && (RunBase(r, |s.queues[0]| + 2).fault <==> ClosesTwice(flags, eof))
  {
    ReachableInv(s);
    ReportCloses(s, c, flags, eof);
    CloseKeeps(s, c);
    if ClosesTwice(flags, eof) {
      DoubleCloseFaults(s, c);
    } else {
      BaseInv(Report(s, c, Channels.Dispatch(flags), eof), |s.queues[0]| + 2);
    }
  }

  lemma {:induction false} BaseInv(s: State, n: nat)
    requires Inv(s)
    ensures !RunBase(s, n).fault
    decreases n
  {
    if n != 0 {
      StepInv(s, RunTask(0));
      BaseInv(Step(s, RunTask(0)), n - 1);
    }
  }
}
