/** TcpClient.cc on top of the connector: the connection it owns, and the reconnect that
    removeConnection makes through Connector::restart. */
module ClientModel {
  import opened Channels
  import C = ConnectorModel

  // A connection, from connectEstablished to connectDestroyed.
  datatype Conn = Up | Closing | Down

  datatype State = State(
    connector: C.State,
    retry: bool,
    connect: bool,
    connection: C.Option<nat>,   // connection_
    conns: seq<Conn>,            // every connection ever made
    bornIn: nat,                 // iteration in which the latest one was made
    iteration: nat,
    fault: bool)

  datatype Event =
    | Connect(r: C.ConnectResult)
    | Disconnect
    | Stop(late: bool)                                      // late: see ConnectorModel.Cancel
    | EnableRetry
    | Ready(flags: set<Flag>, err: bool, selfConnect: bool)  // report for the connector's channel
    | RetryTimer(timer: nat, r: C.ConnectResult)
    | ConnCloses(r: C.ConnectResult)                        // the connection's handleClose
    | EndIteration                                          // doPendingFunctors

  function Init(): State {
    State(C.Init(), false, true, C.None, [], 0, 0, false)
  }

  function Lift(s: State, c: C.State): State {
    s.(connector := c, fault := s.fault || c.fault)
  }

  /** newConnection, which the connector's callback calls when it hands a socket over. */
  function NewConnection(s: State): State {
    s.(connection := C.Some(|s.conns|), conns := s.conns + [Up], bornIn := s.iteration)
  }

  /** The report handed the connector's socket to the callback. */
  predicate HandsOver(before: C.State, after: C.State) {
    && before.channel.Some?
    && var k := before.channel.value;
       k < |before.sockets| && k < |after.sockets| && before.sockets[k].Open? && after.sockets[k].Given?
  }

  function RemoveConnection(s: State, k: nat, r: C.ConnectResult): State {
    if s.connection != C.Some(k) || |s.conns| <= k then s.(fault := true)
    else
      var s1 := s.(connection := C.None, conns := s.conns[k := Closing]);
      if s.retry && s.connect then Lift(s1, C.Step(s1.connector, C.Restart(r))) else s1
  }

  /** The connection whose channel the poller can report: it was in the poller before this
      iteration's poll. */
  function Reportable(s: State): C.Option<nat> {
    if s.conns != [] && s.conns[|s.conns| - 1].Up? && s.bornIn < s.iteration then C.Some(|s.conns| - 1) else C.None
  }

  function Step(s: State, e: Event): State {
    if s.fault then s
    else
      match e
      case Connect(r) => Lift(s.(connect := true), C.Step(s.connector, C.Start(r)))
      case Disconnect => s.(connect := false)
      case Stop(late) => Lift(s.(connect := false), C.Step(s.connector, C.Stop(late)))
      case EnableRetry => s.(retry := true)
      case Ready(flags, err, self) =>
        if !s.connector.registered then s
        else
          var c := C.Step(s.connector, C.Ready(flags, err, self));
          if HandsOver(s.connector, c) then NewConnection(Lift(s, c)) else Lift(s, c)
      case RetryTimer(t, r) =>
        if s.connector.resets != 0 then s else Lift(s, C.Step(s.connector, C.TimerFires(t, r)))
      case ConnCloses(r) => if Reportable(s).Some? then RemoveConnection(s, Reportable(s).value, r) else s
      case EndIteration =>
        Lift(s.(conns := seq(|s.conns|, i requires 0 <= i < |s.conns| => if s.conns[i].Closing? then Down else s.conns[i]),
                iteration := s.iteration + 1),
             C.Step(s.connector, C.Drain))
  }

  /** connect() only where the connector can be started; everything else is unrestricted. */
  predicate Disciplined(s: State, e: Event) {
    e.Connect? ==> C.SafeToStart(s.connector, e.r)
  }

  function Run(s: State, es: seq<Event>): State
    decreases |es|
  {
    if es == [] then s else Step(Run(s, es[..|es| - 1]), es[|es| - 1])
  }

  ghost predicate DisciplinedFrom(s: State, es: seq<Event>)
    decreases |es|
  {
    es == [] || (DisciplinedFrom(s, es[..|es| - 1]) && Disciplined(Run(s, es[..|es| - 1]), es[|es| - 1]))
  }
}

module ClientTheorems {
  import opened Channels
  import C = ConnectorModel
  import CT = ConnectorTheorems
  import opened ClientModel

  ghost predicate Inv(s: State) {
    && !s.fault && CT.Inv(s.connector)
    && s.bornIn <= s.iteration
    && (s.connection.Some? ==> s.connection.value == |s.conns| - 1 && s.connector.phase.Connected?
                               && (s.connector.resets != 0 ==> s.bornIn == s.iteration))
    && (forall k | 0 <= k < |s.conns| :: s.conns[k].Up? <==> s.connection == C.Some(k))
  }

  /** What a report can do to the connector. */
  lemma ReadyPhase(c: C.State, flags: set<Flag>, err: bool, self: bool)
    requires CT.Inv(c) && c.registered
    ensures var d := C.Step(c, C.Ready(flags, err, self));
      CT.Inv(d) && (HandsOver(c, d) ==> d.phase.Connected?)
  {
    CT.ReadyKeeps(c, flags, err, self);
    CT.HandlersKeep(c, err, self);
    CT.CallErrorWrite(c, flags, err, self);
  }

  lemma CloseKeeps(s: State, r: C.ConnectResult)
    requires Inv(s) && Reportable(s).Some?
    ensures Inv(RemoveConnection(s, Reportable(s).value, r))
    ensures s.connection == Reportable(s)
    ensures C.Disciplined(s.connector, C.Restart(r))
  {
    var k := Reportable(s).value;
    assert s.conns[k].Up?;
    CT.StepInv(s.connector, C.Restart(r));
  }

  lemma StepInv(s: State, e: Event)
    requires Inv(s) && Disciplined(s, e)
    ensures Inv(Step(s, e))
  {
    match e
    case Connect(r) => CT.SafeStartKeeps(s.connector, r);
    case Disconnect =>
    case Stop(late) => CT.StepInv(s.connector, C.Stop(late));
    case EnableRetry =>
    case Ready(flags, err, self) =>
      if s.connector.registered { ReadyPhase(s.connector, flags, err, self); }
    case RetryTimer(t, r) =>
      if s.connector.resets == 0 { CT.StepInv(s.connector, C.TimerFires(t, r)); }
    case ConnCloses(r) => if Reportable(s).Some? { CloseKeeps(s, r); }
    case EndIteration => CT.StepInv(s.connector, C.Drain);
  }

  lemma {:induction false} RunInv(s: State, es: seq<Event>)
    requires Inv(s) && DisciplinedFrom(s, es)
    ensures Inv(Run(s, es))
    decreases |es|
  {
    if es != [] {
      RunInv(s, es[..|es| - 1]);
      StepInv(Run(s, es[..|es| - 1]), es[|es| - 1]);
    }
  }

  /** A client that calls connect() only where it is safe owns at most one established connection,
      its assertions and the connector's never fail, and every reconnect finds the connector ready
      for restart. */
  lemma OneConnection(es: seq<Event>, r: C.ConnectResult)
    requires DisciplinedFrom(Init(), es)
    ensures var s := Run(Init(), es);
      && !s.fault && !s.connector.fault
      && (forall k | 0 <= k < |s.conns| :: s.conns[k].Up? <==> s.connection == C.Some(k))
      && (Reportable(s).Some? ==> s.connection == Reportable(s) && C.Disciplined(s.connector, C.Restart(r)))
  {
    RunInv(Init(), es);
    if Reportable(Run(Init(), es)).Some? { CloseKeeps(Run(Init(), es), r); }
  }

  // ---- what each event brings about ---------------------------------------------------------------

  /** A report for the connector's channel makes a connection, owned and up, exactly when it is for
      writability alone, the socket has no error and is not connected to itself, and the connection
      is still wanted; otherwise the client's connections stay as they are. */
  ghost predicate ReportMade(s: State, flags: set<Flag>, err: bool, self: bool, t: State) {
    if Out in flags && Err !in flags && Nval !in flags && !err && !self && s.connector.connect
    then t.connection == C.Some(|s.conns|) && t.conns == s.conns + [Up]
    else t.connection == s.connection && t.conns == s.conns
  }

  lemma InvReport(s: State, flags: set<Flag>, err: bool, self: bool)
    requires Inv(s) && s.connector.registered
    ensures s.connection.None? && ReportMade(s, flags, err, self, Step(s, Ready(flags, err, self)))
  {
    CT.InvOutcome(s.connector, flags, err, self);
  }

  lemma ReportMakesConnection(es: seq<Event>, flags: set<Flag>, err: bool, self: bool)
    requires DisciplinedFrom(Init(), es) && Run(Init(), es).connector.registered
    ensures var s := Run(Init(), es); s.connection.None? && ReportMade(s, flags, err, self, Step(s, Ready(flags, err, self)))
  {
    RunInv(Init(), es);
    InvReport(Run(Init(), es), flags, err, self);
  }

  /** The close of the owned connection: it is given up and about to be destroyed, and a new attempt
      begins exactly if retry is enabled and the client still wants to connect. */
  lemma CloseReconnects(es: seq<Event>, r: C.ConnectResult)
    requires DisciplinedFrom(Init(), es) && Reportable(Run(Init(), es)).Some?
    ensures var s := Run(Init(), es); var t := Step(s, ConnCloses(r)); var k := |s.conns| - 1;
      && s.connection == C.Some(k) && t.connection.None?
      && |t.conns| == |s.conns| && t.conns[k] == Closing && (forall i | 0 <= i < k :: t.conns[i] == s.conns[i])
      && (if s.retry && s.connect then CT.Attempted(s.connector.(delays := []), r, t.connector) else t.connector == s.connector)
  {
    var s := Run(Init(), es);
    RunInv(Init(), es);
    CloseKeeps(s, r);
  }

  /** The end of an iteration destroys what has closed in it, and nothing else. */
  lemma IterationDestroys(es: seq<Event>)
    requires DisciplinedFrom(Init(), es)
    ensures var s := Run(Init(), es); var t := Step(s, EndIteration);
      && |t.conns| == |s.conns| && t.connection == s.connection
      && (forall i | 0 <= i < |s.conns| :: t.conns[i] == if s.conns[i].Closing? then Down else s.conns[i])
      && t.iteration == s.iteration + 1 && t.connector.resets == 0
  {
    RunInv(Init(), es);
  }

  lemma WishStep(s: State, e: Event)
    requires !s.fault
    ensures var t := Step(s, e);
      && (t.retry <==> s.retry || e.EnableRetry?)
      && (t.connect <==> e.Connect? || (s.connect && !e.Disconnect? && !e.Stop?))
  {}

  /** Whether reconnecting is enabled, and whether the client wants to connect. */
  lemma {:induction false} Wishes(es: seq<Event>)
    requires DisciplinedFrom(Init(), es)
    ensures var s := Run(Init(), es);
      && (s.retry <==> EnableRetry in es)
      && (s.connect <==> Wanted(es))
    decreases |es|
  {
    if es != [] {
      var before := es[..|es| - 1];
      Wishes(before);
      RunInv(Init(), before);
      WishStep(Run(Init(), before), es[|es| - 1]);
      assert es == before + [es[|es| - 1]];
    }
  }

  /** Of connect, disconnect and stop, connect was the last, or none has been called. */
  predicate Wanted(es: seq<Event>)
    decreases |es|
  {
    es == [] ||
    (var e := es[|es| - 1];
     e.Connect? || (!e.Disconnect? && !e.Stop? && Wanted(es[..|es| - 1])))
  }

  /** connect and the retry timer begin attempts of the connector, and stop ends its wish. */
  lemma ConnectorFollows(es: seq<Event>, e: Event)
    requires DisciplinedFrom(Init(), es) && Disciplined(Run(Init(), es), e)
    ensures var s := Run(Init(), es); var t := Step(s, e);
      && (e.Connect? ==> t.connector.connect && CT.Attempted(s.connector, e.r, t.connector))
      && (e.Stop? ==> !t.connector.connect && t.connector.timers == {} && t.connector.sockets == s.connector.sockets)
      && (e.RetryTimer? && s.connector.resets == 0 && s.connector.connect && e.timer in s.connector.timers ==>
            CT.Attempted(s.connector, e.r, t.connector))
  {
    RunInv(Init(), es);
  }

  // ---- when connect() is safe -----------------------------------------------------------------

  /** When connect() itself trips an assertion. */
  lemma ConnectFaultsIff(es: seq<Event>, r: C.ConnectResult)
    requires DisciplinedFrom(Init(), es)
    ensures var s := Run(Init(), es);
      Step(s, Connect(r)).fault <==>
        !s.connector.phase.Disconnected? || (r.InProgress? && s.connector.resets != 0)
  {
    RunInv(Init(), es);
  }

  lemma RunOne(s: State, e: Event)
    ensures Run(s, [e]) == Step(s, e) && (Disciplined(s, e) ==> DisciplinedFrom(s, [e]))
  {
    assert [e][..0] == [];
  }

  lemma RunSnoc(s: State, es: seq<Event>, e: Event)
    ensures Run(s, es + [e]) == Step(Run(s, es), e)
    ensures DisciplinedFrom(s, es) && Disciplined(Run(s, es), e) ==> DisciplinedFrom(s, es + [e])
  {
    assert (es + [e])[..|es|] == es;
  }

  /** Two timers that can both call startInLoop. */
  ghost predicate TwoTimers(c: C.State, i: nat, j: nat) {
    && !c.fault && c.phase.Disconnected? && c.connect && c.resets == 0 && c.channel.None? && i != j
    && (i in c.timers || i in c.stale) && (j in c.timers || j in c.stale)
  }

  lemma TwoTimersFault(s: State, i: nat, j: nat)
    requires !s.fault && TwoTimers(s.connector, i, j)
    ensures Step(Step(s, RetryTimer(i, C.InProgress)), RetryTimer(j, C.InProgress)).fault
  {}

  /** A disciplined continuation in which an assertion fails. */
  ghost predicate Breaks(s: State, es: seq<Event>) {
    DisciplinedFrom(s, es) && Run(s, es).fault
  }

  lemma UnsafeConnectBreaks(s: State, r: C.ConnectResult) returns (es: seq<Event>)
    requires Inv(s) && !C.SafeToStart(s.connector, r)
    ensures Breaks(Step(s, Connect(r)), es)
  {
    var t := Step(s, Connect(r));
    var c := s.connector;
    if t.fault {
      es := [];
    } else {
      var i :| i in c.timers || i in c.stale;
      if r.InProgress? {
        es := [RetryTimer(i, C.InProgress)];
        RunOne(t, RetryTimer(i, C.InProgress));
      } else {
        es := BothTimers(t, i, c.nextTimer);
      }
    }
  }

  lemma BothTimers(t: State, i: nat, j: nat) returns (es: seq<Event>)
    requires !t.fault && i != j && i in t.connector.timers + t.connector.stale && j in t.connector.timers
    requires var c := t.connector;
      && !c.fault && c.phase.Disconnected? && c.connect && (c.channel.Some? ==> c.resets != 0)
      && (c.resets != 0 ==> c.stale == {})
    ensures Breaks(t, es)
  {
    var d := Step(t, EndIteration);
    var first := if t.connector.resets == 0 then t else d;
    es := if t.connector.resets == 0 then [] else [EndIteration];
    RunOne(t, EndIteration);
    assert Run(t, es) == first && DisciplinedFrom(t, es);
    TwoTimersFault(first, i, j);
    RunSnoc(t, es, RetryTimer(i, C.InProgress));
    RunSnoc(t, es + [RetryTimer(i, C.InProgress)], RetryTimer(j, C.InProgress));
    es := es + [RetryTimer(i, C.InProgress)] + [RetryTimer(j, C.InProgress)];
  }

  /** connect() is followed by no failed assertion in any disciplined continuation if and only if
      the connector can be started: it is disconnected, and either the attempt ends at once or no
      retry timer can fire and, if it gets under way, the old channel has been dropped. */
  lemma ConnectSafeIff(es: seq<Event>, r: C.ConnectResult)
    requires DisciplinedFrom(Init(), es)
    ensures var s := Run(Init(), es); var t := Step(s, Connect(r));
      (forall more | DisciplinedFrom(t, more) :: !Run(t, more).fault) <==> C.SafeToStart(s.connector, r)
  {
    var s := Run(Init(), es);
    var t := Step(s, Connect(r));
    RunInv(Init(), es);
    if C.SafeToStart(s.connector, r) {
      StepInv(s, Connect(r));
      forall more | DisciplinedFrom(t, more)
        ensures !Run(t, more).fault
      {
        RunInv(t, more);
      }
    } else {
      var more := UnsafeConnectBreaks(s, r);
      assert DisciplinedFrom(t, more) && Run(t, more).fault;
    }
  }

  // ---- a client whose connection has closed -----------------------------------------------------

  /** There is neither a connection nor an attempt, but the connector is still in kConnected. */
  ghost predicate Spent(s: State) {
    && Inv(s) && s.connection.None? && s.connector.phase.Connected?
    && s.connector.timers == {} && s.connector.stale == {} && !s.connector.registered
  }

  lemma SpentStep(s: State, e: Event)
    requires Spent(s) && !e.Connect?
    ensures Spent(Step(s, e))
  {
    StepInv(s, e);
  }

  lemma {:induction false} SpentRun(s: State, es: seq<Event>)
    requires Spent(s) && forall e | e in es :: !e.Connect?
    ensures Spent(Run(s, es))
    decreases |es|
  {
    if es != [] {
      var before := es[..|es| - 1];
      assert forall e | e in before :: e in es;
      SpentRun(s, before);
      SpentStep(Run(s, before), es[|es| - 1]);
    }
  }

  /** Once a connection has closed without a reconnect the client is spent: whatever happens
      afterwards, with all functors run, connect() fails an assertion, because only restart takes
      the connector out of kConnected. */
  lemma ClosedForGood(es: seq<Event>, r: C.ConnectResult, more: seq<Event>, again: C.ConnectResult)
    requires DisciplinedFrom(Init(), es)
    requires var s := Run(Init(), es); Reportable(s).Some? && !(s.retry && s.connect)
    requires forall e | e in more :: !e.Connect?
    ensures var s := Run(Init(), es);
      var u := Run(Step(Step(s, ConnCloses(r)), EndIteration), more);
      && !u.fault && u.connection.None? && u.connector.timers == {} && !u.connector.registered
      && Step(u, Connect(again)).fault
  {
    var s := Run(Init(), es);
    RunInv(Init(), es);
    CloseKeeps(s, r);
    StepInv(Step(s, ConnCloses(r)), EndIteration);
    SpentRun(Step(Step(s, ConnCloses(r)), EndIteration), more);
  }
}
