/** Connector.cc as a transition system on its loop thread: one connection attempt at a time,
    retry with backoff, and the ownership of every socket it creates. */
module ConnectorModel {
  import opened Channels
  import opened Numbers

  datatype Option<T> = None | Some(value: T)

  datatype Phase = Disconnected | Connecting | Connected

  // What became of a socket descriptor: still ours, closed, or handed to the callback.
  datatype Sock = Open | Closed | Given

  // The classes of errno that Connector::connect distinguishes.
  datatype ConnectResult = InProgress | Temporary | Fatal

  const INIT_DELAY: nat := 500
  const MAX_DELAY: nat := 30_000

  datatype State = State(
    connect: bool,
    phase: Phase,
    channel: Option<nat>,      // channel_, by the socket it watches
    registered: bool,          // that channel is in the poller
    resets: nat,               // resetChannel functors that have not run
    timers: set<nat>,          // retry timers that have neither fired nor been cancelled
    stale: set<nat>,           // cancelled ones that the timer queue's current batch still holds
    timerId: Option<nat>,
    nextTimer: nat,
    delay: nat,                // retryDelayMs_
    sockets: seq<Sock>,        // every socket created, in order
    fault: bool,
    delays: seq<nat>)          // history: the delays used since construction or restart

  datatype Event =
    | Start(r: ConnectResult)
    | Restart(r: ConnectResult)
    | Stop(late: bool)                                       // late: the retry timer is in the current batch
    | Ready(flags: set<Flag>, err: bool, selfConnect: bool)  // the poller reports the channel
    | TimerFires(timer: nat, r: ConnectResult)
    | Drain                                                  // doPendingFunctors

  function Init(): State {
    State(false, Disconnected, None, false, 0, {}, {}, None, 0, INIT_DELAY, [], false, [])
  }

  function Fail(s: State): State { s.(fault := true) }

  /** sockets::close, or the hand-over; a descriptor that is not ours is a double close. */
  function Dispose(s: State, k: nat, to: Sock): State {
    if |s.sockets| <= k || !s.sockets[k].Open? then Fail(s)
    else s.(sockets := s.sockets[k := to])
  }

  function Retry(s: State, k: nat): State {
    var s1 := Dispose(s, k, Closed).(phase := Disconnected);
    if !s.connect then s1
    else
      s1.(timers := s.timers + {s.nextTimer}, timerId := Some(s.nextTimer), nextTimer := s.nextTimer + 1,
          delay := Min(s.delay * 2, MAX_DELAY), delays := s.delays + [s.delay])
  }

  function BeginConnecting(s: State, k: nat): State {
    if s.channel.Some? then Fail(s)
    else s.(phase := Connecting, channel := Some(k), registered := true)
  }

  function Connect(s: State, r: ConnectResult): State {
    var k := |s.sockets|;
    var s1 := s.(sockets := s.sockets + [Open]);
    match r
    case InProgress => BeginConnecting(s1, k)
    case Temporary => Retry(s1, k)
    case Fatal => Dispose(s1, k, Closed)
  }

  function StartInLoop(s: State, r: ConnectResult): State {
    if !s.phase.Disconnected? then Fail(s)
    else if s.connect then Connect(s, r)
    else s
  }

  /** removeAndResetChannel; the channel object itself lives until its functor runs. */
  function RemoveChannel(s: State): State {
    if s.channel.None? || !s.registered then Fail(s)
    else s.(registered := false, resets := s.resets + 1)
  }

  function HandleError(s: State): State {
    if !s.phase.Connecting? || s.channel.None? then Fail(s)
    else
      var s1 := RemoveChannel(s);
      if s1.fault then s1 else Retry(s1, s.channel.value)
  }

  function HandleWrite(s: State, err: bool, selfConnect: bool): State {
    if !s.phase.Connecting? then s
    else if s.channel.None? then Fail(s)
    else
      var s1 := RemoveChannel(s);
      var k := s.channel.value;
      if s1.fault then s1
      else if err || selfConnect then Retry(s1, k)
      else Dispose(s1.(phase := Connected), k, if s.connect then Given else Closed)
  }

  /** One report runs the error callback, then the write callback, of those that are set. */
  function Call(s: State, cs: seq<Callback>, err: bool, selfConnect: bool): State
    decreases |cs|
  {
    if s.fault || cs == [] then s
    else
      Call(match cs[0]
           case ErrorCallback => HandleError(s)
           case WriteCallback => HandleWrite(s, err, selfConnect)
           case _ => s,
           cs[1..], err, selfConnect)
  }

  /** stop: cancelling a timer of the batch whose callbacks are running does not keep its own
      callback from running (TimerTheorems.CancelledStillRuns). A timer set in this iteration, with
      its reset still queued, is not in that batch. */
  function Cancel(s: State, late: bool): State {
    var id := if s.timerId.Some? then {s.timerId.value} else {};
    s.(connect := false, timers := s.timers - id,
       stale := if late && s.resets == 0 then s.stale + (s.timers * id) else s.stale)
  }

  function Fire(s: State, t: nat, r: ConnectResult): State {
    if t in s.timers || t in s.stale then StartInLoop(s.(timers := s.timers - {t}, stale := s.stale - {t}), r) else s
  }

  function Step(s: State, e: Event): State {
    if s.fault then s
    else
      match e
      case Start(r) => StartInLoop(s.(connect := true), r)
      case Restart(r) => StartInLoop(s.(phase := Disconnected, delay := INIT_DELAY, connect := true, delays := []), r)
      case Stop(late) => Cancel(s, late)
      case Ready(flags, err, self) => Call(s, Dispatch(flags), err, self)
      case TimerFires(t, r) => Fire(s, t, r)
      case Drain => s.(resets := 0, channel := if 0 < s.resets then None else s.channel, stale := {})
  }

  /** Disciplined use: start only when idle, restart only after a hand-over, and the functors of
      one loop iteration run before anything of the next. Reports come only for a channel that is
      in the poller. */
  predicate Disciplined(s: State, e: Event) {
    match e
    case Start(_) => s.phase.Disconnected? && s.timers == {} && s.stale == {} && s.resets == 0
    case Restart(_) => s.phase.Connected? && s.resets == 0
    case Stop(_) => true
    case Ready(_, _, _) => s.registered
    case TimerFires(_, _) => s.resets == 0
    case Drain => true
  }

  /** start() leads to no failed assertion, now or later: the connector is disconnected and either
      the attempt ends at once, or no retry timer can still fire and, if the attempt gets under
      way, the previous channel has been dropped. */
  predicate SafeToStart(s: State, r: ConnectResult) {
    s.phase.Disconnected? &&
    (r.Fatal? || (s.timers == {} && s.stale == {} && (r.Temporary? || s.resets == 0)))
  }

  ghost predicate DisciplinedFrom(s: State, es: seq<Event>)
    decreases |es|
  {
    es == [] || (DisciplinedFrom(s, es[..|es| - 1]) && Disciplined(Run(s, es[..|es| - 1]), es[|es| - 1]))
  }

  ghost predicate DisciplinedRun(es: seq<Event>) {
    DisciplinedFrom(Init(), es)
  }

  function Run(s: State, es: seq<Event>): State
    decreases |es|
  {
    if es == [] then s else Step(Run(s, es[..|es| - 1]), es[|es| - 1])
  }
}

module ConnectorTheorems {
  import opened Channels
  import opened Numbers
  import opened ConnectorModel

  function Pow2(n: nat): nat { if n == 0 then 1 else 2 * Pow2(n - 1) }

  ghost predicate AttemptOk(s: State) {
    && !s.fault
    && (s.phase.Connecting? <==> s.registered)
    && (s.registered ==> s.channel.Some? && s.resets == 0 && s.timers == {} && s.stale == {})
    && (s.channel.Some? ==> s.registered || s.resets == 1)
    && (s.resets != 0 ==> s.channel.Some?)
    && s.resets <= 1
    && (s.timers != {} ==> s.phase.Disconnected? && s.connect && s.timerId.Some? && s.timers == {s.timerId.value})
    && (s.stale != {} ==>
          s.phase.Disconnected? && s.timers == {} && s.resets == 0 && s.timerId.Some? && s.stale == {s.timerId.value})
    && (forall t | t in s.timers || t in s.stale :: t < s.nextTimer)
  }

  /** The socket of the current attempt is the only one still ours. */
  ghost predicate SocketsOk(s: State) {
    && (s.registered ==> s.channel.Some? && s.channel.value < |s.sockets|)
    && (forall k | 0 <= k < |s.sockets| ::
          s.sockets[k].Open? <==> s.registered && s.channel == Some(k))
  }

  ghost predicate BackoffOk(s: State) {
    && s.delay == Min(INIT_DELAY * Pow2(|s.delays|), MAX_DELAY)
    && (forall i | 0 <= i < |s.delays| :: s.delays[i] == Min(INIT_DELAY * Pow2(i), MAX_DELAY))
  }

  ghost predicate Inv(s: State) {
    AttemptOk(s) && SocketsOk(s) && BackoffOk(s)
  }

  /** Retry of a socket that is ours while nothing else is outstanding. */
  lemma RetryKeeps(s: State, k: nat)
    requires !s.fault && !s.registered && s.timers == {} && s.stale == {} && BackoffOk(s)
    requires k < |s.sockets| && forall j | 0 <= j < |s.sockets| :: s.sockets[j].Open? <==> j == k
    requires s.resets <= 1 && (s.channel.Some? <==> s.resets == 1)
    ensures Inv(Retry(s, k)) && Retry(s, k).phase.Disconnected?
  {
    BackoffStep(s.delay, |s.delays|);
  }

  lemma BackoffStep(d: nat, n: nat)
    requires d == Min(INIT_DELAY * Pow2(n), MAX_DELAY)
    ensures Min(d * 2, MAX_DELAY) == Min(INIT_DELAY * Pow2(n + 1), MAX_DELAY)
  {
    assert INIT_DELAY * Pow2(n + 1) == 2 * (INIT_DELAY * Pow2(n));
  }

  lemma StartKeeps(s: State, r: ConnectResult)
    requires Inv(s) && s.phase.Disconnected? && s.resets == 0 && s.timers == {} && s.stale == {}
    ensures Inv(StartInLoop(s, r))
  {
    if s.connect && r.Temporary? {
      RetryKeeps(s.(sockets := s.sockets + [Open]), |s.sockets|);
    }
  }

  lemma HandlersKeep(s: State, err: bool, selfConnect: bool)
    requires Inv(s)
    ensures s.registered ==> Inv(HandleError(s)) && !HandleError(s).registered
    ensures Inv(HandleWrite(s, err, selfConnect)) && !HandleWrite(s, err, selfConnect).registered
  {
    if s.registered {
      RetryKeeps(RemoveChannel(s), s.channel.value);
    }
  }

  /** Both callbacks of one report: after the first has run the second finds nothing to do. */
  lemma ReadyKeeps(s: State, flags: set<Flag>, err: bool, selfConnect: bool)
    requires Inv(s) && s.registered
    ensures Inv(Call(s, Dispatch(flags), err, selfConnect))
  {
    var error := Err in flags || Nval in flags;
    var s1 := if error then HandleError(s) else s;
    HandlersKeep(s, err, selfConnect);
    HandlersKeep(s1, err, selfConnect);
    CallErrorWrite(s, flags, err, selfConnect);
  }

  /** Of the four callbacks a connector sets two. */
  lemma CallErrorWrite(s: State, flags: set<Flag>, err: bool, selfConnect: bool)
    requires !s.fault && !HandleError(s).fault
    ensures var s1 := if Err in flags || Nval in flags then HandleError(s) else s;
      Call(s, Dispatch(flags), err, selfConnect) == if Out in flags then HandleWrite(s1, err, selfConnect) else s1
  {
    var c := if Hup in flags && In !in flags then [CloseCallback] else [];
    var e := if Err in flags || Nval in flags then [ErrorCallback] else [];
    var r := if In in flags || Pri in flags || RdHup in flags then [ReadCallback] else [];
    var w := if Out in flags then [WriteCallback] else [];
    assert Dispatch(flags) == c + (e + (r + w));
    var s1 := if e != [] then HandleError(s) else s;
    CallConcat(s, c, e + (r + w), err, selfConnect);
    CallAtMostOne(s, c, err, selfConnect);
    CallConcat(s, e, r + w, err, selfConnect);
    CallAtMostOne(s, e, err, selfConnect);
    CallConcat(s1, r, w, err, selfConnect);
    CallAtMostOne(s1, r, err, selfConnect);
    CallAtMostOne(s1, w, err, selfConnect);
  }

  lemma CallAtMostOne(s: State, cs: seq<Callback>, err: bool, selfConnect: bool)
    requires !s.fault && |cs| <= 1
    ensures Call(s, cs, err, selfConnect) ==
      if cs == [ErrorCallback] then HandleError(s)
      else if cs == [WriteCallback] then HandleWrite(s, err, selfConnect)
      else s
  {
    if cs != [] {
      assert cs == [cs[0]];
      assert cs[1..] == [];
    }
  }

  lemma {:induction false} CallConcat(s: State, a: seq<Callback>, b: seq<Callback>, err: bool, selfConnect: bool)
    ensures Call(s, a + b, err, selfConnect) == Call(Call(s, a, err, selfConnect), b, err, selfConnect)
    decreases |a|
  {
    if a == [] {
      assert a + b == b;
    } else if !s.fault {
      assert (a + b)[0] == a[0] && (a + b)[1..] == a[1..] + b;
      var s1 := match a[0]
        case ErrorCallback => HandleError(s)
        case WriteCallback => HandleWrite(s, err, selfConnect)
        case _ => s;
      CallConcat(s1, a[1..], b, err, selfConnect);
    }
  }

  lemma StepInv(s: State, e: Event)
    requires Inv(s) && Disciplined(s, e)
    ensures Inv(Step(s, e))
  {
    match e
    case Start(r) => StartKeeps(s.(connect := true), r);
    case Restart(r) =>
      StartKeeps(s.(phase := Disconnected, delay := INIT_DELAY, connect := true, delays := []), r);
    case Stop(_) =>
    case Ready(flags, err, self) => ReadyKeeps(s, flags, err, self);
    case TimerFires(t, r) =>
      if t in s.timers || t in s.stale {
        assert s.timers - {t} == {} && s.stale - {t} == {};
        StartKeeps(s.(timers := {}, stale := {}), r);
      }
    case Drain =>
  }

  lemma {:induction false} RunInvFrom(s: State, es: seq<Event>)
    requires Inv(s) && DisciplinedFrom(s, es)
    ensures Inv(Run(s, es))
    decreases |es|
  {
    if es != [] {
      RunInvFrom(s, es[..|es| - 1]);
      StepInv(Run(s, es[..|es| - 1]), es[|es| - 1]);
    }
  }

  lemma RunInv(es: seq<Event>)
    requires DisciplinedRun(es)
    ensures Inv(Run(Init(), es))
  {
    RunInvFrom(Init(), es);
  }

  /** In every disciplined run no assertion fails, at most one attempt is outstanding (a
      registered socket or one retry timer, never both), and every socket that is not being
      connected has been closed or handed over exactly once, even when one report runs both the
      error and the write callback. */
  lemma OneAttempt(es: seq<Event>)
    requires DisciplinedRun(es)
    ensures var s := Run(Init(), es);
      && !s.fault
      && (if s.registered then 1 else 0) + |s.timers| + |s.stale| <= 1
      && (forall k | 0 <= k < |s.sockets| :: s.sockets[k].Open? <==> s.registered && s.channel == Some(k))
  {
    RunInv(es);
  }

  /** What one report does to the socket being connected: it is handed over exactly when the
      report is for writability alone, the socket has no error and is not connected to itself,
      and the connection is still wanted; otherwise it is closed, and retried if still wanted,
      unless the report carries neither an error nor writability. */
  ghost predicate Outcome(s: State, flags: set<Flag>, err: bool, selfConnect: bool, t: State) {
    var failed := Err in flags || Nval in flags;
    && s.channel.Some? && s.channel.value < |s.sockets| == |t.sockets|
    && (t.sockets[s.channel.value] == Given <==> !failed && Out in flags && !err && !selfConnect && s.connect)
    && (t.sockets[s.channel.value] == Open <==> !failed && Out !in flags)
    && (t.timers != {} <==> s.connect && (failed || (Out in flags && (err || selfConnect))))
    && (t.phase.Connected? <==> !failed && Out in flags && !err && !selfConnect)
  }

  lemma InvOutcome(s: State, flags: set<Flag>, err: bool, selfConnect: bool)
    requires Inv(s) && s.registered
    ensures Outcome(s, flags, err, selfConnect, Step(s, Ready(flags, err, selfConnect)))
  {
    HandlersKeep(s, err, selfConnect);
    CallErrorWrite(s, flags, err, selfConnect);
    assert s.nextTimer in s.timers + {s.nextTimer};
  }

  lemma ReportOutcome(es: seq<Event>, flags: set<Flag>, err: bool, selfConnect: bool)
    requires DisciplinedRun(es) && Run(Init(), es).registered
    ensures var s := Run(Init(), es); Outcome(s, flags, err, selfConnect, Step(s, Ready(flags, err, selfConnect)))
  {
    RunInv(es);
    InvOutcome(Run(Init(), es), flags, err, selfConnect);
  }

  /** An attempt begins: one socket is made; it is being connected, or closed with a retry timer
      set, or closed for good, as connect(2) says. */
  ghost predicate Attempted(s: State, r: ConnectResult, t: State) {
    && |t.sockets| == |s.sockets| + 1 && t.sockets[..|s.sockets|] == s.sockets
    && (t.registered <==> r.InProgress?) && (t.phase.Connecting? <==> r.InProgress?)
    && (r.InProgress? ==> t.channel == Some(|s.sockets|) && t.sockets[|s.sockets|] == Open)
    && (!r.InProgress? ==> t.sockets[|s.sockets|] == Closed)
    && (s.nextTimer in t.timers <==> r.Temporary?)
    && |t.delays| == (if r.Temporary? then 1 else 0) + |s.delays|
  }

  /** A safe start, a restart, and a retry timer while the connection is wanted each begin an
      attempt; a retry timer after stop does not. */
  lemma AttemptBegins(es: seq<Event>, e: Event, r: ConnectResult)
    requires DisciplinedRun(es) && Disciplined(Run(Init(), es), e)
    ensures var s := Run(Init(), es); var t := Step(s, e);
      && (e == Start(r) ==> t.connect && Attempted(s, r, t))
      && (e == Restart(r) ==> t.connect && Attempted(s.(delays := []), r, t))
      && (e.TimerFires? && e.r == r && (e.timer in s.timers || e.timer in s.stale) ==>
            && e.timer !in t.timers && e.timer !in t.stale && t.connect == s.connect
            && if s.connect then Attempted(s, r, t) else t.sockets == s.sockets && !t.registered && t.timers == {})
  {
    RunInv(es);
  }

  /** stop ends the wish to connect and leaves sockets alone; the functors of an iteration drop the
      channel that is out of the poller. */
  lemma StopAndDrain(es: seq<Event>, late: bool)
    requires DisciplinedRun(es)
    ensures var s := Run(Init(), es); var t := Step(s, Stop(late)); var d := Step(s, Drain);
      && !t.connect && t.timers == {} && t.sockets == s.sockets && t.registered == s.registered && t.phase == s.phase
      && (t.stale == if late && s.resets == 0 then s.timers + s.stale else s.stale)
      && d.resets == 0 && d.stale == {} && (d.channel.Some? <==> s.registered)
      && d.sockets == s.sockets && d.timers == s.timers && d.connect == s.connect && d.phase == s.phase
  {
    RunInv(es);
  }

  /** The i-th retry since construction or restart waits min(500 * 2^i, 30000) milliseconds. */
  lemma Backoff(es: seq<Event>, i: nat)
    requires DisciplinedRun(es) && i < |Run(Init(), es).delays|
    ensures Run(Init(), es).delays[i] == Min(500 * Pow2(i), 30_000)
  {
    RunInv(es);
  }

  /** A socket once closed or handed over stays so. */
  predicate Settled(s: State, t: State) {
    && |s.sockets| <= |t.sockets|
    && (forall k | 0 <= k < |s.sockets| && !s.sockets[k].Open? :: t.sockets[k] == s.sockets[k])
  }

  /** While connect_ is false no socket is handed over. */
  ghost predicate NoneGiven(s: State, t: State) {
    && Settled(s, t) && !t.connect
    && (forall k | 0 <= k < |t.sockets| && t.sockets[k].Given? :: k < |s.sockets| && s.sockets[k].Given?)
  }

  lemma QuietStep(s: State, e: Event)
    requires Inv(s) && Disciplined(s, e) && !s.connect && !e.Start? && !e.Restart?
    ensures NoneGiven(s, Step(s, e))
  {
    match e
    case Ready(flags, err, self) =>
      HandlersKeep(s, err, self);
      CallErrorWrite(s, flags, err, self);
    case _ =>
  }

  /** After stop nothing is handed over until start or restart. */
  lemma {:induction false} NothingAfterStop(before: seq<Event>, late: bool, after: seq<Event>)
    requires DisciplinedRun(before + [Stop(late)] + after)
    requires forall e | e in after :: !e.Start? && !e.Restart?
    ensures NoneGiven(Run(Init(), before + [Stop(late)]), Run(Init(), before + [Stop(late)] + after))
    decreases |after|
  {
    var es := before + [Stop(late)] + after;
    if after == [] {
      assert es == before + [Stop(late)];
      assert es[..|es| - 1] == before;
      RunInv(before);
    } else {
      var a' := after[..|after| - 1];
      assert es[..|es| - 1] == before + [Stop(late)] + a';
      assert forall e | e in a' :: e in after;
      NothingAfterStop(before, late, a');
      RunInv(before + [Stop(late)] + a');
      assert es[|es| - 1] == after[|after| - 1];
      QuietStep(Run(Init(), before + [Stop(late)] + a'), after[|after| - 1]);
    }
  }

  /** When start() itself trips an assertion: unless the connector is disconnected, or when the
      attempt gets under way before the functor that drops the previous channel has run. */
  lemma StartFaultsIff(es: seq<Event>, r: ConnectResult)
    requires DisciplinedRun(es)
    ensures var s := Run(Init(), es);
      Step(s, Start(r)).fault <==> !s.phase.Disconnected? || (r.InProgress? && s.resets != 0)
  {
    RunInv(es);
  }

  lemma SafeStartKeeps(s: State, r: ConnectResult)
    requires Inv(s) && SafeToStart(s, r)
    ensures Inv(Step(s, Start(r)))
  {
    if r.Temporary? {
      RetryKeeps(s.(connect := true, sockets := s.sockets + [Open]), |s.sockets|);
    }
  }

  lemma RunOne(s: State, e: Event)
    ensures Run(s, [e]) == Step(s, e) && (Disciplined(s, e) ==> DisciplinedFrom(s, [e]))
  {
    assert [e][..0] == [];
  }

  lemma RunSnoc(s: State, es: seq<Event>, e: Event)
    ensures Run(s, es + [e]) == Step(Run(s, es), e)
    ensures DisciplinedFrom(s, es) && Disciplined(Run(s, es), e) ==> DisciplinedFrom(s, es + [e])
  {
    assert (es + [e])[..|es|] == es;
  }

  /** Two timers that can both fire: the first gets an attempt under way, the second asserts. */
  lemma TwoTimersFault(s: State, i: nat, j: nat)
    requires !s.fault && s.phase.Disconnected? && s.connect && s.resets == 0 && s.channel.None? && i != j
    requires (i in s.timers || i in s.stale) && (j in s.timers || j in s.stale)
    ensures var es := [TimerFires(i, InProgress)] + [TimerFires(j, InProgress)];
      DisciplinedFrom(s, es) && Run(s, es).fault
  {
    RunOne(s, TimerFires(i, InProgress));
    RunSnoc(s, [TimerFires(i, InProgress)], TimerFires(j, InProgress));
  }

  /** A disciplined continuation in which an assertion fails. */
  ghost predicate Breaks(s: State, es: seq<Event>) {
    DisciplinedFrom(s, es) && Run(s, es).fault
  }

  lemma {:induction false} RunConcat(s: State, a: seq<Event>, b: seq<Event>)
    requires DisciplinedFrom(s, a) && DisciplinedFrom(Run(s, a), b)
    ensures Run(s, a + b) == Run(Run(s, a), b) && DisciplinedFrom(s, a + b)
    decreases |b|
  {
    if b == [] {
      assert a + b == a;
    } else {
      assert (a + b)[..|a + b| - 1] == a + b[..|b| - 1];
      RunConcat(s, a, b[..|b| - 1]);
    }
  }

  lemma UnsafeStartBreaks(s: State, r: ConnectResult) returns (es: seq<Event>)
    requires Inv(s) && !SafeToStart(s, r)
    ensures Breaks(Step(s, Start(r)), es)
  {
    var t := Step(s, Start(r));
    if t.fault {
      es := [];
    } else {
      var i :| i in s.timers || i in s.stale;
      if r.InProgress? {
        es := [TimerFires(i, InProgress)];
        RunOne(t, TimerFires(i, InProgress));
      } else if s.resets == 0 {
        TwoTimersFault(t, i, s.nextTimer);
        es := [TimerFires(i, InProgress)] + [TimerFires(s.nextTimer, InProgress)];
      } else {
        var d := Step(t, Drain);
        RunOne(t, Drain);
        TwoTimersFault(d, i, s.nextTimer);
        es := [TimerFires(i, InProgress)] + [TimerFires(s.nextTimer, InProgress)];
        RunConcat(t, [Drain], es);
        es := [Drain] + es;
      }
    }
  }

  /** After a disciplined run, start() is followed by no failed assertion in any disciplined
      continuation if and only if it is safe. */
  lemma StartSafeIff(es: seq<Event>, r: ConnectResult)
    requires DisciplinedRun(es)
    ensures var s := Run(Init(), es); var t := Step(s, Start(r));
      (forall more | DisciplinedFrom(t, more) :: !Run(t, more).fault) <==> SafeToStart(s, r)
  {
    var s := Run(Init(), es);
    var t := Step(s, Start(r));
    RunInv(es);
    if SafeToStart(s, r) {
      SafeStartKeeps(s, r);
      forall more | DisciplinedFrom(t, more)
        ensures !Run(t, more).fault
      {
        RunInvFrom(t, more);
      }
    } else {
      var more := UnsafeStartBreaks(s, r);
      assert DisciplinedFrom(t, more) && Run(t, more).fault;
    }
  }

  /** The outcome of connect(2) is not known beforehand. Over all outcomes start() is safe if and
      only if the connector is disconnected, no retry timer can fire and the old channel has been
      dropped. */
  lemma StartAlwaysSafeIff(es: seq<Event>)
    requires DisciplinedRun(es)
    ensures var s := Run(Init(), es);
      (forall r, more | DisciplinedFrom(Step(s, Start(r)), more) :: !Run(Step(s, Start(r)), more).fault) <==>
        s.phase.Disconnected? && s.timers == {} && s.stale == {} && s.resets == 0
  {
    var s := Run(Init(), es);
    StartSafeIff(es, InProgress);
    if SafeToStart(s, InProgress) {
      forall r, more | DisciplinedFrom(Step(s, Start(r)), more)
        ensures !Run(Step(s, Start(r)), more).fault
      {
        StartSafeIff(es, r);
      }
    } else {
      var t := Step(s, Start(InProgress));
      var more :| DisciplinedFrom(t, more) && Run(t, more).fault;
    }
  }

  /** A callback that runs before the retry timer's in the same batch stops and starts the
      connector: the cancelled timer still fires and trips the assertion. */
  lemma StopStartInBatchFails()
    ensures var s1 := Step(Init(), Start(Temporary));
      var s2 := Step(s1, Stop(true));
      var s3 := Step(s2, Start(InProgress));
      && Disciplined(Init(), Start(Temporary)) && Disciplined(s1, Stop(true))
      && s2.timers == {} && s2.stale == {0} && !s3.fault && s3.registered
      && Step(s3, TimerFires(0, InProgress)).fault
  {
    var s1 := Step(Init(), Start(Temporary));
    assert s1.sockets == [Closed] && s1.timers == {0};
  }

  /** Without the discipline: a second start while a retry timer is pending makes two attempts,
      and the timer then trips the assertion of startInLoop. */
  lemma EagerStartFails()
    ensures var s1 := Step(Init(), Start(Temporary));
      var s2 := Step(s1, Start(InProgress));
      var s3 := Step(s2, TimerFires(0, InProgress));
      !s2.fault && s2.registered && s2.timers == {0} && s3.fault
  {
    var s1 := Step(Init(), Start(Temporary));
    assert s1.sockets == [Closed] && s1.timers == {0};
  }
}
