/** What each event does to the output of a connection, to its state and to its channel, stated in
    terms of the bytes unsent before and after. */
module OutputTheorems {
  import opened Numbers
  import opened BufferModel
  import opened ConnectionStatus
  import opened ConnectionModel
  import opened ConnectionTheorems

  // ---- handleWrite ------------------------------------------------------------------------------

  /** How many unsent bytes a writable socket takes. */
  function Accepts(s: State, r: int): nat
    requires s.out.Ok()
  {
    if s.writing && s.halfCloses == [] && 0 < r then Min(r, |Unsent(s)|) else 0
  }

  /** The last unsent byte has gone. */
  predicate Emptied(s: State, t: State)
    requires s.out.Ok() && t.out.Ok()
  {
    Unsent(s) != [] && Unsent(t) == []
  }

  /** What handleWrite brings about. */
  ghost predicate Written(s: State, r: int, t: State) {
    && s.out.Ok() && t.out.Ok()
    && var n := Accepts(s, r);
    && t.wire == s.wire + Unsent(s)[..n] && Unsent(t) == Unsent(s)[n..]
    && t.completions == s.completions + (if Emptied(s, t) then [Completion(|t.wire|, |t.stream|)] else [])
    && |t.halfCloses| == |s.halfCloses| + (if Emptied(s, t) && s.status.Disconnecting? then 1 else 0)
    && (t.writing <==> s.writing && !Emptied(s, t))
    && t.queue == s.queue && t.midway == s.midway && t.status == s.status && t.reading == s.reading
  }

  lemma HandleWriteExact(s: State, r: int)
    requires s.out.Ok()
    ensures Written(s, r, HandleWrite(s, r))
  {
    var n := Accepts(s, r);
    var t := HandleWrite(s, r);
    if n == 0 {
      NothingTaken(s, r);
    } else {
      SomeTaken(s, r);
    }
  }

  lemma NothingTaken(s: State, r: int)
    requires s.out.Ok() && Accepts(s, r) == 0
    ensures HandleWrite(s, r) == s && s.wire == s.wire + Unsent(s)[..0] && Unsent(s) == Unsent(s)[0..]
  {}

  lemma SomeTaken(s: State, r: int)
    requires s.out.Ok() && 0 < Accepts(s, r)
    ensures Written(s, r, HandleWrite(s, r))
  {
    var n := Accepts(s, r);
    assert Write(s, r, s.out.Readable()) == n;
    assert s.out.(reader := s.out.reader + n).Content() == Unsent(s)[n..];
  }

  /** A writable event: the socket takes what it can of the unsent bytes; one write-complete callback
      is queued, and the write side shut down if shutdown has been called, exactly when this takes
      the unsent bytes from some to none. */
  lemma WritableExact(s: State, r: int)
    requires Reachable(s) && !s.aborted
    ensures Written(s, r, Step(s, Writable(r)))
  {
    ReachableInv(s);
    HandleWriteExact(s, r);
  }

  // ---- sendInLoop -------------------------------------------------------------------------------

  /** Nothing is waiting, so that sendInLoop writes directly. */
  predicate Idle(s: State)
    requires s.out.Ok()
  {
    !s.writing && Unsent(s) == []
  }

  /** How many bytes of a message the socket takes directly. */
  function Direct(s: State, bytes: seq<byte>, r: int): nat
    requires s.out.Ok()
  {
    if Idle(s) && s.halfCloses == [] && 0 < r then Min(r, |bytes|) else 0
  }

  /** What sendInLoop of `m` brings about; a write-complete callback is queued exactly when the
      whole message was written directly. */
  ghost predicate SentExactly(s: State, m: Message, r: int, t: State) {
    && s.out.Ok() && t.out.Ok()
    && var n := Direct(s, m.bytes, r);
    && t.wire == s.wire + m.bytes[..n]
    && t.taken == s.taken + [m]
    && (!t.aborted ==> Unsent(t) == Unsent(s) + m.bytes[n..] && (t.writing <==> s.writing || n < |m.bytes|))
    && t.completions == s.completions +
         (if Idle(s) && s.halfCloses == [] && |m.bytes| <= r then [Completion(|t.wire|, |t.stream|)] else [])
    && t.halfCloses == s.halfCloses && t.status == s.status && t.reading == s.reading
    && t.queue == s.queue && t.midway == s.midway
  }

  lemma SendInLoopExact(s: State, m: Message, r: int)
    requires s.out.Ok() && !s.aborted
    ensures SentExactly(s, m, r, SendInLoop(s, m, r))
  {
    if Idle(s) && s.halfCloses == [] && |m.bytes| <= r {
      SentWhole(s, m, r);
    } else if 0 < Direct(s, m.bytes, r) {
      SentPart(s, m, r);
    } else {
      SentNothing(s, m, r);
    }
  }

  lemma SentWhole(s: State, m: Message, r: int)
    requires s.out.Ok() && !s.aborted && Idle(s) && s.halfCloses == [] && |m.bytes| <= r
    ensures SentExactly(s, m, r, SendInLoop(s, m, r))
  {
    assert Write(s, r, |m.bytes|) == |m.bytes| == Direct(s, m.bytes, r);
    assert m.bytes[|m.bytes|..] == [] && Unsent(s) + [] == Unsent(s);
  }

  lemma SentPart(s: State, m: Message, r: int)
    requires s.out.Ok() && !s.aborted && 0 < Direct(s, m.bytes, r) && r < |m.bytes|
    ensures SentExactly(s, m, r, SendInLoop(s, m, r))
  {
    assert Write(s, r, |m.bytes|) == r == Direct(s, m.bytes, r);
    var s2 := Take(s, m).(wire := s.wire + m.bytes[..r]);
    assert SendInLoop(s, m, r) == Keep(s2, m.bytes[r..]);
    KeepStream(s2, m.bytes[r..]);
  }

  lemma SentNothing(s: State, m: Message, r: int)
    requires s.out.Ok() && !s.aborted && Direct(s, m.bytes, r) == 0
    requires !(Idle(s) && s.halfCloses == [] && |m.bytes| <= r)
    ensures SentExactly(s, m, r, SendInLoop(s, m, r))
  {
    assert m.bytes[0..] == m.bytes && s.wire + m.bytes[..0] == s.wire;
    assert SendInLoop(s, m, r) == Keep(Take(s, m), m.bytes) by {
      assert Take(s, m).(wire := s.wire + m.bytes[..0]) == Take(s, m);
    }
    KeepStream(Take(s, m), m.bytes);
  }

  /** The two steps that run sendInLoop. */
  lemma SendsExact(s: State, e: Event)
    requires Reachable(s) && !s.aborted
    ensures e.RunTask? && s.queue != [] && s.queue[0].SendTask? ==>
      SentExactly(s.(queue := s.queue[1..]), s.queue[0].message, e.r, Step(s, e))
    ensures e.SendHere? && s.status.Connected? ==>
      SentExactly(s, Message(LoopThread, e.bytes), e.r, Step(s, e))
  {
    ReachableInv(s);
    if e.RunTask? && s.queue != [] && s.queue[0].SendTask? {
      SendInLoopExact(s.(queue := s.queue[1..]), s.queue[0].message, e.r);
    } else if e.SendHere? {
      SendInLoopExact(Accepted(s, e.bytes), Message(LoopThread, e.bytes), e.r);
    }
  }

  /** No other step touches the output. */
  lemma OthersKeepOutput(s: State, e: Event)
    requires Reachable(s) && !s.aborted && !e.Writable?
    requires !(e.RunTask? && s.queue != [] && s.queue[0].SendTask?) && !(e.SendHere? && s.status.Connected?)
    ensures var t := Step(s, e);
      t.wire == s.wire && t.out == s.out && t.completions == s.completions && t.taken == s.taken && !t.aborted
  {
    match e
    case Continue(t) => ProceedKeepsOutput(s, t);
    case _ =>
  }

  lemma ProceedKeepsOutput(s: State, t: nat)
    ensures var r := Proceed(s, t);
      r.wire == s.wire && r.out == s.out && r.completions == s.completions && r.taken == s.taken && r.aborted == s.aborted
  {}

  // ---- the half-close ---------------------------------------------------------------------------

  /** shutdownInLoop runs, posted or at once, while the channel is not writing. */
  predicate RunsShutdown(s: State, e: Event) {
    && !s.writing
    && ((e.RunTask? && s.queue != [] && s.queue[0].ShutdownTask?) || (e.ShutdownHere? && s.status.Connected?))
  }

  /** handleWrite sends the last unsent byte after shutdown. */
  predicate DrainsAfterShutdown(s: State, e: Event) {
    e.Writable? && s.status.Disconnecting? && s.out.Ok() && Unsent(s) != [] && Accepts(s, e.r) == |Unsent(s)|
  }

  /** When the write side is shut down: exactly when shutdownInLoop runs, posted or at once, with the
      channel not writing, or when handleWrite sends the last unsent byte after shutdown. */
  lemma HalfCloseIff(s: State, e: Event)
    requires Reachable(s) && !s.aborted
    ensures |Step(s, e).halfCloses| == |s.halfCloses| + if RunsShutdown(s, e) || DrainsAfterShutdown(s, e) then 1 else 0
  {
    ReachableInv(s);
    SendsExact(s, e);
    if e.Writable? { WritableExact(s, e.r); }
  }

  // ---- the state and the channel ----------------------------------------------------------------

  /** The state changes exactly as follows. */
  function NextStatus(s: State, e: Event): Status {
    if e.Establish? && s.status.Connecting? then Connected
    else if e.ShutdownHere? && s.status.Connected? then Disconnecting
    else if e.Continue? && e.thread in s.midway && s.midway[e.thread].ToSet? then Disconnecting
    else if e.Destroy? && (s.status.Connected? || s.status.Disconnecting?) then Disconnected
    else s.status
  }

  lemma StatusExact(s: State, e: Event)
    requires Reachable(s) && !s.aborted
    ensures Step(s, e).status == NextStatus(s, e)
  {
    match e
    case RunTask(r) =>
      ReachableInv(s);
      if s.queue == [] || s.queue[0].ShutdownTask? { RunKeepsStatus(s, r); } else { SendsExact(s, e); }
    case SendHere(_, _) => SendsExact(s, e);
    case Writable(r) => WritableExact(s, r);
    case _ =>
      ReachableInv(s);
      QuietStatus(s, e);
  }

  lemma RunKeepsStatus(s: State, r: int)
    requires s.out.Ok() && (s.queue == [] || s.queue[0].ShutdownTask?)
    ensures RunFirst(s, r).status == s.status
  {}

  lemma QuietStatus(s: State, e: Event)
    requires s.out.Ok() && !s.aborted && !e.RunTask? && !e.SendHere? && !e.Writable?
    ensures Step(s, e).status == NextStatus(s, e)
  {}

  /** Input is watched exactly from connectEstablished to handleClose or connectDestroyed. */
  ghost predicate ReadingOk(s: State) {
    (s.reading <==> !s.status.Connecting? && !s.closed) && (s.status.Connecting? ==> !s.closed)
  }

  lemma ReadingStep(s: State, e: Event)
    requires Inv(s) && ReadingOk(s)
    ensures ReadingOk(Step(s, e))
  {
    if !s.aborted {
      match e
      case RunTask(r) =>
        if s.queue != [] && s.queue[0].SendTask? {
          SendKeepsClosed(s.(queue := s.queue[1..]), s.queue[0].message, r);
        }
      case SendHere(bytes, r) => SendKeepsClosed(Accepted(s, bytes), Message(LoopThread, bytes), r);
      case Writable(r) => HandleWriteStream(s, r);
      case Continue(t) => assert s.status.Connecting? ==> s.midway == map[];
      case _ =>
    }
  }

  lemma SendKeepsClosed(s: State, m: Message, r: int)
    requires StreamOk(s) && !s.aborted
    ensures var t := SendInLoop(s, m, r); t.closed == s.closed && t.status == s.status && t.reading == s.reading
  {
    SendStream(s, m, r);
  }

  lemma {:induction false} ReadingRun(es: seq<Event>)
    ensures ReadingOk(Run(Init(), es))
    decreases |es|
  {
    if es != [] {
      ReadingRun(es[..|es| - 1]);
      RunInv(es[..|es| - 1]);
      ReadingStep(Run(Init(), es[..|es| - 1]), es[|es| - 1]);
    }
  }

  lemma ReadingExact(s: State)
    requires Reachable(s)
    ensures s.reading <==> !s.status.Connecting? && !s.closed
  {
    var es :| s == Run(Init(), es);
    ReadingRun(es);
  }

  // ---- calls on other threads -------------------------------------------------------------------

  /** A call of send that nobody interrupts posts its message, and one of shutdown sets the state and
      posts its functor, exactly if the connection is connected; otherwise nothing happens. */
  lemma CallsPost(s: State, t: nat, bytes: seq<byte>)
    requires Reachable(s) && !s.aborted && t !in s.midway
    ensures var sent := Step(Step(s, Send(t, bytes)), Continue(t));
      if s.status.Connected?
      then sent.queue == s.queue + [SendTask(Message(Thread(t), bytes))] && sent.midway == s.midway && sent.status == s.status
      else sent == s
    ensures var shut := Step(Step(Step(s, Shutdown(t)), Continue(t)), Continue(t));
      if s.status.Connected?
      then shut.queue == s.queue + [ShutdownTask] && shut.midway == s.midway && shut.status == Disconnecting
      else shut == s
  {
    ReachableInv(s);
    assert s.midway[t := ToSend(bytes)] - {t} == s.midway;
    assert s.midway[t := ToSet][t := ToPost] - {t} == s.midway;
  }

  /** The functors are run in the order of the queue, one at a time. */
  lemma QueueExact(s: State, e: Event)
    requires Reachable(s) && !s.aborted
    ensures e.RunTask? && s.queue != [] ==> Step(s, e).queue == s.queue[1..]
    ensures !e.RunTask? && !e.Continue? ==> Step(s, e).queue == s.queue
  {
    ReachableInv(s);
    SendsExact(s, e);
    if e.Writable? { WritableExact(s, e.r); }
  }
}
