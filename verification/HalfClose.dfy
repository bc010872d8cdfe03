/** When a half-close cuts off data that send has accepted, and when a thread that calls shutdown
    can rule that out. */
module HalfCloseTheorems {
  import opened BufferModel
  import opened ConnectionStatus
  import opened ConnectionModel
  import opened ConnectionTheorems

  // ---- runs that begin anywhere -------------------------------------------------------------

  ghost predicate Good(s: State) {
    Inv(s) && ProgramOk(s)
  }

  lemma {:induction false} RunGood(s: State, es: seq<Event>)
    requires Good(s)
    ensures Good(Run(s, es))
    decreases |es|
  {
    if es != [] {
      var before := Run(s, es[..|es| - 1]);
      RunGood(s, es[..|es| - 1]);
      StepInv(before, es[|es| - 1]);
      StepProgram(before, es[|es| - 1]);
    }
  }

  lemma ReachableGood(s: State)
    requires Reachable(s)
    ensures Good(s)
  {
    var es :| s == Run(Init(), es);
    RunInv(es);
    RunProgram(es);
  }

  lemma {:induction false} RunConcat(s: State, a: seq<Event>, b: seq<Event>)
    ensures Run(s, a + b) == Run(Run(s, a), b)
    decreases |b|
  {
    if b == [] {
      assert a + b == a;
    } else {
      assert (a + b)[..|a + b| - 1] == a + b[..|b| - 1];
      RunConcat(s, a, b[..|b| - 1]);
    }
  }

  lemma RunOne(s: State, e: Event)
    ensures Run(s, [e]) == Step(s, e)
  {
    assert [e][..0] == [];
  }

  // ---- what has arrived ---------------------------------------------------------------------

  /** Everything given to sendInLoop is on the wire, and of the messages that send calls on other
      threads have accepted only empty ones have not been given to it. */
  ghost predicate Delivered(s: State) {
    && s.wire == Flatten(s.taken)
    && (forall t: nat :: EmptyFrom(OfThread(s.calls, t), |OfThread(s.taken, t)|))
  }

  /** All messages of `bs` from position `k` on are empty. */
  ghost predicate EmptyFrom(bs: seq<seq<byte>>, k: nat) {
    forall i | k <= i < |bs| :: bs[i] == []
  }

  /** No byte waits in a posted functor, or in a call of send that has passed its test. */
  ghost predicate NothingWaiting(s: State) {
    && (forall x | x in s.queue && x.SendTask? :: x.message.bytes == [])
    && (forall t | t in s.midway && s.midway[t].ToSend? :: s.midway[t].bytes == [])
  }

  lemma {:induction false} OfThreadConcat(a: seq<Message>, b: seq<Message>, t: nat)
    ensures OfThread(a + b, t) == OfThread(a, t) + OfThread(b, t)
    decreases |b|
  {
    if b == [] {
      assert a + b == a;
    } else {
      assert (a + b)[..|a + b| - 1] == a + b[..|b| - 1];
      OfThreadConcat(a, b[..|b| - 1], t);
    }
  }

  /** What a thread has sent: taken, then posted, then about to be posted. */
  lemma Decompose(s: State, t: nat)
    requires Good(s)
    ensures OfThread(s.calls, t) == OfThread(s.taken, t) + (OfThread(Sends(s.queue), t) + InFlight(s.midway, t))
  {
    OfThreadFromThreads(s.taken, t);
    OfThreadConcat(FromThreads(s.taken), Sends(s.queue), t);
    assert OfThread(s.issued, t) + InFlight(s.midway, t) == OfThread(s.calls, t);
  }

  lemma {:induction false} SendsMembers(ts: seq<Task>)
    ensures forall m :: m in Sends(ts) <==> SendTask(m) in ts
    decreases |ts|
  {
    if ts != [] {
      SendsMembers(ts[1..]);
      assert ts == [ts[0]] + ts[1..];
    }
  }

  lemma {:induction false} OfThreadMembers(ms: seq<Message>, t: nat)
    ensures forall b :: b in OfThread(ms, t) <==> Message(Thread(t), b) in ms
    decreases |ms|
  {
    if ms != [] {
      OfThreadMembers(ms[..|ms| - 1], t);
      assert ms == ms[..|ms| - 1] + [ms[|ms| - 1]];
    }
  }

  /** No byte of thread `t` waits. */
  ghost predicate NothingOf(s: State, t: nat) {
    && (forall b | SendTask(Message(Thread(t), b)) in s.queue :: b == [])
    && (t in s.midway && s.midway[t].ToSend? ==> s.midway[t].bytes == [])
  }

  lemma EmptyFromConcat(a: seq<seq<byte>>, b: seq<seq<byte>>, c: seq<seq<byte>>)
    ensures EmptyFrom(a + (b + c), |a|) <==> (forall x | x in b :: x == []) && (forall x | x in c :: x == [])
  {
    var all := a + (b + c);
    forall i | |a| <= i < |all|
      ensures all[i] in b || all[i] in c
    {
      assert all[i] == if i - |a| < |b| then b[i - |a|] else c[i - |a| - |b|];
    }
    assert forall j | 0 <= j < |b| :: b[j] == all[|a| + j];
    assert forall j | 0 <= j < |c| :: c[j] == all[|a| + |b| + j];
  }

  lemma RestEmptyIff(s: State, t: nat)
    requires Good(s)
    ensures EmptyFrom(OfThread(s.calls, t), |OfThread(s.taken, t)|) <==> NothingOf(s, t)
  {
    Decompose(s, t);
    PostedMembers(s.queue, t);
    EmptyFromConcat(OfThread(s.taken, t), OfThread(Sends(s.queue), t), InFlight(s.midway, t));
    if t in s.midway && s.midway[t].ToSend? { assert s.midway[t].bytes in InFlight(s.midway, t); }
  }

  lemma PostedMembers(q: seq<Task>, t: nat)
    ensures forall b :: b in OfThread(Sends(q), t) <==> SendTask(Message(Thread(t), b)) in q
  {
    SendsMembers(q);
    OfThreadMembers(Sends(q), t);
  }

  lemma NothingByThread(s: State)
    requires forall x | x in s.queue && x.SendTask? :: x.message.sender.Thread?
    ensures NothingWaiting(s) <==> forall t: nat :: NothingOf(s, t)
  {
    if forall t: nat :: NothingOf(s, t) {
      forall x | x in s.queue && x.SendTask?
        ensures x.message.bytes == []
      {
        assert NothingOf(s, x.message.sender.id);
        assert x == SendTask(Message(Thread(x.message.sender.id), x.message.bytes));
      }
      forall t | t in s.midway && s.midway[t].ToSend?
        ensures s.midway[t].bytes == []
      {
        assert NothingOf(s, t);
      }
    }
  }

  lemma DeliveredIff(s: State)
    requires Good(s)
    ensures Delivered(s) <==> s.wire == Flatten(s.taken) && NothingWaiting(s)
  {
    forall t: nat
      ensures EmptyFrom(OfThread(s.calls, t), |OfThread(s.taken, t)|) <==> NothingOf(s, t)
    {
      RestEmptyIff(s, t);
    }
    NothingByThread(s);
  }

  // ---- after the write side has been shut down ------------------------------------------------

  lemma KeepWire(s: State, rest: seq<byte>)
    requires s.out.Ok()
    ensures Keep(s, rest).wire == s.wire && Keep(s, rest).halfCloses == s.halfCloses
  {}

  lemma StepFrozen(s: State, e: Event)
    requires s.halfCloses != []
    ensures Step(s, e).wire == s.wire && s.halfCloses <= Step(s, e).halfCloses
  {
    if s.out.Ok() && !s.aborted {
      match e
      case SendHere(bytes, r) => KeepWire(Take(Accepted(s, bytes), Message(LoopThread, bytes)), bytes);
      case RunTask(r) =>
        if s.queue != [] && s.queue[0].SendTask? {
          KeepWire(Take(s.(queue := s.queue[1..]), s.queue[0].message), s.queue[0].message.bytes);
        }
      case _ =>
    }
  }

  /** After a half-close nothing reaches the wire any more, whatever happens. */
  lemma {:induction false} WireFrozen(s: State, es: seq<Event>)
    requires s.halfCloses != []
    ensures Run(s, es).wire == s.wire && s.halfCloses <= Run(s, es).halfCloses
    decreases |es|
  {
    if es != [] {
      WireFrozen(s, es[..|es| - 1]);
      StepFrozen(Run(s, es[..|es| - 1]), es[|es| - 1]);
    }
  }

  /** One step of the tail of a run: what is lost stays lost, and nothing more is. */
  ghost predicate Settled(s: State, r: State) {
    && r.wire == s.wire && r.calls == s.calls
    && (r.wire == Flatten(r.taken) && NothingWaiting(r) <==> s.wire == Flatten(s.taken) && NothingWaiting(s))
  }

  /** The messages taken, the functors and the calls are as they were. */
  lemma SameSettled(s: State, r: State)
    requires r.wire == s.wire && r.calls == s.calls && r.taken == s.taken && r.queue == s.queue && r.midway == s.midway
    ensures Settled(s, r)
  {}

  /** A functor is taken and its message given to sendInLoop. */
  lemma TakeSettled(s: State, r: State)
    requires Good(s) && !s.aborted && s.queue != [] && s.queue[0].SendTask?
    requires r.wire == s.wire && r.calls == s.calls && r.midway == s.midway && r.queue == s.queue[1..]
    requires r.taken == s.taken + [s.queue[0].message]
    ensures Settled(s, r)
  {
    var m := s.queue[0].message;
    assert s.queue == [s.queue[0]] + s.queue[1..];
    MessagesSnoc(s.taken, m);
    assert |s.wire + Unsent(s)| == |Flatten(s.taken)|;
    if m.bytes == [] {
      assert Flatten(s.taken) + m.bytes == Flatten(s.taken);
    }
  }

  lemma ShutdownSettled(s: State, r: State)
    requires s.queue != [] && s.queue[0].ShutdownTask?
    requires r.wire == s.wire && r.calls == s.calls && r.midway == s.midway && r.queue == s.queue[1..] && r.taken == s.taken
    ensures Settled(s, r)
  {
    assert s.queue == [s.queue[0]] + s.queue[1..];
  }

  /** No functor of `q` holds a byte. */
  ghost predicate QueueEmpty(q: seq<Task>) {
    forall x | x in q && x.SendTask? :: x.message.bytes == []
  }

  lemma QueueGrows(q: seq<Task>, x: Task)
    ensures QueueEmpty(q + [x]) <==> QueueEmpty(q) && (x.SendTask? ==> x.message.bytes == [])
  {
    assert x in q + [x];
    assert forall y | y in q :: y in q + [x];
  }

  /** No call of `m` holds a byte. */
  ghost predicate CallsEmpty(m: map<nat, Pc>) {
    forall t | t in m && m[t].ToSend? :: m[t].bytes == []
  }

  lemma CallEnds(m: map<nat, Pc>, t: nat)
    requires t in m
    ensures CallsEmpty(m) <==> CallsEmpty(m - {t}) && (m[t].ToSend? ==> m[t].bytes == [])
    ensures !m[t].ToSend? ==> (CallsEmpty(m[t := ToPost]) <==> CallsEmpty(m))
  {
    assert forall u | u in m && u != t :: u in m - {t} && (m - {t})[u] == m[u];
    assert forall u | u in m && u != t :: m[t := ToPost][u] == m[u];
  }

  lemma ProceedSettled(s: State, t: nat)
    ensures Settled(s, Proceed(s, t))
  {
    if t in s.midway {
      CallEnds(s.midway, t);
      QueueGrows(s.queue, ShutdownTask);
      if s.midway[t].ToSend? { QueueGrows(s.queue, SendTask(Message(Thread(t), s.midway[t].bytes))); }
      WaitingParts(s);
      WaitingParts(Proceed(s, t));
    }
  }

  lemma WaitingParts(s: State)
    ensures NothingWaiting(s) <==> QueueEmpty(s.queue) && CallsEmpty(s.midway)
  {}

  /** What sendInLoop does once the write side is shut. */
  lemma ShutSend(s: State, m: Message, r: int)
    requires s.out.Ok() && s.halfCloses != []
    ensures var t := SendInLoop(s, m, r);
      t.wire == s.wire && t.calls == s.calls && t.midway == s.midway && t.queue == s.queue && t.taken == s.taken + [m]
  {
    assert Write(s, r, |m.bytes|) == -1;
  }

  lemma StepSettled(s: State, e: Event)
    requires Good(s) && s.halfCloses != []
    ensures Settled(s, Step(s, e))
  {
    if !s.aborted {
      match e
      case RunTask(r) =>
        if s.queue != [] {
          if s.queue[0].SendTask? {
            ShutSend(s.(queue := s.queue[1..]), s.queue[0].message, r);
            TakeSettled(s, RunFirst(s, r));
          } else {
            ShutdownSettled(s, RunFirst(s, r));
          }
        }
      case Continue(t) => ProceedSettled(s, t);
      case _ => SameSettled(s, Step(s, e));
    }
  }

  lemma {:induction false} RunSettled(s: State, es: seq<Event>)
    requires Good(s) && s.halfCloses != []
    ensures Delivered(Run(s, es)) <==> Delivered(s)
    decreases |es|
  {
    if es != [] {
      var before := Run(s, es[..|es| - 1]);
      RunSettled(s, es[..|es| - 1]);
      RunGood(s, es[..|es| - 1]);
      WireFrozen(s, es[..|es| - 1]);
      StepSettled(before, es[|es| - 1]);
      RunGood(s, es);
      DeliveredIff(before);
      DeliveredIff(Run(s, es));
    }
  }

  // ---- the first half-close -------------------------------------------------------------------

  /** A step that shuts the write side down finds it drained, and takes no functor with data. */
  lemma FirstShut(s: State, e: Event)
    requires Good(s) && !s.aborted && !s.closed && s.halfCloses == [] && Step(s, e).halfCloses != []
    ensures var t := Step(s, e);
      t.wire == Flatten(t.taken) && (NothingWaiting(t) <==> NothingWaiting(s)) && !t.writing && !t.aborted && !t.closed
  {
    var t := Step(s, e);
    StepInv(s, e);
    ShutByWhom(s, e);
    if e.RunTask? {
      assert s.queue == [s.queue[0]] + s.queue[1..];
    }
    assert Unsent(t) == [];
  }

  lemma ShutByWhom(s: State, e: Event)
    requires Good(s) && !s.aborted && s.halfCloses == [] && Step(s, e).halfCloses != []
    ensures var t := Step(s, e);
      && !t.writing && !t.aborted && t.closed == s.closed && t.taken == s.taken && t.midway == s.midway
      && if e.RunTask? then s.queue != [] && s.queue[0].ShutdownTask? && t.queue == s.queue[1..] else t.queue == s.queue
  {
    match e
    case RunTask(r) =>
      if s.queue != [] && s.queue[0].SendTask? {
        SendStream(s.(queue := s.queue[1..]), s.queue[0].message, r);
      }
    case Writable(r) => HandleWriteStream(s, r);
    case SendHere(bytes, r) => SendStream(Accepted(s, bytes), Message(LoopThread, bytes), r);
    case _ =>
  }

  /** When a half-close before a close event cuts data off. At the step that shuts the write side
      down for the first time: if no byte waits in a posted functor or in a call of send that has
      passed its test, everything accepted is on the wire then and in every continuation;
      otherwise something accepted is missing then and in every continuation. */
  lemma LosslessIff(s: State, e: Event)
    requires Reachable(s) && !s.aborted && !s.closed && s.halfCloses == [] && Step(s, e).halfCloses != []
    ensures forall es :: Delivered(Run(Step(s, e), es)) <==> NothingWaiting(s)
  {
    ReachableGood(s);
    GoodLossless(s, e);
  }

  lemma GoodLossless(s: State, e: Event)
    requires Good(s) && !s.aborted && !s.closed && s.halfCloses == [] && Step(s, e).halfCloses != []
    ensures forall es :: Delivered(Run(Step(s, e), es)) <==> NothingWaiting(s)
  {
    var t := Step(s, e);
    RunOne(s, e);
    RunGood(s, [e]);
    FirstShut(s, e);
    DeliveredIff(t);
    forall es
      ensures Delivered(Run(t, es)) <==> NothingWaiting(s)
    {
      RunSettled(t, es);
    }
  }

  /** The same cut from a call that has only passed its test: thread 1 is between the test and the
      posting of its byte when the shutdown of thread 2 takes effect, with nothing posted. */
  const OVERTAKEN: seq<Event> :=
    [Establish] + [Send(1, [65])] + [Shutdown(2)] + [Continue(2)] + [Continue(2)]

  lemma OvertakenState()
    ensures Run(Init(), OVERTAKEN) == Init().(status := Disconnecting, reading := true, queue := [ShutdownTask],
      midway := map[1 := ToSend([65])], calls := [Message(Thread(1), [65])], shutdowns := 1)
  {
    RunSnoc([], Establish);
    assert [] + [Establish] == [Establish];
    RunSnoc([Establish], Send(1, [65]));
    RunSnoc([Establish] + [Send(1, [65])], Shutdown(2));
    RunSnoc([Establish] + [Send(1, [65])] + [Shutdown(2)], Continue(2));
    RunSnoc([Establish] + [Send(1, [65])] + [Shutdown(2)] + [Continue(2)], Continue(2));
    assert map[1 := ToSend([65]), 2 := ToPost] - {2} == map[1 := ToSend([65])];
    assert [] + [ShutdownTask] == [ShutdownTask];
  }

  lemma SendOvertaken(es: seq<Event>)
    ensures var s := Run(Init(), OVERTAKEN); var t := Step(s, RunTask(0));
      Waiting(s.queue) == 0 && |t.halfCloses| == 1 && !Delivered(Run(t, es))
  {
    var s := Run(Init(), OVERTAKEN);
    OvertakenState();
    assert Reachable(s);
    ShutNow(s);
    LosslessIff(s, RunTask(0));
    assert 1 in s.midway;
  }

  lemma ShutNow(s: State)
    requires s.queue == [ShutdownTask] && !s.writing && !s.aborted && s.out.Ok() && s.halfCloses == []
    ensures Waiting(s.queue) == 0 && |Step(s, RunTask(0)).halfCloses| == 1
  {}

  // ---- what a caller of shutdown can check ------------------------------------------------------

  /** At most one half-close, and nothing lost by it. */
  ghost predicate Clean(s: State) {
    |s.halfCloses| <= 1 && (s.halfCloses != [] ==> Delivered(s))
  }

  /** Thread `t`, which alone calls send and shutdown, is about to set the state to kDisconnecting. */
  ghost predicate AboutToSet(s: State, t: nat) {
    && Good(s) && !s.aborted && !s.closed && s.halfCloses == []
    && s.midway == map[t := ToSet] && Shutdowns(s.queue) == 0
    && CHEAP_PREPEND + INITIAL_SIZE <= |s.out.cells|
  }

  // The safe direction: no byte is unsent and none is posted.

  ghost predicate Calm(s: State, t: nat) {
    && s.out.Ok() && s.out.Readable() == 0 && !s.writing && !s.aborted
    && s.wire == Flatten(s.taken) && NothingWaiting(s)
    && (forall u | u in s.midway :: u == t && !s.midway[u].ToSend?)
    && (s.status.Connecting? || s.status.Connected? ==> t in s.midway && s.midway[t].ToSet?)
    && |s.halfCloses| + Shutdowns(s.queue) + (if t in s.midway then 1 else 0) <= 1
  }

  lemma CalmProceeds(s: State, t: nat)
    requires Calm(s, t)
    ensures Calm(Proceed(s, t), t)
  {
    if t in s.midway && s.midway[t].ToPost? {
      SendsSnoc(s.queue, ShutdownTask);
    }
  }

  lemma CalmRuns(s: State, t: nat, r: int)
    requires Calm(s, t)
    ensures Calm(RunFirst(s, r), t)
  {
    if s.queue != [] {
      assert s.queue == [s.queue[0]] + s.queue[1..];
      if s.queue[0].SendTask? {
        EmptySend(s.(queue := s.queue[1..]), s.queue[0].message, r);
        MessagesSnoc(s.taken, s.queue[0].message);
        assert Flatten(s.taken) + [] == Flatten(s.taken);
      }
    }
  }

  /** An empty message leaves no trace but a completion. */
  lemma EmptySend(s: State, m: Message, r: int)
    requires s.out.Ok() && s.out.Readable() == 0 && !s.writing && m.bytes == []
    ensures var t := SendInLoop(s, m, r);
      t == Take(s, m).(completions := t.completions)
  {
    assert s.wire + m.bytes[..0] == s.wire;
  }

  lemma CalmStep(s: State, t: nat, e: Event)
    requires Calm(s, t) && OnlyFrom(t, [e])
    ensures Calm(Step(s, e), t)
  {
    assert e in [e];
    match e
    case Continue(u) => if u == t { CalmProceeds(s, t); }
    case RunTask(r) => CalmRuns(s, t, r);
    case _ =>
  }

  lemma {:induction false} CalmRun(s: State, t: nat, es: seq<Event>)
    requires Calm(s, t) && OnlyFrom(t, es)
    ensures Calm(Run(s, es), t)
    decreases |es|
  {
    if es != [] {
      var before := es[..|es| - 1];
      assert forall e | e in before :: e in es;
      assert es[|es| - 1] in es;
      CalmRun(s, t, before);
      CalmStep(Run(s, before), t, es[|es| - 1]);
    }
  }

  lemma CalmIsClean(s: State, t: nat, es: seq<Event>)
    requires AboutToSet(s, t) && s.out.Readable() == 0 && NothingWaiting(s) && OnlyFrom(t, es)
    ensures Clean(Run(s, es))
  {
    assert Unsent(s) == [];
    CalmRun(s, t, es);
    RunGood(s, es);
    DeliveredIff(Run(s, es));
  }

  // The unsafe direction: a byte is unsent, so that handleWrite can come before the functor.

  /** The write side has been shut down and only empty messages are posted before the functor. */
  lemma {:induction false} SecondShut(s: State, k: nat)
    requires s.out.Ok() && !s.aborted && !s.writing && |s.halfCloses| == 1 && s.out.Readable() == 0
    requires k < |s.queue| && s.queue[k] == ShutdownTask
    requires forall i | 0 <= i < k :: s.queue[i].SendTask? && s.queue[i].message.bytes == []
    ensures |Run(s, Tasks(k + 1)).halfCloses| == 2
    decreases k
  {
    RunOne(s, RunTask(0));
    var r := Step(s, RunTask(0));
    if k == 0 {
      assert Tasks(1) == [RunTask(0)];
    } else {
      EmptySend(s.(queue := s.queue[1..]), s.queue[0].message, 0);
      assert forall i | 0 <= i < |r.queue| :: r.queue[i] == s.queue[i + 1];
      SecondShut(r, k - 1);
      assert Tasks(k + 1) == [RunTask(0)] + Tasks(k);
      RunConcat(s, [RunTask(0)], Tasks(k));
    }
  }

  function Tasks(n: nat): seq<Event> { seq(n, _ => RunTask(0)) }

  /** handleWrite drains the buffer between the setting of the state and the posting. */
  lemma WriterFirst(s: State, t: nat)
    requires AboutToSet(s, t) && s.out.Readable() != 0
    ensures var s1 := Step(s, Continue(t)); var s2 := Step(s1, Writable(s.out.Readable()));
      && Good(s1) && !s1.aborted && !s1.closed && s1.halfCloses == [] && (NothingWaiting(s1) <==> NothingWaiting(s))
      && |s2.halfCloses| == 1 && s2.queue == s.queue && s2.midway == map[t := ToPost] && !s2.writing && !s2.aborted
      && s2.out.Ok() && s2.out.Readable() == 0
  {
    var s1 := Step(s, Continue(t));
    RunOne(s, Continue(t));
    RunGood(s, [Continue(t)]);
    assert s.writing;
    HandleWriteStream(s1, s.out.Readable());
  }

  /** A list of events of thread `t` and the loop after which the run is not clean. */
  ghost predicate Breaks(s: State, t: nat, es: seq<Event>) {
    OnlyFrom(t, es) && !Clean(Run(s, es))
  }

  lemma {:induction false} NoShutdowns(q: seq<Task>)
    requires Shutdowns(q) == 0
    ensures forall i | 0 <= i < |q| :: q[i].SendTask?
    decreases |q|
  {
    if q != [] {
      NoShutdowns(q[1..]);
      assert forall i | 1 <= i < |q| :: q[i] == q[1..][i - 1];
    }
  }

  lemma UnsentBreaks(s: State, t: nat) returns (es: seq<Event>)
    requires AboutToSet(s, t) && s.out.Readable() != 0
    ensures Breaks(s, t, es)
  {
    var n := s.out.Readable();
    var s2 := Step(Step(s, Continue(t)), Writable(n));
    WriterFirst(s, t);
    es := [Continue(t)] + [Writable(n)];
    RunTwo(s, Continue(t), Writable(n));
    if !NothingWaiting(s) {
      GoodLossless(Step(s, Continue(t)), Writable(n));
      assert !Delivered(Run(s2, []));
    } else {
      NoShutdowns(s.queue);
      var more := ThenFunctor(s2, t);
      RunConcat(s, es, more);
      es := es + more;
    }
  }

  lemma RunTwo(s: State, d: Event, e: Event)
    ensures Run(s, [d] + [e]) == Step(Step(s, d), e)
  {
    RunConcat(s, [d], [e]);
    RunOne(s, d);
    RunOne(Step(s, d), e);
  }

  /** The functor is posted and run after handleWrite has shut the write side down. */
  lemma ThenFunctor(s: State, t: nat) returns (es: seq<Event>)
    requires s.out.Ok() && !s.aborted && !s.writing && |s.halfCloses| == 1 && s.out.Readable() == 0
    requires s.midway == map[t := ToPost]
    requires forall i | 0 <= i < |s.queue| :: s.queue[i].SendTask? && s.queue[i].message.bytes == []
    ensures OnlyFrom(t, es) && |Run(s, es).halfCloses| == 2
  {
    var s3 := Step(s, Continue(t));
    var k := |s.queue|;
    assert s3.queue == s.queue + [ShutdownTask];
    SecondShut(s3, k);
    RunOne(s, Continue(t));
    RunConcat(s, [Continue(t)], Tasks(k + 1));
    es := [Continue(t)] + Tasks(k + 1);
  }

  // A byte is posted: the functors up to it run, and the socket takes all but its last byte.

  lemma OneByteFits(b: Buf, x: seq<byte>)
    requires b.Ok() && b.Readable() == 0 && CHEAP_PREPEND + INITIAL_SIZE <= |b.cells| && |x| == 1
    ensures var o := Append(b, x); o.Done? && o.buf.Readable() == 1 && |b.cells| <= |o.buf.cells|
  {
    AppendExact(b, x);
    EnsureWritableKeeps(b, 1);
  }

  lemma LeaveOneByte(s: State, t: nat)
    requires AboutToSet(s, t) && s.out.Readable() == 0
    requires s.queue != [] && s.queue[0].SendTask? && s.queue[0].message.bytes != []
    ensures var r := Step(s, RunTask(|s.queue[0].message.bytes| - 1)); AboutToSet(r, t) && r.out.Readable() == 1
  {
    var m := s.queue[0].message;
    var k := |m.bytes| - 1;
    RunOne(s, RunTask(k));
    RunGood(s, [RunTask(k)]);
    assert !s.writing;
    OneByteFits(s.out, m.bytes[k..]);
  }

  lemma SkipEmpty(s: State, t: nat)
    requires AboutToSet(s, t) && s.out.Readable() == 0
    requires s.queue != [] && s.queue[0].SendTask? && s.queue[0].message.bytes == []
    ensures var r := Step(s, RunTask(0));
      AboutToSet(r, t) && r.out.Readable() == 0 && r.queue == s.queue[1..]
  {
    RunOne(s, RunTask(0));
    RunGood(s, [RunTask(0)]);
    assert !s.writing;
    EmptySend(s.(queue := s.queue[1..]), s.queue[0].message, 0);
  }

  lemma PostedBreaks(s: State, t: nat) returns (es: seq<Event>)
    requires AboutToSet(s, t) && s.out.Readable() == 0 && !NothingWaiting(s)
    ensures Breaks(s, t, es)
    decreases |s.queue|
  {
    NoShutdowns(s.queue);
    assert s.queue != [];
    assert s.queue == [s.queue[0]] + s.queue[1..];
    var r := if s.queue[0].message.bytes == [] then 0 else |s.queue[0].message.bytes| - 1;
    var e := RunTask(r);
    var s1 := Step(s, e);
    if s.queue[0].message.bytes == [] {
      SkipEmpty(s, t);
      es := PostedBreaks(s1, t);
    } else {
      LeaveOneByte(s, t);
      es := UnsentBreaks(s1, t);
    }
    RunConcat(s, [e], es);
    RunOne(s, e);
    es := [e] + es;
  }

  // ---- the caller's condition -------------------------------------------------------------------

  /** Facts about runs in which only thread `t` calls. */
  ghost predicate CallerPhase(s: State, t: nat) {
    && CHEAP_PREPEND + INITIAL_SIZE <= |s.out.cells|
    && (s.status.Disconnecting? ==> s.shutdowns == 1 || (t in s.midway && s.midway[t].ToPost?))
    && (s.status.Disconnected? ==> s.closed)
  }

  lemma KeepRoom(s: State, rest: seq<byte>)
    requires s.out.Ok()
    ensures var r := Keep(s, rest);
      && |s.out.cells| <= |r.out.cells| && r.status == s.status && r.shutdowns == s.shutdowns
      && r.midway == s.midway && r.closed == s.closed
  {
    EnsureWritableKeeps(s.out, |rest|);
  }

  lemma SendPhase(s: State, m: Message, r: int, t: nat)
    requires s.out.Ok() && CallerPhase(s, t)
    ensures CallerPhase(SendInLoop(s, m, r), t)
  {
    var n := Write(s, r, |m.bytes|);
    KeepRoom(Take(s, m), m.bytes);
    if 0 <= n { KeepRoom(Take(s, m).(wire := s.wire + m.bytes[..n]), m.bytes[n..]); }
  }

  lemma PhaseStep(s: State, t: nat, e: Event)
    requires s.out.Ok() && CallerOk(s, t) && CallerPhase(s, t) && OnlyFrom(t, [e])
    ensures CallerPhase(Step(s, e), t)
  {
    assert e in [e];
    match e
    case RunTask(r) =>
      if s.queue != [] && s.queue[0].SendTask? { SendPhase(s.(queue := s.queue[1..]), s.queue[0].message, r, t); }
    case _ =>
  }

  lemma {:induction false} PhaseRun(t: nat, es: seq<Event>)
    requires OnlyFrom(t, es)
    ensures CallerPhase(Run(Init(), es), t)
    decreases |es|
  {
    if es != [] {
      var before := es[..|es| - 1];
      assert forall e | e in before :: e in es;
      assert es[|es| - 1] in es;
      PhaseRun(t, before);
      CallerRun(t, before);
      RunInv(before);
      PhaseStep(Run(Init(), before), t, es[|es| - 1]);
    }
  }

  lemma {:induction false} NoneInQueue(q: seq<Task>)
    requires ShutdownTask !in q
    ensures Shutdowns(q) == 0
    decreases |q|
  {
    if q != [] { NoneInQueue(q[1..]); }
  }

  lemma CallerIsAboutToSet(t: nat, es: seq<Event>)
    requires OnlyFrom(t, es)
    requires var s := Run(Init(), es); !s.aborted && !s.closed && t in s.midway && s.midway[t].ToSet?
    ensures AboutToSet(Run(Init(), es), t)
  {
    var s := Run(Init(), es);
    assert Reachable(s);
    ReachableGood(s);
    CallerRun(t, es);
    PhaseRun(t, es);
    assert s.midway == map[t := ToSet];
    NoneInQueue(s.queue);
  }

  /** With all calls of send and shutdown on one other thread, before a close event: when that
      thread, in shutdown, is about to set the state, every continuation has at most one
      half-close and loses nothing by it, if and only if at that moment no byte is unsent and no
      byte is posted. */
  lemma CallerCleanIff(t: nat, es: seq<Event>)
    requires OnlyFrom(t, es)
    requires var s := Run(Init(), es); !s.aborted && !s.closed && t in s.midway && s.midway[t].ToSet?
    ensures var s := Run(Init(), es);
      (forall more | OnlyFrom(t, more) :: Clean(Run(s, more))) <==> s.out.Readable() == 0 && NothingWaiting(s)
  {
    var s := Run(Init(), es);
    CallerIsAboutToSet(t, es);
    if s.out.Readable() != 0 {
      var more := UnsentBreaks(s, t);
      assert OnlyFrom(t, more) && !Clean(Run(s, more));
    } else if !NothingWaiting(s) {
      var more := PostedBreaks(s, t);
      assert OnlyFrom(t, more) && !Clean(Run(s, more));
    } else {
      forall more | OnlyFrom(t, more)
        ensures Clean(Run(s, more))
      {
        CalmIsClean(s, t, more);
      }
    }
  }

  // ---- losing data, as opposed to a second half-close ------------------------------------------

  /** The number of non-empty messages posted. */
  function Posted(q: seq<Task>): nat {
    if q == [] then 0 else (if q[0].SendTask? && q[0].message.bytes != [] then 1 else 0) + Posted(q[1..])
  }

  /** How many of the output buffer and the posted messages are non-empty. */
  function Load(s: State): nat {
    (if s.out.Readable() != 0 then 1 else 0) + Posted(s.queue)
  }

  lemma {:induction false} PostedSnoc(q: seq<Task>, x: Task)
    requires x.ShutdownTask?
    ensures Posted(q + [x]) == Posted(q)
    decreases |q|
  {
    if q == [] {
      assert [] + [x] == [x] && [x][1..] == [];
    } else {
      assert (q + [x])[1..] == q[1..] + [x] && (q + [x])[0] == q[0];
      PostedSnoc(q[1..], x);
    }
  }

  lemma {:induction false} NonePosted(q: seq<Task>)
    ensures Posted(q) == 0 <==> forall x | x in q && x.SendTask? :: x.message.bytes == []
    decreases |q|
  {
    if q != [] {
      NonePosted(q[1..]);
      assert q == [q[0]] + q[1..];
    }
  }

  /** Shutdown is under way on thread `t`, at most one of the buffer and the posted messages is
      non-empty, and the functor of shutdown comes after them. */
  ghost predicate Narrow(s: State, t: nat) {
    && (forall u | u in s.midway :: u == t && !s.midway[u].ToSend?)
    && (s.status.Connecting? || s.status.Connected? ==> t in s.midway && s.midway[t].ToSet?)
    && Load(s) <= 1
    && (forall i | 0 <= i < |s.queue| - 1 :: !s.queue[i].ShutdownTask?)
    && (t in s.midway ==> ShutdownTask !in s.queue)
  }

  lemma NarrowProceeds(s: State, t: nat)
    requires Narrow(s, t)
    ensures Narrow(Proceed(s, t), t)
  {
    if t in s.midway && s.midway[t].ToPost? {
      PostedSnoc(s.queue, ShutdownTask);
    }
  }

  /** What sendInLoop of an empty message changes. */
  lemma EmptyMessage(s: State, m: Message, r: int)
    requires s.out.Ok() && m.bytes == []
    ensures var x := SendInLoop(s, m, r); x == Take(s, m).(completions := x.completions)
  {
    assert s.wire + m.bytes[..0] == s.wire;
  }

  lemma SendShape(s: State, m: Message, r: int)
    requires StreamOk(s) && !s.aborted
    ensures var x := SendInLoop(s, m, r);
      x.queue == s.queue && x.midway == s.midway && x.status == s.status && x.halfCloses == s.halfCloses && x.closed == s.closed
  {
    SendStream(s, m, r);
  }

  lemma NarrowRuns(s: State, t: nat, r: int)
    requires Good(s) && !s.aborted && Narrow(s, t) && s.queue != [] && s.queue[0].SendTask?
    ensures Narrow(RunFirst(s, r), t)
  {
    var s1 := s.(queue := s.queue[1..]);
    var m := s.queue[0].message;
    assert s.queue == [s.queue[0]] + s.queue[1..];
    if m.bytes == [] { EmptyMessage(s1, m, r); }
    SendShape(s1, m, r);
  }

  lemma NarrowWrites(s: State, t: nat, r: int)
    requires Good(s) && !s.aborted && Narrow(s, t)
    ensures Narrow(HandleWrite(s, r), t)
  {
    HandleWriteStream(s, r);
    DrainsOnly(s, r);
  }

  lemma DrainsOnly(s: State, r: int)
    requires s.out.Ok()
    ensures HandleWrite(s, r).out.Readable() <= s.out.Readable()
  {}

  lemma NarrowStep(s: State, t: nat, e: Event)
    requires Good(s) && !s.aborted && Narrow(s, t) && OnlyFrom(t, [e])
    ensures Narrow(Step(s, e), t)
  {
    assert e in [e];
    match e
    case Continue(u) => if u == t { NarrowProceeds(s, t); }
    case RunTask(r) =>
      if s.queue != [] {
        assert s.queue == [s.queue[0]] + s.queue[1..];
        if s.queue[0].SendTask? { NarrowRuns(s, t, r); }
      }
    case Writable(r) => NarrowWrites(s, t, r);
    case _ =>
  }

  /** The step that shuts the write side down leaves nothing behind. */
  lemma NarrowShut(s: State, t: nat, e: Event)
    requires Good(s) && !s.aborted && !s.closed && Narrow(s, t) && OnlyFrom(t, [e])
    requires s.halfCloses == [] && Step(s, e).halfCloses != []
    ensures NothingWaiting(s)
  {
    assert e in [e];
    ShutByWhom(s, e);
    NonePosted(s.queue);
    if e.RunTask? {
      assert |s.queue| == 1;
    } else {
      ShutByWriter(s, e);
    }
  }

  lemma ShutByWriter(s: State, e: Event)
    requires s.out.Ok() && !s.aborted && !e.RunTask? && !e.SendHere? && !e.ShutdownHere?
    requires s.halfCloses == [] && Step(s, e).halfCloses != []
    ensures e.Writable? && s.out.Readable() != 0
  {}

  /** What holds of every continuation as long as nobody closes. */
  ghost predicate Keeping(s: State, t: nat) {
    Good(s) && (s.aborted || s.closed || if s.halfCloses != [] then Delivered(s) else Narrow(s, t))
  }

  lemma ClosedStays(s: State, e: Event)
    requires StreamOk(s) && s.closed
    ensures Step(s, e).closed
  {
    if !s.aborted {
      match e
      case RunTask(r) =>
        if s.queue != [] && s.queue[0].SendTask? { SendShape(s.(queue := s.queue[1..]), s.queue[0].message, r); }
      case SendHere(bytes, r) => SendShape(Accepted(s, bytes), Message(LoopThread, bytes), r);
      case Writable(r) => HandleWriteStream(s, r);
      case _ =>
    }
  }

  lemma KeepingStep(s: State, t: nat, e: Event)
    requires Keeping(s, t) && OnlyFrom(t, [e])
    ensures Keeping(Step(s, e), t)
  {
    RunOne(s, e);
    RunGood(s, [e]);
    if s.aborted {
    } else if s.closed {
      ClosedStays(s, e);
    } else if s.halfCloses != [] {
      WireFrozen(s, [e]);
      RunSettled(s, [e]);
    } else if Step(s, e).halfCloses != [] {
      NarrowShut(s, t, e);
      GoodLossless(s, e);
      assert Delivered(Run(Step(s, e), []));
    } else {
      NarrowStep(s, t, e);
    }
  }

  lemma {:induction false} KeepingRun(s: State, t: nat, es: seq<Event>)
    requires Keeping(s, t) && OnlyFrom(t, es)
    ensures Keeping(Run(s, es), t)
    decreases |es|
  {
    if es != [] {
      var before := es[..|es| - 1];
      assert forall e | e in before :: e in es;
      assert es[|es| - 1] in es;
      KeepingRun(s, t, before);
      KeepingStep(Run(s, before), t, es[|es| - 1]);
    }
  }

  /** A list of events of thread `t` and the loop after which accepted data is cut off. */
  ghost predicate Loses(s: State, t: nat, es: seq<Event>) {
    OnlyFrom(t, es) && var u := Run(s, es); !u.aborted && !u.closed && u.halfCloses != [] && !Delivered(u)
  }

  lemma WriterCutsOff(s: State, t: nat) returns (es: seq<Event>)
    requires AboutToSet(s, t) && s.out.Readable() != 0 && !NothingWaiting(s)
    ensures Loses(s, t, es)
  {
    var n := s.out.Readable();
    var s1 := Step(s, Continue(t));
    WriterFirst(s, t);
    RunTwo(s, Continue(t), Writable(n));
    GoodLossless(s1, Writable(n));
    FirstShut(s1, Writable(n));
    assert !Delivered(Run(Step(s1, Writable(n)), []));
    es := [Continue(t)] + [Writable(n)];
  }

  lemma TwoPostedCutOff(s: State, t: nat) returns (es: seq<Event>)
    requires AboutToSet(s, t) && s.out.Readable() == 0 && 2 <= Posted(s.queue)
    ensures Loses(s, t, es)
    decreases |s.queue|
  {
    NoShutdowns(s.queue);
    var r := if s.queue[0].message.bytes == [] then 0 else |s.queue[0].message.bytes| - 1;
    var e := RunTask(r);
    var s1 := Step(s, e);
    if s.queue[0].message.bytes == [] {
      SkipEmpty(s, t);
      es := TwoPostedCutOff(s1, t);
    } else {
      LeaveOneByte(s, t);
      RunTail(s, r);
      NonePosted(s1.queue);
      es := WriterCutsOff(s1, t);
    }
    RunConcat(s, [e], es);
    RunOne(s, e);
    es := [e] + es;
  }

  lemma RunTail(s: State, r: int)
    requires Good(s) && !s.aborted && s.queue != [] && s.queue[0].SendTask?
    ensures Step(s, RunTask(r)).queue == s.queue[1..]
  {
    SendShape(s.(queue := s.queue[1..]), s.queue[0].message, r);
  }

  /** The finer condition for data alone: before a close event no half-close loses anything, if and
      only if at most one of the output buffer and the posted messages is non-empty when shutdown
      is about to set the state. */
  lemma CallerLosslessIff(t: nat, es: seq<Event>)
    requires OnlyFrom(t, es)
    requires var s := Run(Init(), es); !s.aborted && !s.closed && t in s.midway && s.midway[t].ToSet?
    ensures var s := Run(Init(), es); (forall more :: !Loses(s, t, more)) <==> Load(s) <= 1
  {
    var s := Run(Init(), es);
    CallerIsAboutToSet(t, es);
    NonePosted(s.queue);
    if Load(s) <= 1 {
      NoShutdowns(s.queue);
      forall more
        ensures !Loses(s, t, more)
      {
        if OnlyFrom(t, more) { KeepingRun(s, t, more); }
      }
    } else if s.out.Readable() != 0 {
      var more := WriterCutsOff(s, t);
    } else {
      var more := TwoPostedCutOff(s, t);
    }
  }

  // ---- after a close ----------------------------------------------------------------------------

  /** Nobody begins a call of send. */
  predicate NoSends(es: seq<Event>) {
    forall e | e in es :: !e.Send? && !e.SendHere?
  }

  /** The output is as it was in `s`, and the channel does not wait for writability. */
  ghost predicate OutputEnded(s: State, r: State) {
    r.wire == s.wire && r.out == s.out && !r.writing && !r.aborted
  }

  ghost predicate Hushed(s: State) {
    s.out.Ok() && !s.aborted && !s.writing && NothingWaiting(s)
  }

  lemma HushedProceeds(s: State, t: nat)
    requires Hushed(s)
    ensures Hushed(Proceed(s, t)) && OutputEnded(s, Proceed(s, t))
  {}

  lemma HushedRuns(s: State, r: int)
    requires Hushed(s) && s.queue != []
    ensures Hushed(RunFirst(s, r)) && OutputEnded(s, RunFirst(s, r))
  {
    assert s.queue == [s.queue[0]] + s.queue[1..];
    if s.queue[0].SendTask? {
      EmptyMessage(s.(queue := s.queue[1..]), s.queue[0].message, r);
    }
  }

  lemma HushedStep(s: State, e: Event)
    requires Hushed(s) && !e.Send? && !e.SendHere?
    ensures Hushed(Step(s, e)) && OutputEnded(s, Step(s, e))
  {
    match e
    case Continue(t) => HushedProceeds(s, t);
    case RunTask(r) => if s.queue != [] { HushedRuns(s, r); }
    case _ =>
  }

  lemma {:induction false} HushedRun(s: State, es: seq<Event>)
    requires Hushed(s) && NoSends(es)
    ensures Hushed(Run(s, es)) && OutputEnded(s, Run(s, es))
    decreases |es|
  {
    if es != [] {
      var before := es[..|es| - 1];
      assert forall e | e in before :: e in es;
      assert es[|es| - 1] in es;
      HushedRun(s, before);
      HushedStep(Run(s, before), es[|es| - 1]);
    }
  }

  /** Events without a new send after which the channel waits for writability again, or the
      output buffer has aborted. */
  ghost predicate Stirs(s: State, es: seq<Event>) {
    NoSends(es) && (Run(s, es).writing || Run(s, es).aborted)
  }

  /** A posted message that is not empty is taken whatever the state of the connection. */
  lemma PostedStirs(s: State, k: nat) returns (es: seq<Event>)
    requires s.out.Ok() && !s.aborted && !s.writing
    requires k < |s.queue| && s.queue[k].SendTask? && s.queue[k].message.bytes != []
    ensures Stirs(s, es)
    decreases k
  {
    var r := Step(s, RunTask(0));
    RunOne(s, RunTask(0));
    es := [RunTask(0)];
    if s.queue[0].SendTask? && s.queue[0].message.bytes != [] {
      TakesPosted(s.(queue := s.queue[1..]), s.queue[0].message);
    } else {
      if s.queue[0].SendTask? { EmptyMessage(s.(queue := s.queue[1..]), s.queue[0].message, 0); }
      assert r.queue == s.queue[1..] && r.queue[k - 1] == s.queue[k];
      var more := PostedStirs(r, k - 1);
      RunConcat(s, es, more);
      es := es + more;
    }
  }

  lemma TakesPosted(s: State, m: Message)
    requires s.out.Ok() && !s.aborted && !s.writing && m.bytes != []
    ensures var r := SendInLoop(s, m, 0); r.writing || r.aborted
  {}

  lemma WaitingStirs(s: State) returns (es: seq<Event>)
    requires s.out.Ok() && !s.aborted && !s.writing && !NothingWaiting(s)
    ensures Stirs(s, es)
  {
    if x :| x in s.queue && x.SendTask? && x.message.bytes != [] {
      var k :| 0 <= k < |s.queue| && s.queue[k] == x;
      es := PostedStirs(s, k);
    } else {
      var t :| t in s.midway && s.midway[t].ToSend? && s.midway[t].bytes != [];
      var r := Step(s, Continue(t));
      assert r.queue[|s.queue|] == SendTask(Message(Thread(t), s.midway[t].bytes));
      var more := PostedStirs(r, |s.queue|);
      RunOne(s, Continue(t));
      RunConcat(s, [Continue(t)], more);
      es := [Continue(t)] + more;
    }
  }

  /** Not even an empty message is left to be given to sendInLoop. */
  ghost predicate NoMessage(s: State) {
    && (forall x | x in s.queue :: !x.SendTask?)
    && (forall t | t in s.midway :: !s.midway[t].ToSend?)
  }

  lemma SilentStep(s: State, e: Event)
    requires NoMessage(s) && !s.writing && !e.Send? && !e.SendHere?
    ensures var r := Step(s, e); NoMessage(r) && !r.writing && r.completions == s.completions
  {}

  lemma {:induction false} SilentRun(s: State, es: seq<Event>)
    requires NoMessage(s) && !s.writing && NoSends(es)
    ensures var r := Run(s, es); NoMessage(r) && !r.writing && r.completions == s.completions
    decreases |es|
  {
    if es != [] {
      var before := es[..|es| - 1];
      assert forall e | e in before :: e in es;
      assert es[|es| - 1] in es;
      SilentRun(s, before);
      SilentStep(Run(s, before), es[|es| - 1]);
    }
  }

  /** handleClose and connectDestroyed end the output, as long as nobody sends again, if and only
      if no byte waits in a posted functor or in a call of send past its test: sendInLoop does not
      look at the state, so what waits is written or buffered on the closed connection. */
  lemma CloseEndsOutputIff(s: State, e: Event)
    requires Reachable(s) && !s.aborted && (e.Close? || e.Destroy?) && (s.status.Connected? || s.status.Disconnecting?)
    ensures (forall es | NoSends(es) :: OutputEnded(s, Run(Step(s, e), es))) <==> NothingWaiting(s)
    ensures NoMessage(s) ==> forall es | NoSends(es) :: Run(Step(s, e), es).completions == s.completions
  {
    var t := Step(s, e);
    ReachableGood(s);
    if NoMessage(s) {
      forall es | NoSends(es)
        ensures Run(t, es).completions == s.completions
      {
        SilentRun(t, es);
      }
    }
    if NothingWaiting(s) {
      forall es | NoSends(es)
        ensures OutputEnded(s, Run(t, es))
      {
        HushedRun(t, es);
      }
    } else {
      var es := WaitingStirs(t);
      assert NoSends(es) && !OutputEnded(s, Run(t, es));
    }
  }

  /** A message posted before the close is written after it, with its completion. */
  lemma WrittenAfterClose()
    ensures var s := Run(Init(), POSTED + [Close] + [RunTask(1)]);
      s.closed && s.wire == [65] && |s.completions| == 1
  {
    PostedState();
    RunSnoc(POSTED, Close);
    RunSnoc(POSTED + [Close], RunTask(1));
    var s := Run(Init(), POSTED + [Close]);
    assert [] + [65][..1] == [65];
    assert s.queue[1..] == [];
  }

  /** One that the socket refuses makes the channel of a destroyed connection wait for
      writability again. */
  lemma WritingAfterDestroy()
    ensures var s := Run(Init(), POSTED + [Close] + [Destroy] + [RunTask(0)]);
      s.status.Disconnected? && s.writing && !s.aborted
  {
    PostedState();
    RunSnoc(POSTED, Close);
    RunSnoc(POSTED + [Close], Destroy);
    RunSnoc(POSTED + [Close] + [Destroy], RunTask(0));
    var s := Run(Init(), POSTED + [Close] + [Destroy]);
    AppendExact(FRESH, [65]);
    assert s.wire + [65][..0] == s.wire && [65][0..] == [65];
    KeepStream(Take(s.(queue := []), s.queue[0].message), [65]);
    assert s.queue[1..] == [];
  }
}
