/** EventLoop.cc as a transition system: one loop thread and any number of producer threads,
    each with its own program counter, sharing `pendingFunctors_` and the wakeup eventfd. */
module LoopModel {

  datatype Owner = LoopThread | Producer(id: nat)

  datatype Job = Job(owner: Owner, body: nat)

  // Where the loop thread is.
  datatype Phase =
    | Outside                                     // not in loop()
    | Top                                         // at the test of quit_
    | Polling                                     // in poller_->poll
    | Handling(wakeReady: bool)                   // in the channel callbacks
    | Running(batch: seq<Job>, next: nat, upto: nat)  // in doPendingFunctors, after the swap

  datatype State = State(
    resetTo: bool,              // what doPendingFunctors leaves in callingPendingFunctors_
    pending: seq<Job>,
    counter: nat,               // the eventfd
    calling: bool,
    quit: bool,
    phase: Phase,
    owes: bool,                 // the loop thread is between its push and its wakeup
    mustWake: set<nat>,         // the producers that are between their push and their wakeup
    // History; no step reads it.
    history: seq<Job>,          // every job, in the order of the pushes under the mutex
    executed: seq<Job>,
    issued: map<nat, seq<nat>>, // per producer, the bodies it queued, in its program order
    unannounced: set<nat>,      // positions in `history` queued without a wakeup outside loop()
    firstEnter: int,            // |history| at the first call of loop(), -1 before it
    firstSwap: int)             // |history| at the first swap, -1 before it

  datatype Event =
    | Push(producer: nat, body: nat)   // first half of a producer's queueInLoop
    | Quit(producer: nat)              // a producer's quit, up to its wakeup
    | Wake(producer: nat)              // the write to the eventfd
    | OwnPush(body: nat)
    | OwnWake
    | OwnQuit
    | Enter                            // loop() begins
    | Test                             // while (!quit_)
    | PollReturns(wake: bool)          // with or without the wakeup channel among the active ones
    | ReadWakeup                       // handleRead of the wakeup channel
    | Swap                             // doPendingFunctors up to its loop
    | RunNext
    | Finish

  // Beyond this value a non-blocking write to an eventfd fails.
  const EVENTFD_MAX: nat := 0xFFFF_FFFF_FFFF_FFFE

  function Write(counter: nat): (c: nat)
    ensures 0 < c
  {
    if EVENTFD_MAX <= counter then counter else counter + 1
  }

  function Init(resetTo: bool): State {
    State(resetTo, [], 0, false, false, Outside, false, {}, [], [], map[], {}, -1, -1)
  }

  function Issued(s: State, p: nat): seq<nat> {
    if p in s.issued then s.issued[p] else []
  }

  /** The loop thread is running code of the user, not of the loop. */
  predicate InUserCode(s: State) {
    !s.owes && (s.phase.Outside? || s.phase.Handling? || s.phase.Running?)
  }

  function Append(s: State, j: Job): State {
    s.(pending := s.pending + [j], history := s.history + [j])
  }

  function ProducerPush(s: State, p: nat, body: nat): State {
    if p in s.mustWake then s
    else Append(s, Job(Producer(p), body)).(mustWake := s.mustWake + {p},
                                            issued := s.issued[p := Issued(s, p) + [body]])
  }

  /** queueInLoop on the loop thread up to the test of callingPendingFunctors_. */
  function LoopPush(s: State, body: nat): State {
    if !InUserCode(s) then s
    else
      var r := Append(s, Job(LoopThread, body));
      if s.calling then r.(owes := true)
      else if s.phase.Outside? then r.(unannounced := s.unannounced + {|s.history|})
      else r
  }

  function Step(s: State, e: Event): State {
    match e
    case Push(p, body) => ProducerPush(s, p, body)
    case Quit(p) => if p in s.mustWake then s else s.(quit := true, mustWake := s.mustWake + {p})
    case Wake(p) => if p in s.mustWake then s.(mustWake := s.mustWake - {p}, counter := Write(s.counter)) else s
    case OwnPush(body) => LoopPush(s, body)
    case OwnWake => if s.owes then s.(owes := false, counter := Write(s.counter)) else s
    case OwnQuit => if InUserCode(s) then s.(quit := true) else s
    case Enter =>
      if s.phase.Outside? && !s.owes
      then s.(phase := Top, quit := false, firstEnter := if s.firstEnter < 0 then |s.history| else s.firstEnter)
      else s
    case Test => if s.phase.Top? then s.(phase := if s.quit then Outside else Polling) else s
    case PollReturns(wake) => if s.phase.Polling? then s.(phase := Handling(wake && 0 < s.counter)) else s
    case ReadWakeup =>
      if s.phase.Handling? && s.phase.wakeReady && !s.owes then s.(phase := Handling(false), counter := 0) else s
    case Swap =>
      if s.phase.Handling? && !s.phase.wakeReady && !s.owes
      then s.(calling := true, pending := [], phase := Running(s.pending, 0, |s.history|),
              firstSwap := if s.firstSwap < 0 then |s.history| else s.firstSwap)
      else s
    case RunNext =>
      if s.phase.Running? && s.phase.next < |s.phase.batch| && !s.owes
      then s.(executed := s.executed + [s.phase.batch[s.phase.next]],
              phase := s.phase.(next := s.phase.next + 1))
      else s
    case Finish =>
      if s.phase.Running? && |s.phase.batch| <= s.phase.next && !s.owes
      then s.(calling := s.resetTo, phase := Top)
      else s
  }

  function Run(s: State, es: seq<Event>): State
    decreases |es|
  {
    if es == [] then s else Step(Run(s, es[..|es| - 1]), es[|es| - 1])
  }

  ghost predicate Reachable(s: State) {
    exists resetTo, es :: s == Run(Init(resetTo), es)
  }

  /** The bodies that producer `p` contributed to `js`, in order. */
  function OfProducer(js: seq<Job>, p: nat): seq<nat> {
    if js == [] then []
    else OfProducer(js[..|js| - 1], p) +
         if js[|js| - 1].owner == Producer(p) then [js[|js| - 1].body] else []
  }
}

/** No lost wakeup, and functor conservation, for every interleaving. */
module LoopTheorems {
  import opened LoopModel

  /** The loop thread's next poll will not block for its whole timeout: the eventfd is readable
      or some thread is about to write to it. */
  ghost predicate Awake(s: State) {
    0 < s.counter || s.mustWake != {} || s.owes
  }

  /** Position of `pending[0]` in the history. */
  function FirstPending(s: State): int { |s.history| - |s.pending| }

  ghost predicate AllUnannounced(s: State) {
    forall k | FirstPending(s) <= k < |s.history| :: k in s.unannounced
  }

  /** Part of the current batch that has not run. */
  function Remaining(s: State): seq<Job> {
    if s.phase.Running? && s.phase.next <= |s.phase.batch| then s.phase.batch[s.phase.next..] else []
  }

  ghost predicate Conserved(s: State) {
    && s.executed + Remaining(s) + s.pending == s.history
    && (forall p :: OfProducer(s.history, p) == Issued(s, p))
    && (s.phase.Running? ==>
          && s.phase.next <= |s.phase.batch| && |s.phase.batch| <= s.phase.upto <= |s.history|
          && s.phase.batch == s.history[s.phase.upto - |s.phase.batch|..s.phase.upto]
          && |s.executed| == s.phase.upto - |s.phase.batch| + s.phase.next)
  }

  ghost predicate WakeOk(s: State) {
    && (s.owes ==> s.phase.Outside? || s.phase.Handling? || s.phase.Running?)
    && (s.phase.Running? ==> s.calling)
    && (s.phase.Running? ==> s.pending == [] || Awake(s))
    && (s.phase.Outside? || s.phase.Top? || s.phase.Polling? ==> AllUnannounced(s) || Awake(s))
  }

  ghost predicate UnannouncedOk(s: State) {
    && (forall k | k in s.unannounced :: 0 <= k < |s.history| && s.history[k].owner == LoopThread)
    && (s.resetTo && 0 <= s.firstSwap ==> s.calling && forall k | k in s.unannounced :: k < s.firstSwap)
  }

  /** Before the first swap only a quit from another thread ends loop(), and its wakeup stays
      in the eventfd. */
  ghost predicate ReentryOk(s: State) {
    && (s.firstEnter < 0 ==> s.phase.Outside? && s.firstSwap < 0)
    && (0 <= s.firstEnter && s.firstSwap < 0 && !s.phase.Handling?
        && (s.phase.Outside? || (s.phase.Top? && s.quit) || exists k :: k in s.unannounced && s.firstEnter <= k)
        ==> 0 < s.counter || s.mustWake != {})
    && (s.phase.Running? ==> 0 <= s.firstSwap)
    && (0 <= s.firstSwap ==> s.firstSwap <= |s.executed| + |Remaining(s)|)
  }

  ghost predicate Inv(s: State) {
    Conserved(s) && WakeOk(s) && UnannouncedOk(s) && ReentryOk(s)
  }

  lemma OfProducerSnoc(js: seq<Job>, j: Job, p: nat)
    ensures OfProducer(js + [j], p) == OfProducer(js, p) + if j.owner == Producer(p) then [j.body] else []
  {
    assert (js + [j])[..|js|] == js;
  }

  lemma AppendConserves(s: State, r: State, j: Job)
    requires Conserved(s) && r.phase == s.phase && r.executed == s.executed
    requires r.pending == s.pending + [j] && r.history == s.history + [j]
    requires forall p :: Issued(r, p) == Issued(s, p) + if j.owner == Producer(p) then [j.body] else []
    ensures Conserved(r)
  {
    assert s.executed + Remaining(s) + (s.pending + [j]) == s.executed + Remaining(s) + s.pending + [j];
    forall p
      ensures OfProducer(r.history, p) == Issued(r, p)
    {
      OfProducerSnoc(s.history, j, p);
    }
    if s.phase.Running? {
      var lo := s.phase.upto - |s.phase.batch|;
      assert r.history[lo..s.phase.upto] == s.history[lo..s.phase.upto];
    }
  }

  lemma SameConserves(s: State, r: State)
    requires Conserved(s) && r.executed == s.executed && r.pending == s.pending && r.history == s.history
    requires r.issued == s.issued && (r.phase == s.phase || (!r.phase.Running? && Remaining(s) == []))
    ensures Conserved(r)
  {
    assert forall p :: Issued(r, p) == Issued(s, p);
  }

  lemma SwapConserves(s: State, r: State)
    requires Conserved(s) && !s.phase.Running? && r.executed == s.executed && r.history == s.history
    requires r.issued == s.issued && r.pending == [] && r.phase == Running(s.pending, 0, |s.history|)
    ensures Conserved(r)
  {
    assert forall p :: Issued(r, p) == Issued(s, p);
    assert s.executed + [] + s.pending == s.executed + s.pending;
    assert Remaining(r) == s.pending;
    assert s.history[|s.history| - |s.pending|..|s.history|] == s.pending;
  }

  lemma RunConserves(s: State, r: State)
    requires Conserved(s) && s.phase.Running? && s.phase.next < |s.phase.batch|
    requires r.executed == s.executed + [s.phase.batch[s.phase.next]] && r.history == s.history
    requires r.issued == s.issued && r.pending == s.pending && r.phase == s.phase.(next := s.phase.next + 1)
    ensures Conserved(r)
  {
    assert forall p :: Issued(r, p) == Issued(s, p);
    MoveHead(s.executed, s.phase.batch, s.phase.next, s.pending);
  }

  lemma MoveHead(a: seq<Job>, b: seq<Job>, i: nat, c: seq<Job>)
    requires i < |b|
    ensures a + [b[i]] + b[i + 1..] + c == a + b[i..] + c
  {
    assert b[i..] == [b[i]] + b[i + 1..];
    assert a + [b[i]] + b[i + 1..] == a + b[i..];
  }

  predicate Quiet(e: Event) {
    !e.Push? && !e.OwnPush? && !e.Swap? && !e.RunNext?
  }

  lemma QuietFrame(s: State, e: Event)
    requires Quiet(e)
    ensures var r := Step(s, e);
      && r.executed == s.executed && r.pending == s.pending && r.history == s.history && r.issued == s.issued
      && (r.phase == s.phase || (!r.phase.Running? && Remaining(s) == []))
  {}

  lemma ProducerPushConserves(s: State, p: nat, body: nat)
    requires Conserved(s) && p !in s.mustWake
    ensures Conserved(ProducerPush(s, p, body))
  {
    AppendConserves(s, ProducerPush(s, p, body), Job(Producer(p), body));
  }

  lemma LoopPushConserves(s: State, body: nat)
    requires Conserved(s) && InUserCode(s)
    ensures Conserved(LoopPush(s, body))
  {
    AppendConserves(s, LoopPush(s, body), Job(LoopThread, body));
  }

  lemma StepConserves(s: State, e: Event)
    requires Conserved(s)
    ensures Conserved(Step(s, e))
  {
    var r := Step(s, e);
    if r != s {
      match e
      case Push(p, body) => ProducerPushConserves(s, p, body);
      case OwnPush(body) => LoopPushConserves(s, body);
      case Swap => SwapConserves(s, r);
      case RunNext => RunConserves(s, r);
      case _ =>
        QuietFrame(s, e);
        SameConserves(s, r);
    }
  }

  lemma StepWakes(s: State, e: Event)
    requires Inv(s)
    ensures WakeOk(Step(s, e)) && UnannouncedOk(Step(s, e))
  {
    var r := Step(s, e);
    match e
    case Finish =>
      if r != s && !Awake(s) { assert s.pending == []; }
    case Push(p, body) => assert p !in s.mustWake ==> p in r.mustWake;
    case Quit(p) => assert p in r.mustWake;
    case Wake(p) =>
    case OwnPush(body) =>
    case OwnWake =>
    case OwnQuit =>
    case Enter =>
    case Test =>
    case PollReturns(wake) =>
    case ReadWakeup =>
    case Swap =>
    case RunNext =>
  }

  lemma StepReenters(s: State, e: Event)
    requires Inv(s)
    ensures ReentryOk(Step(s, e))
  {
    var r := Step(s, e);
    match e
    case Push(p, body) => assert p !in s.mustWake ==> p in r.mustWake;
    case Quit(p) => assert p in r.mustWake;
    case Swap => if r != s { assert |s.executed + Remaining(s) + s.pending| == |s.history|; }
    case _ =>
  }

  lemma StepInv(s: State, e: Event)
    requires Inv(s)
    ensures Inv(Step(s, e))
  {
    StepConserves(s, e);
    StepWakes(s, e);
    StepReenters(s, e);
  }

  lemma InitInv(resetTo: bool)
    ensures Inv(Init(resetTo))
  {}

  lemma {:induction false} RunInv(s: State, es: seq<Event>)
    requires Inv(s)
    ensures Inv(Run(s, es))
    decreases |es|
  {
    if es != [] {
      RunInv(s, es[..|es| - 1]);
      StepInv(Run(s, es[..|es| - 1]), es[|es| - 1]);
    }
  }

  lemma ReachableInv(s: State)
    requires Reachable(s)
    ensures Inv(s)
  {
    var resetTo, es :| s == Run(Init(resetTo), es);
    InitInv(resetTo);
    RunInv(Init(resetTo), es);
  }

  /** Whenever the loop is in poll with a functor pending, the eventfd is readable or a producer
      is between its push and its write. The only exception is a functor that the loop thread
      itself queued outside loop() while callingPendingFunctors_ was false. It holds for the flag
      as written (left true) and for the flag reset to false. */
  lemma NoLostWakeup(s: State, k: nat)
    requires Reachable(s) && s.phase.Polling?
    requires FirstPending(s) <= k < |s.history| && k !in s.unannounced
    ensures 0 < s.counter || s.mustWake != {}
  {
    ReachableInv(s);
  }

  /** With the flag as written the exception shrinks to what the loop thread queued before it
      first called loop(). */
  lemma NoLostWakeupAsWritten(s: State, k: nat)
    requires Reachable(s) && s.resetTo && s.phase.Polling?
    requires FirstPending(s) <= k < |s.history| && !(s.history[k].owner == LoopThread && k < s.firstEnter)
    ensures 0 < s.counter || s.mustWake != {}
  {
    ReachableInv(s);
    assert |s.executed + Remaining(s) + s.pending| == |s.history|;
    assert k in s.unannounced ==> s.firstSwap < 0 || k < s.firstSwap;
  }

  lemma RunSnoc(s: State, es: seq<Event>, e: Event)
    ensures Run(s, es + [e]) == Step(Run(s, es), e)
  {
    assert (es + [e])[..|es|] == es;
  }

  /** loop() runs one empty iteration and returns. */
  const ONE_LOOP: seq<Event> :=
    [Enter] + [Test] + [PollReturns(false)] + [OwnQuit] + [Swap] + [Finish] + [Test]

  lemma AfterFirstPoll(resetTo: bool)
    ensures Run(Init(resetTo), [Enter] + [Test] + [PollReturns(false)] + [OwnQuit]) ==
      State(resetTo, [], 0, false, true, Handling(false), false, {}, [], [], map[], {}, 0, -1)
  {
    var s := Init(resetTo);
    RunSnoc(s, [], Enter);
    assert [] + [Enter] == [Enter];
    RunSnoc(s, [Enter], Test);
    RunSnoc(s, [Enter] + [Test], PollReturns(false));
    RunSnoc(s, [Enter] + [Test] + [PollReturns(false)], OwnQuit);
  }

  lemma AfterOneLoop(resetTo: bool)
    ensures Run(Init(resetTo), ONE_LOOP) ==
      State(resetTo, [], 0, resetTo, true, Outside, false, {}, [], [], map[], {}, 0, 0)
  {
    AfterFirstPoll(resetTo);
    var s := Init(resetTo);
    RunSnoc(s, [Enter] + [Test] + [PollReturns(false)] + [OwnQuit], Swap);
    RunSnoc(s, [Enter] + [Test] + [PollReturns(false)] + [OwnQuit] + [Swap], Finish);
    RunSnoc(s, [Enter] + [Test] + [PollReturns(false)] + [OwnQuit] + [Swap] + [Finish], Test);
  }

  /** The flag that doPendingFunctors leaves set makes a difference when the loop thread queues a
      functor between two calls of loop(): with it the next poll returns at once, with the flag
      reset to false it would block on a pending functor. */
  lemma LeftoverFlagWakes(resetTo: bool)
    ensures var s := Run(Init(resetTo), ONE_LOOP + [OwnPush(7)] + [OwnWake] + [Enter] + [Test]);
      && s.phase.Polling? && s.pending == [Job(LoopThread, 7)] && s.mustWake == {}
      && (0 < s.counter <==> resetTo)
  {
    AfterOneLoop(resetTo);
    var s := Init(resetTo);
    RunSnoc(s, ONE_LOOP, OwnPush(7));
    RunSnoc(s, ONE_LOOP + [OwnPush(7)], OwnWake);
    RunSnoc(s, ONE_LOOP + [OwnPush(7)] + [OwnWake], Enter);
    RunSnoc(s, ONE_LOOP + [OwnPush(7)] + [OwnWake] + [Enter], Test);
  }

  /** Executed functors, the rest of the batch and `pendingFunctors_` are the whole queueing
      history in mutex order: nothing is lost, repeated or reordered. */
  lemma FunctorConservation(s: State)
    requires Reachable(s)
    ensures s.executed + Remaining(s) + s.pending == s.history
    ensures s.executed <= s.history
  {
    ReachableInv(s);
    JobAssoc(s.executed, Remaining(s), s.pending);
  }

  lemma JobAssoc(a: seq<Job>, b: seq<Job>, c: seq<Job>)
    ensures a + b + c == a + (b + c) && a <= a + (b + c)
  {}

  /** The functors of one producer run in the order in which it queued them. */
  lemma ProducerOrder(s: State, p: nat)
    requires Reachable(s)
    ensures OfProducer(s.executed + Remaining(s) + s.pending, p) == Issued(s, p)
    ensures OfProducer(s.executed, p) <= Issued(s, p)
  {
    ReachableInv(s);
    JobAssoc(s.executed, Remaining(s), s.pending);
    OfProducerPrefix(s.executed, Remaining(s) + s.pending, p);
  }

  lemma {:induction false} OfProducerPrefix(a: seq<Job>, b: seq<Job>, p: nat)
    ensures OfProducer(a, p) <= OfProducer(a + b, p)
    decreases |b|
  {
    if b == [] {
      assert a + b == a;
    } else {
      var b' := b[..|b| - 1];
      assert a + b == (a + b') + [b[|b| - 1]];
      OfProducerPrefix(a, b', p);
      OfProducerSnoc(a + b', b[|b| - 1], p);
    }
  }

  /** The batch is what was queued before the swap: what a running functor queues goes to
      `pendingFunctors_`, for the next iteration. */
  lemma BatchIsClosed(s: State)
    requires Reachable(s) && s.phase.Running?
    ensures |s.phase.batch| <= s.phase.upto <= |s.history|
    ensures s.phase.batch == s.history[s.phase.upto - |s.phase.batch|..s.phase.upto]
    ensures s.pending == s.history[s.phase.upto..]
  {
    ReachableInv(s);
    assert |s.executed + Remaining(s)| == s.phase.upto;
  }

  // ---- the eventfd is read ----------------------------------------------------------------------

  /** The event is a write to the eventfd. */
  predicate WritesEventfd(s: State, e: Event) {
    (e.Wake? && e.producer in s.mustWake) || (e.OwnWake? && s.owes)
  }

  /** The event is a read of it, by the handler of the wakeup channel. */
  predicate ReadsEventfd(s: State, e: Event) {
    e.ReadWakeup? && s.phase == Handling(true) && !s.owes
  }

  /** In the run of `es` a write came after the last read. */
  predicate Unread(s: State, es: seq<Event>)
    decreases |es|
  {
    es != [] &&
    (var before := Run(s, es[..|es| - 1]); var e := es[|es| - 1];
     WritesEventfd(before, e) || (!ReadsEventfd(before, e) && Unread(s, es[..|es| - 1])))
  }

  /** The eventfd is readable exactly if somebody has written to it since it was last read. */
  lemma {:induction false} ReadableIff(resetTo: bool, es: seq<Event>)
    ensures 0 < Run(Init(resetTo), es).counter <==> Unread(Init(resetTo), es)
    decreases |es|
  {
    if es != [] {
      ReadableIff(resetTo, es[..|es| - 1]);
      CounterStep(Run(Init(resetTo), es[..|es| - 1]), es[|es| - 1]);
    }
  }

  lemma CounterStep(s: State, e: Event)
    ensures 0 < Step(s, e).counter <==> WritesEventfd(s, e) || (!ReadsEventfd(s, e) && 0 < s.counter)
  {}

  predicate NoWrites(es: seq<Event>) {
    forall e | e in es :: !e.Wake? && !e.OwnWake?
  }

  lemma WakeupStep(s: State, e: Event)
    requires (s.phase == Handling(true) || s.counter == 0) && !e.Wake? && !e.OwnWake?
    ensures var r := Step(s, e); r.phase == Handling(true) || r.counter == 0
  {}

  /** When poll reports the wakeup channel its handler reads the eventfd before the functors of that
      pass are swapped out: from then on it stays empty until somebody writes again. */
  lemma {:induction false} WakeupIsRead(s: State, es: seq<Event>)
    requires s.phase.Polling? && 0 < s.counter && NoWrites(es)
    ensures var r := Run(Step(s, PollReturns(true)), es); r.phase == Handling(true) || r.counter == 0
    decreases |es|
  {
    if es != [] {
      var before := es[..|es| - 1];
      assert forall e | e in before :: e in es;
      assert es[|es| - 1] in es;
      WakeupIsRead(s, before);
      WakeupStep(Run(Step(s, PollReturns(true)), before), es[|es| - 1]);
    }
  }

  // ---- quit -------------------------------------------------------------------------------------

  /** quit_ is set by quit, on either kind of thread, and cleared by the next call of loop(). */
  lemma QuitExact(s: State, e: Event)
    ensures Step(s, e).quit <==>
      (e.Quit? && e.producer !in s.mustWake) || (e.OwnQuit? && InUserCode(s)) ||
      (s.quit && !(e.Enter? && s.phase.Outside? && !s.owes))
    ensures e.Quit? && e.producer !in s.mustWake ==> e.producer in Step(s, e).mustWake
  {}

  /** loop() ends exactly at a test that finds quit_ set. */
  lemma LoopEndsIff(s: State, e: Event)
    requires !s.phase.Outside?
    ensures Step(s, e).phase.Outside? <==> e.Test? && s.phase.Top? && s.quit
  {}

  /** What is left of a pass. */
  function Ahead(p: Phase): nat {
    match p
    case Polling => 4
    case Handling(_) => 3
    case Running(_, _, _) => 2
    case Top => 1
    case Outside => 0
  }

  /** Once quit_ is set the pass at work is the last: no poll begins until loop() is called again. */
  lemma {:induction false} QuitIsLast(s: State, es: seq<Event>)
    requires s.quit && Enter !in es
    ensures var r := Run(s, es); r.quit && Ahead(r.phase) <= Ahead(s.phase)
    decreases |es|
  {
    if es != [] {
      assert Enter !in es[..|es| - 1] && es[|es| - 1] in es;
      QuitIsLast(s, es[..|es| - 1]);
      LastStep(Run(s, es[..|es| - 1]), es[|es| - 1]);
    }
  }

  lemma LastStep(s: State, e: Event)
    requires s.quit && !e.Enter?
    ensures Step(s, e).quit && Ahead(Step(s, e).phase) <= Ahead(s.phase)
  {}

  /** Each step of a pass in turn: poll, handlers, functors, test. */
  lemma PassGoesOn(s: State)
    requires Reachable(s) && !s.owes
    ensures s.phase.Top? && !s.quit ==> Step(s, Test).phase.Polling?
    ensures s.phase.Polling? ==> Step(s, PollReturns(true)).phase == Handling(0 < s.counter)
    ensures s.phase == Handling(false) ==>
      Step(s, Swap).phase == Running(s.pending, 0, |s.history|) && Step(s, Swap).pending == [] && Step(s, Swap).calling
    ensures s.phase.Running? && s.phase.next < |s.phase.batch| ==>
      Step(s, RunNext).executed == s.executed + [s.phase.batch[s.phase.next]]
    ensures s.phase.Running? && s.phase.next == |s.phase.batch| ==> Step(s, Finish).phase.Top?
  {}
}
