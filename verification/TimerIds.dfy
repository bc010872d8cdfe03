/** The id that addTimer returns. Its number is read from the timer after the timer has been
    posted, so on another thread the loop may have added, run and deleted it by then. */
module TimerIds {
  import opened TimerEntries
  import opened TimerModel
  import opened TimerInvariant
  import opened TimerTheorems
  import opened TimerQueues

  // ---- every run --------------------------------------------------------------------------

  /** Calls under way read where their timer was born; a call that has read anything but the
      number of its own timer did so after that timer was deleted. */
  ghost predicate ReadOk(s: State) {
    && (forall q | q in s.reading ::
          q in s.history.born && s.history.born[q].addr == s.reading[q] && 0 < s.reading[q] < UINTPTR_MAX)
    && (forall q | q in s.history.found ::
          q in s.history.born && (s.history.found[q] == Got(q) || q in s.history.deleted))
  }

  lemma LaterReads(s: State, r: State)
    requires ReadOk(s) && Later(s, r) && SameReads(s, r)
    ensures ReadOk(r)
  {}

  lemma NewReads(s: State, a: Addr, when: int, interval: nat, repeat: bool)
    requires HeapOk(s) && ReadOk(s)
    ensures ReadOk(NewTimer(s, a, when, interval, repeat))
  {}

  lemma FinishReads(s: State, q: nat)
    requires HeapOk(s) && ReadOk(s)
    ensures ReadOk(FinishAdd(s, q))
  {
    if q in s.reading {
      assert q in s.history.deleted || Alive(s, q);
    }
  }

  lemma StepReads(s: State, e: Event)
    requires Inv(s) && ReadOk(s)
    ensures ReadOk(Step(s, e))
  {
    StepLater(s, e);
    if OfAddTimer(e) {
      match e.call
      case New(a, when, interval, repeat) => NewReads(s, a, when, interval, repeat);
      case ReadId(q) => FinishReads(s, q);
      case _ => assert false;
    } else {
      LaterReads(s, Step(s, e));
    }
  }

  lemma {:induction false} RunReads(clock: int, es: seq<Event>)
    requires 0 < clock
    ensures ReadOk(Run(Init(clock), es))
    decreases |es|
  {
    if es != [] {
      RunReads(clock, es[..|es| - 1]);
      InitInv(clock);
      RunInv(Init(clock), es[..|es| - 1]);
      StepReads(Run(Init(clock), es[..|es| - 1]), es[|es| - 1]);
    }
  }

  lemma ReachableReads(s: State)
    requires Reachable(s)
    ensures Inv(s) && ReadOk(s)
  {
    ReachableInv(s);
    var clock, es :| 0 < clock && s == Run(Init(clock), es);
    RunReads(clock, es);
  }

  /** In every reachable state no assertion of the queue has failed, it has read, run and deleted
      live timers only, and ownership is a partition; and every completed call of addTimer has
      read its own timer's number, unless that timer had been deleted. */
  lemma TimerSafety(s: State)
    requires Reachable(s)
    ensures !s.fault
    ensures forall q | q in s.history.born ::
      Count(IsQueued(s, q), IsIndexed(s, q), IsExpired(s, q), IsDeleted(s, q)) == 1
    ensures forall q | q in s.history.found :: s.history.found[q] == Got(q) || IsDeleted(s, q)
  {
    TimerOwnership(s);
    ReachableReads(s);
  }

  // ---- one call ---------------------------------------------------------------------------

  /** The read at the end of addTimer: its own number exactly if the timer is not deleted yet;
      freed memory exactly if it is and its address is free; otherwise the number of another
      live timer that got the same address. */
  lemma ReadIdExact(s: State, q: nat, r: State)
    requires Reachable(s) && q in s.reading && r == Step(s, User(ReadId(q)))
    ensures q in s.history.born && q in r.history.found
    ensures r.history.found[q] == Got(q) <==> !IsDeleted(s, q)
    ensures r.history.found[q] == Stray <==> IsDeleted(s, q) && s.history.born[q].addr !in s.heap
    ensures r.history.found[q].Got? ==>
      Alive(s, r.history.found[q].sequence) &&
      s.history.born[r.history.found[q].sequence].addr == s.history.born[q].addr
  {
    ReachableReads(s);
    assert q in s.history.deleted || Alive(s, q);
  }

  /** In the last case addTimer returns the id of somebody else's timer: cancelling it deletes
      that timer. */
  lemma WrongIdCancelsAnother(s: State, q: nat, r: State)
    requires Reachable(s) && q in s.reading && r == Step(s, User(ReadId(q)))
    requires IsDeleted(s, q) && s.reading[q] in s.heap && s.reading[q] !in s.queued && !s.calling
    ensures q in r.history.found && r.history.found[q].Got? && r.history.found[q].sequence != q
    ensures var n := r.history.found[q].sequence;
      !IsDeleted(r, n) && IsDeleted(Step(r, User(Cancel(ActiveTimer(s.reading[q], n)))), n)
  {
    ReachableReads(s);
    ReadIdExact(s, q, r);
    var n := r.history.found[q].sequence;
    StepReachable(s, User(ReadId(q)));
    ReachableInv(r);
    assert s.reading[q] == s.history.born[n].addr && Alive(r, n);
    OneOwner(r, n);
    CancelIndexed(r, n, Step(r, User(Cancel(ActiveTimer(s.reading[q], n)))));
  }

  // ---- on the loop thread -------------------------------------------------------------------

  /** What can happen while the loop thread is inside addTimer for timer `q`: other threads go
      on, and timers are added, but none is cancelled and no handler runs. */
  predicate DuringOwnCall(q: nat, e: Event) {
    e.User? && !e.call.Cancel? && e.call != ReadId(q)
  }

  lemma OwnCallStep(s: State, q: nat, e: Event)
    requires Inv(s) && ReadOk(s) && q in s.reading && !IsDeleted(s, q) && DuringOwnCall(q, e)
    ensures var r := Step(s, e); q in r.reading && !IsDeleted(r, q)
  {
    match e.call
    case New(_, _, _, _) =>
    case Add(a) => AddLater(s, a);
    case ReadId(_) =>
    case Tick(_) =>
  }

  lemma {:induction false} OwnCallRun(s: State, q: nat, es: seq<Event>)
    requires Reachable(s) && q in s.reading && !IsDeleted(s, q)
    requires forall e | e in es :: DuringOwnCall(q, e)
    ensures var r := Run(s, es); Reachable(r) && q in r.reading && !IsDeleted(r, q)
    decreases |es|
  {
    if es != [] {
      var before := es[..|es| - 1];
      assert forall e | e in before :: e in es;
      OwnCallRun(s, q, before);
      ReachableReads(Run(s, before));
      OwnCallStep(Run(s, before), q, es[|es| - 1]);
      StepReachable(Run(s, before), es[|es| - 1]);
    }
  }

  /** A call of addTimer on the loop thread always reads its own timer's number. */
  lemma LoopThreadReadsOwn(s: State, a: Addr, when: int, interval: nat, repeat: bool, es: seq<Event>)
    requires Reachable(s) && a !in s.heap && 0 < a < UINTPTR_MAX
    requires forall e | e in es :: DuringOwnCall(s.created + 1, e)
    ensures var q := s.created + 1;
      var r := Step(Run(Step(s, User(New(a, when, interval, repeat))), es), User(ReadId(q)));
      q in r.history.found && r.history.found[q] == Got(q)
  {
    var q := s.created + 1;
    var s1 := Step(s, User(New(a, when, interval, repeat)));
    ReachableInv(s);
    StepReachable(s, User(New(a, when, interval, repeat)));
    assert q in s1.reading && !IsDeleted(s1, q);
    OwnCallRun(s1, q, es);
    ReadIdExact(Run(s1, es), q, Step(Run(s1, es), User(ReadId(q))));
  }

  // ---- on another thread --------------------------------------------------------------------

  /** No timer has come to life or changed its number. */
  ghost predicate SubHeap(s: State, r: State) {
    forall a | a in r.heap :: a in s.heap && r.heap[a].sequence == s.heap[a].sequence
  }

  lemma Reset1SubHeap(s: State)
    requires Core(s) && s.expired != []
    ensures SubHeap(s, Reset1(s))
  {
    Reset1Effect(s);
  }

  lemma {:induction false} ResetLoopSubHeap(s: State)
    requires Resetting(s)
    ensures SubHeap(s, ResetLoop(s))
    decreases |s.expired|
  {
    if s.expired != [] {
      Reset1SubHeap(s);
      ResetLoopTurn(s);
      ResetLoopSubHeap(Reset1(s));
    }
  }

  lemma EndSubHeap(s: State)
    requires Inv(s) && s.calling && s.ran == |s.expired|
    ensures SubHeap(s, End(s))
  {
    EndEqualsReset(s);
    StopCalling(s);
    ResetLoopSubHeap(s.(calling := false, ran := 0));
  }

  lemma BeginHeap(s: State)
    requires Inv(s) && !s.calling
    ensures Begin(s).heap == s.heap
  {
    var s1 := s.(fd := ReadTimerfd(s.fd));
    FdChangeCore(s, s1.fd);
    GetExpiredSplits(s1, s.clock);
  }

  /** Callbacks that make no calls only advance the loop. */
  lemma {:induction false} IdleCallbacks(s: State)
    requires Reachable(s) && s.calling
    ensures var r := Callbacks(s, []);
      && Reachable(r) && r.calling && r.ran == |r.expired|
      && r.heap == s.heap && r.canceling == s.canceling && Later(s, r) && SameReads(s, r)
      && r.history.batch == s.history.batch
    decreases |s.expired| - s.ran
  {
    ReachableInv(s);
    if s.ran < |s.expired| {
      StepReachable(s, RunNext);
      CallbacksTurn(s, []);
      assert PerformAll(Run1(s), []) == Run1(s);
      IdleCallbacks(Run1(s));
    }
  }

  /** A whole handler run whose callbacks make no calls. */
  ghost function IdleHandler(s: State): State {
    End(Callbacks(Begin(s), []))
  }

  lemma DueInBatch(s: State, q: nat)
    requires Reachable(s) && !s.calling && IsIndexed(s, q) && s.heap[s.history.born[q].addr].expiration <= s.clock
    ensures var b := Step(s, BeginRead);
      b.calling && q in b.history.batch && q in b.history.born && b.history.born[q] == s.history.born[q]
  {
    var b := Step(s, BeginRead);
    ReachableInv(s);
    BatchIsWhatIsDue(s, b);
    BeginLater(s);
    var e := EntryAt(s, s.history.born[q].addr);
    assert e in b.expired;
    var i :| 0 <= i < |b.expired| && b.expired[i] == e;
    assert Sequences(s, b.expired)[i] == q;
  }

  /** Any one-shot timer that is due can be gone before the thread that added it has read its
      number: after one handler run it is deleted and its address is free. */
  lemma DueTimerIsFreed(s: State, q: nat)
    requires Reachable(s) && !s.calling && q in s.reading && IsIndexed(s, q) && !s.history.born[q].repeat
    requires s.heap[s.history.born[q].addr].expiration <= s.clock
    ensures var r := IdleHandler(s);
      && Reachable(r) && !r.calling && q in r.reading && q in r.history.born
      && r.history.born[q] == s.history.born[q] && IsDeleted(r, q) && r.history.born[q].addr !in r.heap
  {
    ReachableInv(s);
    var b := Step(s, BeginRead);
    StepReachable(s, BeginRead);
    DueInBatch(s, q);
    BeginLater(s);
    BeginHeap(s);
    IdleCallbacks(b);
    var c := Callbacks(b, []);
    EndFrees(c, q, s.history.born[q].addr);
  }

  lemma EndFrees(c: State, q: nat, a: Addr)
    requires Reachable(c) && c.calling && c.ran == |c.expired| && q in c.history.batch && q in c.reading
    requires q in c.history.born && c.history.born[q] == Birth(a, false) && a in c.heap && c.heap[a].sequence == q
    ensures var r := End(c);
      && Reachable(r) && !r.calling && q in r.reading && q in r.history.born
      && r.history.born[q] == Birth(a, false) && IsDeleted(r, q) && a !in r.heap
  {
    var r := End(c);
    ReachableInv(c);
    EndOfHandlerFate(c, q, r);
    EndLater(c);
    EndSubHeap(c);
    StepReachable(c, EndRead);
    ReachableInv(r);
  }

  /** The two ways in which the read then goes wrong: it finds freed memory, or, if a new timer
      has been given the address, that timer's number. */
  lemma LateRead(s: State, q: nat, when: int, interval: nat, repeat: bool)
    requires Reachable(s) && q in s.reading && q in s.history.born && IsDeleted(s, q)
    requires s.history.born[q].addr !in s.heap
    ensures var a := s.history.born[q].addr;
      var freed := Step(s, User(ReadId(q)));
      var reused := Step(Step(s, User(New(a, when, interval, repeat))), User(ReadId(q)));
      && q in freed.history.found && freed.history.found[q] == Stray
      && q in reused.history.found && reused.history.found[q] == Got(s.created + 1) && s.created + 1 != q
  {
    ReachableReads(s);
    ReadIdExact(s, q, Step(s, User(ReadId(q))));
  }

  /** A timer that is due as soon as it is added, at address 8. */
  const ADDED: seq<Event> := [User(New(8, 1, 0, false))] + [User(Add(8))]

  lemma AddedState()
    ensures var s := Run(Init(1), ADDED);
      && Reachable(s) && !s.calling && 1 in s.reading && IsIndexed(s, 1) && s.clock == 1
      && s.history.born[1] == Birth(8, false) && s.heap[8].expiration == 1
  {
    var s0 := Init(1);
    assert s0 == Run(s0, []) && Reachable(s0);
    assert ADDED[..1] == [User(New(8, 1, 0, false))] && ADDED[..1][..0] == [];
    var s1 := Step(s0, User(New(8, 1, 0, false)));
    assert s1 == Run(s0, ADDED[..1]);
    AddedAsAsked(s0, 8, 1, 0, false, Run(s0, ADDED));
    StepReachable(s0, User(New(8, 1, 0, false)));
    StepReachable(s1, User(Add(8)));
    AddLater(s1, 8);
    AddFrame(s1, 8);
  }

  /** A run in which addTimer reads freed memory, and one in which it returns the id of another
      timer: the loop adds, runs and deletes the timer before the thread that posted it goes on. */
  lemma AddTimerReadsTooLate()
    ensures var s := IdleHandler(Run(Init(1), ADDED));
      var freed := Step(s, User(ReadId(1)));
      var reused := Step(Step(s, User(New(8, 5, 0, false))), User(ReadId(1)));
      && Reachable(s) && 1 in freed.history.found && freed.history.found[1] == Stray
      && 1 in reused.history.found && reused.history.found[1].Got? && reused.history.found[1] != Got(1)
  {
    AddedState();
    FreedState();
    LateRead(IdleHandler(Run(Init(1), ADDED)), 1, 5, 0, false);
  }

  lemma FreedState()
    ensures var s := IdleHandler(Run(Init(1), ADDED));
      && Reachable(s) && !s.calling && 1 in s.reading && 1 in s.history.born && s.history.born[1] == Birth(8, false)
      && IsDeleted(s, 1) && 8 !in s.heap
  {
    AddedState();
    DueTimerIsFreed(Run(Init(1), ADDED), 1);
  }

  /** A state of the second kind: the address has been given to another timer, which has been
      added, when the first thread goes on. */
  ghost function ReusedState(): State {
    Step(Step(IdleHandler(Run(Init(1), ADDED)), User(New(8, 5, 0, false))), User(Add(8)))
  }

  lemma ReusedFacts()
    ensures var s := ReusedState();
      && Reachable(s) && !s.calling && 1 in s.reading && s.reading[1] == 8
      && IsDeleted(s, 1) && 8 in s.heap && 8 !in s.queued
  {
    FreedState();
    var s := IdleHandler(Run(Init(1), ADDED));
    ReachableReads(s);
    Reuse(s, 1, 5, 0, false);
  }

  /** Giving the address to another timer, and adding that. */
  lemma Reuse(s: State, q: nat, when: int, interval: nat, repeat: bool)
    requires Reachable(s) && !s.calling && q in s.reading && IsDeleted(s, q) && s.reading[q] !in s.heap
    ensures var a := s.reading[q]; var r := Step(Step(s, User(New(a, when, interval, repeat))), User(Add(a)));
      && Reachable(r) && !r.calling && q in r.reading && r.reading[q] == a
      && IsDeleted(r, q) && a in r.heap && a !in r.queued
  {
    var a := s.reading[q];
    var s1 := Step(s, User(New(a, when, interval, repeat)));
    ReachableReads(s);
    StepReachable(s, User(New(a, when, interval, repeat)));
    StepReachable(s1, User(Add(a)));
    ReachableInv(s1);
    AddEffect(s1, a);
  }

  /** The run goes on: the first thread cancels the timer it believes to have added, and the other
      timer is deleted. */
  lemma WrongTimerCancelled()
    ensures var s := ReusedState(); var r := Step(s, User(ReadId(1)));
      && 1 in r.history.found && r.history.found[1].Got? && r.history.found[1].sequence != 1
      && var n := r.history.found[1].sequence;
         !IsDeleted(r, n) && IsDeleted(Step(r, User(Cancel(ActiveTimer(8, n)))), n)
  {
    ReusedFacts();
    WrongIdCancelsAnother(ReusedState(), 1, Step(ReusedState(), User(ReadId(1))));
  }

  // ---- what a caller on another thread can know ---------------------------------------------------

  /** Timer `q` repeats and, if it is in the batch, the end of the handler will re-insert it. */
  ghost predicate Lasting(s: State, q: nat) {
    && Inv(s) && q in s.history.born && s.history.born[q].repeat && !IsDeleted(s, q)
    && (q in s.history.batch ==> ActiveTimer(s.history.born[q].addr, q) !in s.canceling)
  }

  lemma ActiveIsOwn(s: State, id: ActiveTimer)
    requires Core(s) && id in s.active
    ensures id.sequence in s.history.born && s.history.born[id.sequence].addr == id.timer
  {}

  lemma LastingCancel(s: State, q: nat, id: ActiveTimer)
    requires Lasting(s, q) && id != ActiveTimer(s.history.born[q].addr, q)
    ensures var r := CancelInLoop(s, id); var own := ActiveTimer(s.history.born[q].addr, q);
      !IsDeleted(r, q) && r.history.batch == s.history.batch && (own in r.canceling ==> own in s.canceling)
  {
    if id in s.active {
      ActiveIsOwn(s, id);
      CancelRemoves(s, id);
    } else {
      MissShape(s, id);
    }
  }

  lemma LastingEnd(s: State, q: nat)
    requires Lasting(s, q) && s.calling && s.ran == |s.expired|
    ensures !IsDeleted(End(s), q) && !End(s).calling
  {
    EndShape(s);
    if q in s.history.batch {
      EndFate(s, q);
    } else {
      EndLeavesAlone(s, q);
    }
  }

  /** A timer that is not in the batch is not deleted by the end of the handler. */
  lemma EndLeavesAlone(s: State, q: nat)
    requires Inv(s) && s.calling && s.ran == |s.expired| && q in s.history.born && q !in s.history.batch
    ensures IsDeleted(End(s), q) == IsDeleted(s, q)
  {
    EndEqualsReset(s);
    StopCalling(s);
    ResetLoopLeavesAlone(s.(calling := false, ran := 0), q);
  }

  lemma BeginShape(s: State)
    requires Inv(s) && !s.calling
    ensures Begin(s).canceling == {} && Begin(s).history.deleted == s.history.deleted
  {
    BeginSplits(s);
  }

  lemma AddCanceling(s: State, a: Addr)
    ensures AddTimerInLoop(s, a).canceling == s.canceling
  {}

  lemma LastingStep(s: State, q: nat, e: Event)
    requires Lasting(s, q) && e != User(Cancel(ActiveTimer(s.history.born[q].addr, q)))
    ensures Lasting(Step(s, e), q)
  {
    StepInv(s, e);
    StepLater(s, e);
    match e
    case User(c) =>
      match c {
        case New(_, _, _, _) =>
        case Add(a) =>
          AddLater(s, a);
          AddCanceling(s, a);
        case ReadId(_) =>
        case Cancel(id) => LastingCancel(s, q, id);
        case Tick(_) =>
      }
    case BeginRead => if !s.calling { BeginShape(s); }
    case RunNext =>
    case EndRead => if s.calling && s.ran == |s.expired| { LastingEnd(s, q); }
  }

  /** Nobody cancels `id`. */
  predicate NeverCancelled(id: ActiveTimer, es: seq<Event>) {
    forall e | e in es :: e != User(Cancel(id))
  }

  lemma {:induction false} LastingRun(s: State, q: nat, es: seq<Event>)
    requires Lasting(s, q) && NeverCancelled(ActiveTimer(s.history.born[q].addr, q), es)
    ensures Lasting(Run(s, es), q)
    decreases |es|
  {
    if es != [] {
      var before := es[..|es| - 1];
      assert forall e | e in before :: e in es;
      assert es[|es| - 1] in es;
      LastingRun(s, q, before);
      RunLater(s, before);
      LastingStep(Run(s, before), q, es[|es| - 1]);
    }
  }

  // A one-shot timer: let the handler at work end, add the timer, wait until it is due, and let the
  // next handler run.

  lemma {:induction false} RunConcat(s: State, a: seq<Event>, b: seq<Event>)
    ensures Run(s, a + b) == Run(Run(s, a), b)
    decreases |b|
  {
    if b == [] {
      assert a + b == a;
    } else {
      assert (a + b)[..|a + b| - 1] == a + b[..|b| - 1];
      RunConcat(s, a, b[..|b| - 1]);
    }
  }

  lemma RunOne(s: State, e: Event)
    ensures Run(s, [e]) == Step(s, e)
  {
    assert [e][..0] == [];
  }

  function Nexts(n: nat): seq<Event> { seq(n, _ => RunNext) }

  /** The callbacks run, and change nothing but the log. */
  lemma {:induction false} NextsRun(s: State, n: nat)
    requires Reachable(s) && s.calling && s.ran + n <= |s.expired|
    ensures var r := Run(s, Nexts(n));
      && Reachable(r) && r.ran == s.ran + n
      && r == s.(ran := r.ran, history := s.history.(log := r.history.log))
    decreases n
  {
    if n != 0 {
      assert Nexts(n)[..n - 1] == Nexts(n - 1);
      NextsRun(s, n - 1);
      var r := Run(s, Nexts(n - 1));
      ReachableInv(r);
      NextToRun(r);
      StepReachable(r, RunNext);
    } else {
      assert Nexts(0) == [];
    }
  }

  lemma RunSnoc(s: State, es: seq<Event>, e: Event)
    ensures Run(s, es + [e]) == Step(Run(s, es), e)
  {
    RunConcat(s, es, [e]);
    RunOne(Run(s, es), e);
  }

  lemma InvBounds(s: State)
    requires Reachable(s)
    ensures !s.fault && s.ran <= |s.expired|
  {
    ReachableInv(s);
  }

  /** A handler at work, run to its end. */
  function Rest(s: State): seq<Event> {
    Nexts(if s.ran <= |s.expired| then |s.expired| - s.ran else 0) + [EndRead]
  }

  lemma RestRun(s: State) returns (c: State)
    requires Reachable(s) && s.calling
    ensures Reachable(c) && c.calling && c.ran == |c.expired|
    ensures c == s.(ran := c.ran, history := s.history.(log := c.history.log))
    ensures Run(s, Rest(s)) == End(c) && Reachable(End(c))
  {
    InvBounds(s);
    var n := |s.expired| - s.ran;
    NextsRun(s, n);
    c := Run(s, Nexts(n));
    RunSnoc(s, Nexts(n), EndRead);
    InvBounds(c);
    StepReachable(c, EndRead);
    assert Step(c, EndRead) == End(c);
  }

  /** Timer `q` waits to be added, and its addTimer to read its number. */
  ghost predicate Posted(s: State, q: nat) {
    Reachable(s) && q in s.reading && IsQueued(s, q) && !s.history.born[q].repeat
  }

  lemma EndKeepsPosted(c: State, q: nat)
    requires Posted(c, q) && c.calling && c.ran == |c.expired| && Reachable(End(c))
    ensures Posted(End(c), q) && !End(c).calling
  {
    ReachableInv(c);
    QueuedNotInBatch(c, c.history.born[q].addr);
    EndShape(c);
    EndLater(c);
    EndLeavesAlone(c, q);
    ReachableInv(End(c));
  }

  /** No handler is at work. */
  lemma Settle(s: State, q: nat) returns (es: seq<Event>)
    requires Posted(s, q)
    ensures Posted(Run(s, es), q) && !Run(s, es).calling
    ensures forall e | e in es :: !e.User?
  {
    if s.calling {
      var c := RestRun(s);
      EndKeepsPosted(c, q);
      es := Rest(s);
    } else {
      es := [];
    }
  }

  /** Timer `q` is indexed and due, and its addTimer has not read. */
  ghost predicate Due(s: State, q: nat) {
    && Reachable(s) && !s.calling && q in s.reading && IsIndexed(s, q) && !s.history.born[q].repeat
    && s.heap[s.history.born[q].addr].expiration <= s.clock
  }

  lemma AddThenDue(s: State, q: nat) returns (es: seq<Event>)
    requires Posted(s, q) && !s.calling
    ensures Due(Run(s, es), q)
    ensures forall e | e in es :: !(e.User? && e.call.Cancel?)
  {
    ReachableInv(s);
    var a := s.history.born[q].addr;
    AddIndexes(s, a);
    AddLater(s, a);
    AddFrame(s, a);
    var r := Step(s, User(Add(a)));
    StepReachable(s, User(Add(a)));
    var d := if r.heap[a].expiration <= r.clock then 0 else r.heap[a].expiration - r.clock;
    StepReachable(r, User(Tick(d)));
    RunOne(s, User(Add(a)));
    RunOne(r, User(Tick(d)));
    RunConcat(s, [User(Add(a))], [User(Tick(d))]);
    TickDue(r, q, d);
    es := [User(Add(a))] + [User(Tick(d))];
  }

  lemma TickDue(s: State, q: nat, d: nat)
    requires Reachable(s) && !s.calling && q in s.reading && IsIndexed(s, q) && !s.history.born[q].repeat
    requires s.heap[s.history.born[q].addr].expiration <= s.clock + d && Reachable(Step(s, User(Tick(d))))
    ensures Due(Step(s, User(Tick(d))), q)
  {
    ReachableInv(s);
  }

  lemma DueThenDeleted(s: State, q: nat) returns (es: seq<Event>)
    requires Due(s, q)
    ensures var r := Run(s, es); Reachable(r) && q in r.reading && IsDeleted(r, q)
    ensures forall e | e in es :: !e.User?
  {
    var b := Step(s, BeginRead);
    StepReachable(s, BeginRead);
    DueInBatch(s, q);
    BeginReads(s);
    RestDeletes(b, q);
    RunOne(s, BeginRead);
    RunConcat(s, [BeginRead], Rest(b));
    es := [BeginRead] + Rest(b);
  }

  lemma RestDeletes(b: State, q: nat)
    requires Reachable(b) && b.calling && q in b.history.batch && q in b.reading
    requires q in b.history.born && !b.history.born[q].repeat
    ensures var r := Run(b, Rest(b)); Reachable(r) && q in r.reading && IsDeleted(r, q)
  {
    var c := RestRun(b);
    EndDeletes(c, q);
  }

  lemma EndDeletes(c: State, q: nat)
    requires Reachable(c) && c.calling && c.ran == |c.expired| && q in c.history.batch && q in c.reading
    requires q in c.history.born && !c.history.born[q].repeat
    ensures q in End(c).reading && IsDeleted(End(c), q)
  {
    ReachableInv(c);
    EndFate(c, q);
    EndLater(c);
  }

  lemma BeginReads(s: State)
    requires Reachable(s)
    ensures Step(s, BeginRead).reading == s.reading
  {
    ReachableInv(s);
    BeginLater(s);
  }

  lemma OneShotDeleted(s: State, q: nat) returns (es: seq<Event>)
    requires Posted(s, q)
    ensures var r := Run(s, es); Reachable(r) && q in r.reading && IsDeleted(r, q)
    ensures forall e | e in es :: !(e.User? && e.call.Cancel?)
  {
    var a := Settle(s, q);
    var b := AddThenDue(Run(s, a), q);
    var c := DueThenDeleted(Run(Run(s, a), b), q);
    RunConcat(s, a, b);
    RunConcat(s, a + b, c);
    es := a + b + c;
  }

  /** If the read has not happened by the end of `es`, it finds the timer's own number then. */
  ghost predicate ReadsOwn(s: State, q: nat, es: seq<Event>) {
    q in Run(s, es).reading ==>
      var r := Step(Run(s, es), User(ReadId(q))); q in r.history.found && r.history.found[q] == Got(q)
  }

  /** What a thread other than the loop's can rely on when it calls addTimer: as long as nobody
      cancels the new timer, the id it gets is right in every continuation, if and only if the
      timer repeats. */
  lemma AddTimerSafeIff(s: State, a: Addr, when: int, interval: nat, repeat: bool)
    requires Reachable(s) && a !in s.heap && 0 < a < UINTPTR_MAX
    ensures var q := s.created + 1; var t := Step(s, User(New(a, when, interval, repeat)));
      (forall es | NeverCancelled(ActiveTimer(a, q), es) :: ReadsOwn(t, q, es)) <==> repeat
  {
    var q := s.created + 1;
    var t := Step(s, User(New(a, when, interval, repeat)));
    ReachableInv(s);
    StepReachable(s, User(New(a, when, interval, repeat)));
    ReachableInv(t);
    NewlyPosted(s, a, when, interval, repeat);
    if repeat {
      forall es | NeverCancelled(ActiveTimer(a, q), es)
        ensures ReadsOwn(t, q, es)
      {
        LastingReads(t, q, es);
      }
    } else {
      var es := OneShotDeleted(t, q);
      assert NeverCancelled(ActiveTimer(a, q), es);
      ReadIdExact(Run(t, es), q, Step(Run(t, es), User(ReadId(q))));
      assert !ReadsOwn(t, q, es);
    }
  }

  lemma LastingReads(t: State, q: nat, es: seq<Event>)
    requires Reachable(t) && Lasting(t, q) && NeverCancelled(ActiveTimer(t.history.born[q].addr, q), es)
    ensures ReadsOwn(t, q, es)
  {
    LastingRun(t, q, es);
    RunReachable(t, es);
    if q in Run(t, es).reading {
      ReadIdExact(Run(t, es), q, Step(Run(t, es), User(ReadId(q))));
    }
  }

  lemma {:induction false} RunReachable(s: State, es: seq<Event>)
    requires Reachable(s)
    ensures Reachable(Run(s, es))
    decreases |es|
  {
    if es != [] {
      RunReachable(s, es[..|es| - 1]);
      StepReachable(Run(s, es[..|es| - 1]), es[|es| - 1]);
    }
  }

  lemma NewlyPosted(s: State, a: Addr, when: int, interval: nat, repeat: bool)
    requires Inv(s) && a !in s.heap && 0 < a < UINTPTR_MAX
    ensures var q := s.created + 1; var t := NewTimer(s, a, when, interval, repeat);
      && q in t.history.born && t.history.born[q] == Birth(a, repeat) && !IsDeleted(t, q)
      && q in t.reading && IsQueued(t, q) && q !in t.history.batch
  {
    FreshNotInBatch(s);
  }

  lemma FreshNotInBatch(s: State)
    requires Core(s)
    ensures s.created + 1 !in s.history.batch
  {}
}
